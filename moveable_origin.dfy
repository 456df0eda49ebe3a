/** The placeable map marker (MovableOrigin). Holding it over the floor
    makes it placeable; letting go while placeable snaps it to the floor and
    commits the placement: every client re-roots its play space on the
    marker, the marker is reset to the origin, and it stops being placeable
    until it is brought to the floor again. */
module Origin {
  import opened Basics
  import opened Geometry
  import Alignment

  datatype PointerEvent = Select | Unselect | Other

  /** What can happen to the marker: an interaction event, or a collider entering
      or leaving its trigger (`floor` tells whether it is tagged Floor). */
  datatype MarkerEvent = Interaction(evt: PointerEvent) | Enter(floor: bool) | Exit(floor: bool)

  /** The local selection and the server's placeable flag. */
  datatype Gate = Gate(selected: bool, placeable: bool)

  datatype GateStep = GateStep(gate: Gate, commits: bool)

  /** One event of the placement gate, with delivery of the commands to the
      server folded in. */
  function Next(g: Gate, e: MarkerEvent): (r: GateStep)
    ensures r.commits <==> e == Interaction(Unselect) && g.placeable
    ensures r.commits ==> !r.gate.placeable
    ensures e.Enter? ==> r.gate.placeable == (if e.floor && g.selected then true else g.placeable)
    ensures e.Exit? ==> r.gate.placeable == (if e.floor then false else g.placeable)
  {
    match e
    case Interaction(Select) => GateStep(g.(selected := true), false)
    case Interaction(Unselect) =>
      if g.placeable then GateStep(Gate(false, false), true) else GateStep(g.(selected := false), false)
    case Interaction(Other) => GateStep(g, false)
    case Enter(floor) => GateStep(if floor && g.selected then g.(placeable := true) else g, false)
    case Exit(floor) => GateStep(if floor then g.(placeable := false) else g, false)
  }

  /** The gate after a sequence of events. */
  function Run(g: Gate, evs: seq<MarkerEvent>): Gate
    decreases |evs|
  {
    if evs == [] then g else Run(Next(g, evs[0]).gate, evs[1..])
  }

  function Commits(g: Gate, evs: seq<MarkerEvent>): nat
    decreases |evs|
  {
    if evs == [] then 0
    else (if Next(g, evs[0]).commits then 1 else 0) + Commits(Next(g, evs[0]).gate, evs[1..])
  }

  /** Floor contacts made while holding the marker. */
  function Arming(g: Gate, evs: seq<MarkerEvent>): nat
    decreases |evs|
  {
    if evs == [] then 0
    else (if evs[0] == Enter(true) && g.selected then 1 else 0) + Arming(Next(g, evs[0]).gate, evs[1..])
  }

  /** No double commit: every commit is paid for by a floor contact while
      held (or by the marker already being placeable at the start). */
  lemma {:induction false} CommitsNeedFloorContact(g: Gate, evs: seq<MarkerEvent>)
    ensures Commits(g, evs) + (if Run(g, evs).placeable then 1 else 0)
         <= Arming(g, evs) + (if g.placeable then 1 else 0)
    decreases |evs|
  {
    if evs != [] {
      CommitsNeedFloorContact(Next(g, evs[0]).gate, evs[1..]);
    }
  }

  /** Two commits always have a floor contact while held between them. */
  lemma SecondCommitNeedsFloor(g: Gate, between: seq<MarkerEvent>)
    requires !g.placeable
    requires forall i :: 0 <= i < |between| ==> between[i] != Enter(true)
    ensures Commits(g, between) == 0
  {
    ArmingWithoutFloor(g, between);
    CommitsNeedFloorContact(g, between);
  }

  lemma {:induction false} ArmingWithoutFloor(g: Gate, evs: seq<MarkerEvent>)
    requires forall i :: 0 <= i < |evs| ==> evs[i] != Enter(true)
    ensures Arming(g, evs) == 0
    decreases |evs|
  {
    if evs != [] {
      assert evs[0] != Enter(true);
      forall i | 0 <= i < |evs[1..]| ensures evs[1..][i] != Enter(true) {
        assert evs[1..][i] == evs[i + 1];
      }
      ArmingWithoutFloor(Next(g, evs[0]).gate, evs[1..]);
    }
  }

  /** The pose a placement commits: the marker's, dropped to the floor. */
  datatype Placement = Placement(pos: Vec3, yaw: Yaw)

  function SnapToFloor(p: Vec3): (r: Vec3)
    ensures r.y == 0.0 && r.x == p.x && r.z == p.z
  {
    Vec3(p.x, 0.0, p.z)
  }

  class MovableOrigin {
    var selected: bool
    /** Synchronised from the server. */
    var placeable: bool
    /** The marker's transform (its parent's position and yaw). */
    var markerPos: Vec3
    var markerYaw: Yaw

    constructor (markerPos: Vec3, markerYaw: Yaw)
      ensures !selected && !placeable && this.markerPos == markerPos && this.markerYaw == markerYaw
    {
      selected := false;
      placeable := false;
      this.markerPos := markerPos;
      this.markerYaw := markerYaw;
    }

    function State(): Gate reads this { Gate(selected, placeable) }

    /** Server: CmdSetPlaceable. */
    method CmdSetPlaceable(canPlace: bool)
      modifies this`placeable
      ensures placeable == canPlace
    {
      placeable := canPlace;
    }

    /** The marker goes back to the origin with no rotation (the half-second
        delay before it does is not modelled). */
    method ResetMarker()
      modifies this`markerPos, this`markerYaw
      ensures markerPos == Zero && markerYaw == NoYaw
    {
      markerPos := Zero;
      markerYaw := NoYaw;
    }

    /** Server: broadcast the re-root, reset the marker, and clear the
        placeable flag so the same placement cannot fire twice. */
    method CmdCommitPlacement(p: Placement) returns (rpc: Placement)
      modifies this`markerPos, this`markerYaw, this`placeable
      ensures rpc == p && !placeable && markerPos == Zero && markerYaw == NoYaw
    {
      rpc := p;
      ResetMarker();
      placeable := false;
    }

    /** Client: re-root on a committed placement and reset the marker, but
        only where an alignment manager exists. */
    method RpcReRootPlayers(p: Placement, am: Alignment.AlignmentManager?)
      modifies this`markerPos, this`markerYaw, {am}`rig
      ensures am == null ==> markerPos == old(markerPos) && markerYaw == old(markerYaw)
      ensures am != null ==>
        markerPos == Zero && markerYaw == NoYaw
        && (am.hasRig ==> am.rig == Alignment.ReRooted(old(am.rig), p.pos, p.yaw))
        && (!am.hasRig ==> am.rig == old(am.rig))
    {
      if am != null {
        am.OffsetPlayerToMap(p.pos, p.yaw);
        ResetMarker();
      }
    }

    /** Select holds the marker; Unselect lets go and, if the marker is
        placeable, snaps it to the floor and commits it. */
    method OnPointerEvent(evt: PointerEvent) returns (broadcast: Option<Placement>)
      modifies this`selected, this`placeable, this`markerPos, this`markerYaw
      ensures State() == Next(old(State()), Interaction(evt)).gate
      ensures broadcast.Some? <==> Next(old(State()), Interaction(evt)).commits
      ensures broadcast.Some? ==> broadcast.value == Placement(SnapToFloor(old(markerPos)), old(markerYaw))
      ensures broadcast.Some? ==> markerPos == Zero && markerYaw == NoYaw
      ensures broadcast.None? ==> markerPos == old(markerPos) && markerYaw == old(markerYaw)
    {
      broadcast := None;
      if evt == Select {
        selected := true;
      } else if evt == Unselect {
        selected := false;
        if placeable {
          markerPos := Vec3(markerPos.x, 0.0, markerPos.z);
          var rpc := CmdCommitPlacement(Placement(markerPos, markerYaw));
          broadcast := Some(rpc);
        }
      }
    }

    /** A Floor collider entering while the marker is held makes it placeable. */
    method OnTriggerEnter(floor: bool)
      modifies this`placeable
      ensures State() == Next(old(State()), Enter(floor)).gate
    {
      if floor && selected {
        CmdSetPlaceable(true);
      }
    }

    /** A Floor collider leaving makes it not placeable, held or not. */
    method OnTriggerExit(floor: bool)
      modifies this`placeable
      ensures State() == Next(old(State()), Exit(floor)).gate
    {
      if floor {
        CmdSetPlaceable(false);
      }
    }
  }
}
