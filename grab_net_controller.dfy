/** Server-authoritative grabbing of a shared object (GrabNetController).

    The server keeps, per object, whether it is grabbed and by whom; a grab
    request always wins (the last writer becomes the grabber), a release is
    accepted only from the current grabber, and physics is switched to
    kinematic on a free→grabbed transition of a non-vehicle object. Pose
    updates are forwarded only from the grabber; every other peer keeps one
    start→target interpolation segment. */
module GrabNet {
  import opened Basics
  import opened Geometry
  import opened Interpolation

  /** The rigid body's simulation switches and velocities. */
  datatype Body = Body(isKinematic: bool, useGravity: bool, linearVelocity: Vec3, angularVelocity: Vec3)

  /** Messages the server broadcasts to every client. */
  datatype Rpc =
    | OnGrabbed(newGrabber: Option<Identity>)
    | OnReleased
    | SetKinematic(on: bool)
    | SyncTransform(pos: Vec3, rot: Rotation)

  /** The server's view of one object: the two synchronised variables and its body. */
  datatype Authority = Authority(isGrabbed: bool, grabber: Option<Identity>, body: Body)

  datatype Outcome = Outcome(state: Authority, rpcs: seq<Rpc>)

  /** SetKinematicState / RpcSetKinematic applied to a body. */
  function ApplyKinematic(b: Body, on: bool): (r: Body)
    ensures r.isKinematic == on && r.useGravity == !r.isKinematic
    ensures on ==> r.linearVelocity == Zero && r.angularVelocity == Zero
    ensures !on ==> r.linearVelocity == b.linearVelocity && r.angularVelocity == b.angularVelocity
  {
    if on then Body(true, false, Zero, Zero) else b.(isKinematic := false, useGravity := true)
  }

  /** CmdTryGrab on the server. */
  function Grab(a: Authority, requester: Option<Identity>, isVehicle: bool): (o: Outcome)
    ensures o.state.isGrabbed && o.state.grabber == requester
    ensures |o.rpcs| >= 1 && o.rpcs[0] == OnGrabbed(requester)
  {
    if !a.isGrabbed then
      if !isVehicle then
        Outcome(Authority(true, requester, ApplyKinematic(a.body, true)), [OnGrabbed(requester), SetKinematic(true)])
      else
        Outcome(Authority(true, requester, a.body), [OnGrabbed(requester)])
    else
      Outcome(Authority(true, requester, a.body), [OnGrabbed(requester)])
  }

  predicate ReleaseAccepted(a: Authority, requester: Option<Identity>) {
    a.isGrabbed && a.grabber == requester
  }

  /** CmdTryRelease on the server. */
  function Release(a: Authority, requester: Option<Identity>, isVehicle: bool): (o: Outcome)
    ensures ReleaseAccepted(a, requester) ==> !o.state.isGrabbed && o.state.grabber == None
    ensures !ReleaseAccepted(a, requester) ==> o == Outcome(a, [])
  {
    if ReleaseAccepted(a, requester) then
      if !isVehicle then
        Outcome(Authority(false, None, ApplyKinematic(a.body, false)), [OnReleased, SetKinematic(false)])
      else
        Outcome(Authority(false, None, a.body), [OnReleased])
    else
      Outcome(a, [])
  }

  /** CmdSyncTransform on the server: the broadcast it makes, if any.
      `sender` is None when the command has no sending connection and
      Some(identity) otherwise (the identity itself may be null). */
  function Forward(a: Authority, pos: Vec3, rot: Rotation, sender: Option<Option<Identity>>): (r: Option<Rpc>)
    ensures r.Some? <==> a.isGrabbed && sender == Some(a.grabber)
    ensures r.Some? ==>
      r.value.SyncTransform? && r.value.pos == pos && r.value.rot == Normalize(rot) && IsUnit(r.value.rot)
  {
    if a.isGrabbed && sender.Some? && sender.value == a.grabber then Some(SyncTransform(pos, Normalize(rot)))
    else None
  }

  // ---------------------------------------------------------------------
  // Properties of the ownership state machine
  // ---------------------------------------------------------------------

  /** A release changes the server state exactly when it comes from the
      current grabber; every other release is a no-op. */
  lemma ReleaseChangesIffGrabber(a: Authority, requester: Option<Identity>, isVehicle: bool)
    ensures Release(a, requester, isVehicle).state != a <==> ReleaseAccepted(a, requester)
  {
  }

  /** A grab only touches physics on a free→grabbed transition of a
      non-vehicle object; a re-grab leaves the body as it was. */
  lemma GrabTouchesPhysicsOnlyWhenFree(a: Authority, requester: Option<Identity>, isVehicle: bool)
    ensures Grab(a, requester, isVehicle).state.body != a.body ==> !a.isGrabbed && !isVehicle
    ensures !a.isGrabbed && !isVehicle ==> Grab(a, requester, isVehicle).state.body.isKinematic
  {
  }

  datatype Request = GrabBy(who: Option<Identity>) | ReleaseBy(who: Option<Identity>)

  function Step(a: Authority, r: Request, isVehicle: bool): Authority {
    match r
    case GrabBy(p) => Grab(a, p, isVehicle).state
    case ReleaseBy(p) => Release(a, p, isVehicle).state
  }

  /** The server state after handling a sequence of requests in order. */
  function Serve(a: Authority, reqs: seq<Request>, isVehicle: bool): Authority
    decreases |reqs|
  {
    if reqs == [] then a else Serve(Step(a, reqs[0], isVehicle), reqs[1..], isVehicle)
  }

  /** Last writer wins: after a grab by p, p stays the grabber through any
      number of releases attempted by other peers. */
  lemma {:induction false} LastWriterWins(a: Authority, p: Option<Identity>, later: seq<Request>, isVehicle: bool)
    requires forall r :: r in later ==> r.ReleaseBy? && r.who != p
    ensures var s := Serve(a, [GrabBy(p)] + later, isVehicle); s.isGrabbed && s.grabber == p
  {
    var g := Grab(a, p, isVehicle).state;
    assert ([GrabBy(p)] + later)[1..] == later;
    ImpostorsCannotRelease(g, later, isVehicle);
  }

  lemma {:induction false} ImpostorsCannotRelease(a: Authority, reqs: seq<Request>, isVehicle: bool)
    requires a.isGrabbed
    requires forall r :: r in reqs ==> r.ReleaseBy? && r.who != a.grabber
    ensures Serve(a, reqs, isVehicle) == a
    decreases |reqs|
  {
    if reqs != [] {
      assert reqs[0] in reqs;
      assert Step(a, reqs[0], isVehicle) == a;
      forall r | r in reqs[1..] ensures r.ReleaseBy? && r.who != a.grabber {
        assert r in reqs;
      }
      ImpostorsCannotRelease(a, reqs[1..], isVehicle);
    }
  }

  /** On a non-vehicle object the body is kinematic (and gravity off) exactly
      while the object is grabbed. */
  predicate PhysicsMatchesGrab(a: Authority) {
    a.body.isKinematic == a.isGrabbed && a.body.useGravity == !a.body.isKinematic
  }

  lemma {:induction false} PhysicsFollowsGrab(a: Authority, reqs: seq<Request>)
    requires PhysicsMatchesGrab(a)
    ensures PhysicsMatchesGrab(Serve(a, reqs, false))
    decreases |reqs|
  {
    if reqs != [] {
      var b := Step(a, reqs[0], false);
      assert PhysicsMatchesGrab(b);
      PhysicsFollowsGrab(b, reqs[1..]);
    }
  }

  /** A vehicle's body is never touched by grabbing or releasing. */
  lemma {:induction false} VehicleBodyUntouched(a: Authority, reqs: seq<Request>)
    ensures Serve(a, reqs, true).body == a.body
    decreases |reqs|
  {
    if reqs != [] {
      VehicleBodyUntouched(Step(a, reqs[0], true), reqs[1..]);
    }
  }

  // ---------------------------------------------------------------------
  // The networked component (one replica per peer)
  // ---------------------------------------------------------------------

  class GrabNetController {
    // synchronised from the server
    var isGrabbed: bool
    var grabber: Option<Identity>
    // the object's rigid body
    var body: Body
    // receiver-side interpolation segment
    var lerpTimer: real
    var startPos: Vec3
    var startRot: Rotation
    var targetPos: Vec3
    var targetRot: Rotation
    // the object's transform
    var position: Vec3
    var rotation: Rotation

    const isVehicle: bool
    const syncInt: real
    /** Whether this peer has a client connection, and that connection's identity. */
    const hasConnection: bool
    const localIdentity: Option<Identity>

    ghost predicate Valid() reads this { syncInt > 0.0 }

    constructor (isVehicle: bool, syncInt: real, hasConnection: bool, localIdentity: Option<Identity>,
                 body: Body, position: Vec3, rotation: Rotation)
      requires syncInt > 0.0
      ensures Valid()
      ensures !this.isGrabbed && this.grabber == None && this.lerpTimer == 0.0
      ensures this.isVehicle == isVehicle && this.syncInt == syncInt
      ensures this.hasConnection == hasConnection && this.localIdentity == localIdentity
      ensures this.body == body && this.position == position && this.rotation == rotation
      ensures startPos == Zero && targetPos == Zero && startRot == ZeroRotation && targetRot == ZeroRotation
      ensures !IsUnit(startRot) && !IsUnit(targetRot)
    {
      this.isVehicle := isVehicle;
      this.syncInt := syncInt;
      this.hasConnection := hasConnection;
      this.localIdentity := localIdentity;
      this.body := body;
      this.position := position;
      this.rotation := rotation;
      isGrabbed := false;
      grabber := None;
      lerpTimer := 0.0;
      startPos, targetPos := Zero, Zero;
      startRot, targetRot := ZeroRotation, ZeroRotation;
    }

    function State(): Authority reads this {
      Authority(isGrabbed, grabber, body)
    }

    /** This client holds the object: it has a connection and its identity
        equals the synced grabber. A connected client whose identity is not
        spawned yet therefore counts as the grabber of a free object. */
    predicate IAmGrabber()
      reads this
      ensures !hasConnection ==> !IAmGrabber()
      ensures IAmGrabber() && grabber.Some? ==> localIdentity == grabber
      ensures hasConnection && localIdentity.None? ==> (IAmGrabber() <==> grabber.None?)
    {
      hasConnection && localIdentity == grabber
    }

    /** Server: SetKinematicState, which also tells every client to do the same. */
    method SetKinematicState(on: bool) returns (rpc: Rpc)
      modifies this`body
      ensures body == ApplyKinematic(old(body), on) && rpc == SetKinematic(on)
    {
      if on {
        body := body.(linearVelocity := Zero, angularVelocity := Zero);
      }
      body := body.(isKinematic := on, useGravity := !on);
      rpc := SetKinematic(on);
    }

    /** Server: a grab request, honoured even when someone else holds the object. */
    method CmdTryGrab(requester: Option<Identity>) returns (rpcs: seq<Rpc>)
      modifies this`isGrabbed, this`grabber, this`body
      ensures State() == Grab(old(State()), requester, isVehicle).state
      ensures rpcs == Grab(old(State()), requester, isVehicle).rpcs
    {
      if !isGrabbed {
        isGrabbed := true;
        grabber := requester;
        rpcs := [OnGrabbed(requester)];
        if !isVehicle {
          var k := SetKinematicState(true);
          rpcs := rpcs + [k];
        }
      } else {
        isGrabbed := true;
        grabber := requester;
        rpcs := [OnGrabbed(requester)];
      }
    }

    /** Server: a release request, accepted only from the current grabber. */
    method CmdTryRelease(requester: Option<Identity>) returns (rpcs: seq<Rpc>)
      modifies this`isGrabbed, this`grabber, this`body
      ensures State() == Release(old(State()), requester, isVehicle).state
      ensures rpcs == Release(old(State()), requester, isVehicle).rpcs
    {
      rpcs := [];
      if isGrabbed && grabber == requester {
        isGrabbed := false;
        grabber := None;
        rpcs := [OnReleased];
        if !isVehicle {
          var k := SetKinematicState(false);
          rpcs := rpcs + [k];
        }
      }
    }

    /** Server: a pose from a client is rebroadcast, normalised, only if that
        client is the grabber of a grabbed object. */
    method CmdSyncTransform(pos: Vec3, rot: Rotation, sender: Option<Option<Identity>>) returns (rpc: Option<Rpc>)
      ensures rpc == Forward(State(), pos, rot, sender)
      ensures rpc.Some? ==> IsUnit(rpc.value.rot)
    {
      if isGrabbed && sender.Some? && sender.value == grabber {
        rpc := Some(SyncTransform(pos, Normalize(rot)));
      } else {
        rpc := None;
      }
    }

    /** Client: RpcSetKinematic. */
    method RpcSetKinematic(on: bool)
      modifies this`body
      ensures body == ApplyKinematic(old(body), on)
    {
      if on {
        body := body.(linearVelocity := Zero, angularVelocity := Zero);
      }
      body := body.(isKinematic := on, useGravity := !on);
    }

    /** Client: a rebroadcast pose starts a new segment from wherever the
        object is now; the grabber and an ungrabbed object ignore it. */
    method RpcSyncTransform(pos: Vec3, rot: Rotation)
      modifies this`startPos, this`startRot, this`targetPos, this`targetRot, this`lerpTimer
      ensures IAmGrabber() || !isGrabbed ==>
        startPos == old(startPos) && startRot == old(startRot) && targetPos == old(targetPos)
        && targetRot == old(targetRot) && lerpTimer == old(lerpTimer)
      ensures !IAmGrabber() && isGrabbed ==>
        startPos == position && startRot == rotation && targetPos == pos
        && targetRot == Normalize(rot) && lerpTimer == 0.0
    {
      if IAmGrabber() {
        return;
      }
      if !isGrabbed {
        return;
      }
      startPos := position;
      startRot := rotation;
      targetPos := pos;
      targetRot := Normalize(rot);
      lerpTimer := 0.0;
    }

    /** Client, each frame: non-grabbers of a grabbed object advance along the
        segment; nothing moves otherwise. */
    method Update(dt: real)
      requires Valid()
      modifies this`lerpTimer, this`position, this`rotation
      ensures !isGrabbed || IAmGrabber() ==>
        lerpTimer == old(lerpTimer) && position == old(position) && rotation == old(rotation)
      ensures isGrabbed && !IAmGrabber() ==>
        lerpTimer == old(lerpTimer) + dt
        && position == LerpVec(startPos, targetPos, Factor(lerpTimer, syncInt))
        && rotation == Slerp(startRot, targetRot, Factor(lerpTimer, syncInt))
      ensures isGrabbed && !IAmGrabber() && lerpTimer >= syncInt ==>
        position == targetPos && rotation == targetRot
    {
      if !isGrabbed || IAmGrabber() {
        return;
      }
      lerpTimer := lerpTimer + dt;
      var t := Clamp01(lerpTimer / syncInt);
      position := LerpVec(startPos, targetPos, t);
      rotation := Slerp(startRot, targetRot, t);
      if lerpTimer >= syncInt {
        SegmentCompletes(startPos, targetPos, startRot, targetRot, lerpTimer, syncInt);
      }
    }

    /** Client: the grabber writes its own transform directly. */
    method ClientUpdateTransform(pos: Vec3, rot: Rotation)
      modifies this`position, this`rotation
      ensures IAmGrabber() ==> position == pos && rotation == Normalize(rot)
      ensures !IAmGrabber() ==> position == old(position) && rotation == old(rotation)
    {
      if !IAmGrabber() {
        return;
      }
      position := pos;
      rotation := Normalize(rot);
    }
  }
}
