/** Client-authoritative steering-wheel sync (SteeringNetController): the
    owning client sends its pose, the server relays it to every client, and
    non-owners interpolate towards the latest pose they received. */
module SteeringNet {
  import opened Basics
  import opened Geometry
  import opened Interpolation

  class SteeringNetController {
    var lerpTimer: real
    var startPos: Vec3
    var startRot: Rotation
    var targetPos: Vec3
    var targetRot: Rotation
    // the wheel's transform
    var position: Vec3
    var rotation: Rotation

    const syncInt: real
    /** Whether this client has authority over the wheel. */
    const isOwned: bool

    ghost predicate Valid() reads this { syncInt > 0.0 }

    constructor (syncInt: real, isOwned: bool, position: Vec3, rotation: Rotation)
      requires syncInt > 0.0
      ensures Valid() && this.isOwned == isOwned && lerpTimer == 0.0
      ensures this.position == position && this.rotation == rotation
      ensures startPos == Zero && targetPos == Zero && startRot == ZeroRotation && targetRot == ZeroRotation
      ensures !IsUnit(startRot) && !IsUnit(targetRot)
    {
      this.syncInt := syncInt;
      this.isOwned := isOwned;
      this.position := position;
      this.rotation := rotation;
      lerpTimer := 0.0;
      startPos, targetPos := Zero, Zero;
      startRot, targetRot := ZeroRotation, ZeroRotation;
    }

    /** Only the owner sends; the command carries the pose unchanged. */
    method ClientUpdateTransform(pos: Vec3, rot: Rotation) returns (cmd: Option<Pose>)
      ensures cmd.Some? <==> isOwned
      ensures cmd.Some? ==> cmd.value == Pose(pos, rot)
    {
      if !isOwned {
        return None;
      }
      cmd := Some(Pose(pos, rot));
    }

    /** A relayed pose starts a new segment on non-owners; the rotation is
        taken as received, without normalising. */
    method RpcApplyTransform(pos: Vec3, rot: Rotation)
      modifies this`startPos, this`startRot, this`targetPos, this`targetRot, this`lerpTimer
      ensures isOwned ==>
        startPos == old(startPos) && startRot == old(startRot) && targetPos == old(targetPos)
        && targetRot == old(targetRot) && lerpTimer == old(lerpTimer)
      ensures !isOwned ==>
        startPos == position && startRot == rotation && targetPos == pos && targetRot == rot
        && lerpTimer == 0.0
    {
      if isOwned {
        return;
      }
      startPos := position;
      startRot := rotation;
      targetPos := pos;
      targetRot := rot;
      lerpTimer := 0.0;
    }

    /** One frame on a non-owner: advance along the segment, landing exactly
        on the target once a whole interval has passed. */
    method Update(dt: real)
      requires Valid()
      modifies this`lerpTimer, this`position, this`rotation
      ensures isOwned ==>
        lerpTimer == old(lerpTimer) && position == old(position) && rotation == old(rotation)
      ensures !isOwned ==>
        lerpTimer == old(lerpTimer) + dt
        && position == LerpVec(startPos, targetPos, Factor(lerpTimer, syncInt))
        && rotation == Slerp(startRot, targetRot, Factor(lerpTimer, syncInt))
      ensures !isOwned && lerpTimer >= syncInt ==> position == targetPos && rotation == targetRot
    {
      if isOwned {
        return;
      }
      lerpTimer := lerpTimer + dt;
      var t := Clamp01(lerpTimer / syncInt);
      position := LerpVec(startPos, targetPos, t);
      rotation := Slerp(startRot, targetRot, t);
      if lerpTimer >= syncInt {
        SegmentCompletes(startPos, targetPos, startRot, targetRot, lerpTimer, syncInt);
      }
    }
  }
}
