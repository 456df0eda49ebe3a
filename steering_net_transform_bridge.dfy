/** The local side of the steering wheel (SteeringNetTransformBridge): every
    transformer tick queues the wheel's pose, and the queued pose is handed to
    the controller at most once per sync interval. */
module SteeringBridge {
  import opened Basics
  import opened Geometry
  import opened SyncQueue
  import SteeringNet

  class SteeringNetTransformBridge {
    var syncTimer: real
    var hasQueuedUpdate: bool
    var queued: Pose
    const syncInt: real
    /** The controller found on a parent, or null. */
    const netController: SteeringNet.SteeringNetController?

    constructor (syncInt: real, netController: SteeringNet.SteeringNetController?)
      ensures syncTimer == 0.0 && !hasQueuedUpdate
      ensures this.syncInt == syncInt && this.netController == netController
    {
      this.syncInt := syncInt;
      this.netController := netController;
      syncTimer := 0.0;
      hasQueuedUpdate := false;
      queued := Pose(Zero, IdentityRotation);
    }

    function Pending(): Queue<Pose> reads this {
      Queue(syncTimer, hasQueuedUpdate, queued)
    }

    /** Queue the latest pose (nothing happens without a controller). */
    method UpdateTransformFromTransformer(pos: Vec3, rot: Rotation)
      modifies this`hasQueuedUpdate, this`queued
      ensures netController == null ==> Pending() == old(Pending())
      ensures netController != null ==> Pending() == Offer(old(Pending()), Pose(pos, rot))
    {
      if netController == null {
        return;
      }
      queued := Pose(pos, rot);
      hasQueuedUpdate := true;
    }

    /** One frame: pump the queue; a pumped pose goes to the controller,
        which turns it into a command only on the owning client. */
    method Update(dt: real) returns (cmd: Option<Pose>)
      modifies this`syncTimer, this`hasQueuedUpdate
      ensures netController == null || !old(hasQueuedUpdate) ==> Pending() == old(Pending()) && cmd == None
      ensures netController != null ==> Pending() == Pump(old(Pending()), dt, syncInt).queue
      ensures netController != null ==>
        cmd == (if netController.isOwned then Pump(old(Pending()), dt, syncInt).sent else None)
    {
      if netController == null || !hasQueuedUpdate {
        return None;
      }
      syncTimer := syncTimer + dt;
      cmd := None;
      if syncTimer >= syncInt {
        syncTimer := 0.0;
        cmd := netController.ClientUpdateTransform(queued.pos, queued.rot);
        hasQueuedUpdate := false;
      }
    }
  }
}
