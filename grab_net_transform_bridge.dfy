/** The local side of a grabbed object (GrabNetTransformBridge): interaction
    events become grab/release requests, every transformer tick moves the
    object locally and queues its pose, and the queued pose is sent to the
    server at most once per sync interval while the object is held. */
module GrabBridge {
  import opened Basics
  import opened Geometry
  import opened SyncQueue
  import GrabNet

  datatype PointerEvent = Select | Unselect | Other

  class GrabNetTransformBridge {
    var isGrabbed: bool
    var syncTimer: real
    var hasQueuedUpdate: bool
    var queued: Pose
    const syncInt: real
    /** The controller found on a parent, or null. */
    const controller: GrabNet.GrabNetController?

    constructor (syncInt: real, controller: GrabNet.GrabNetController?)
      ensures !isGrabbed && syncTimer == 0.0 && !hasQueuedUpdate
      ensures this.syncInt == syncInt && this.controller == controller
    {
      this.syncInt := syncInt;
      this.controller := controller;
      isGrabbed := false;
      syncTimer := 0.0;
      hasQueuedUpdate := false;
      queued := Pose(Zero, IdentityRotation);
    }

    /** The send queue as the shared throttling model sees it. */
    function Pending(): Queue<Pose> reads this {
      Queue(syncTimer, hasQueuedUpdate, queued)
    }

    /** Select grabs and Unselect releases, each through a server command
        carrying this client's identity; other events change nothing. */
    method OnPointerEvent(evt: PointerEvent) returns (request: Option<GrabNet.Request>)
      requires controller != null
      modifies this`isGrabbed
      ensures evt == Select ==> isGrabbed && request == Some(GrabNet.GrabBy(controller.localIdentity))
      ensures evt == Unselect ==> !isGrabbed && request == Some(GrabNet.ReleaseBy(controller.localIdentity))
      ensures evt == Other ==> isGrabbed == old(isGrabbed) && request == None
    {
      if evt == Select {
        isGrabbed := true;
        request := Some(GrabNet.GrabBy(controller.localIdentity));
      } else if evt == Unselect {
        isGrabbed := false;
        request := Some(GrabNet.ReleaseBy(controller.localIdentity));
      } else {
        request := None;
      }
    }

    /** A grab forced by the menu, without an interaction event. */
    method RequestForceGrab() returns (request: GrabNet.Request)
      requires controller != null
      modifies this`isGrabbed
      ensures isGrabbed && request == GrabNet.GrabBy(controller.localIdentity)
    {
      isGrabbed := true;
      request := GrabNet.GrabBy(controller.localIdentity);
    }

    /** A transformer tick: while held, the pose replaces the queued one and
        the object is moved locally at once (if this client is the grabber). */
    method UpdateTransformFromTransformer(pos: Vec3, rot: Rotation)
      requires controller != null
      modifies this`hasQueuedUpdate, this`queued, controller`position, controller`rotation
      ensures !isGrabbed ==>
        Pending() == old(Pending())
        && controller.position == old(controller.position) && controller.rotation == old(controller.rotation)
      ensures isGrabbed ==> Pending() == Offer(old(Pending()), Pose(pos, rot))
      ensures isGrabbed && controller.IAmGrabber() ==>
        controller.position == pos && controller.rotation == Normalize(rot)
      ensures isGrabbed && !controller.IAmGrabber() ==>
        controller.position == old(controller.position) && controller.rotation == old(controller.rotation)
    {
      if !isGrabbed {
        return;
      }
      queued := Pose(pos, rot);
      hasQueuedUpdate := true;
      controller.ClientUpdateTransform(pos, rot);
    }

    /** One frame: the queue is pumped only while the object is held, a pose
        is queued and a controller exists; a pumped pose is sent to the
        server as a sync-transform command. */
    method Update(dt: real) returns (sent: Option<Pose>)
      modifies this`syncTimer, this`hasQueuedUpdate
      ensures !isGrabbed || !old(hasQueuedUpdate) || controller == null ==>
        Pending() == old(Pending()) && sent == None
      ensures isGrabbed && controller != null ==>
        Pending() == Pump(old(Pending()), dt, syncInt).queue && sent == Pump(old(Pending()), dt, syncInt).sent
    {
      if !isGrabbed || !hasQueuedUpdate || controller == null {
        return None;
      }
      syncTimer := syncTimer + dt;
      sent := None;
      if syncTimer >= syncInt {
        syncTimer := 0.0;
        sent := Some(queued);
        hasQueuedUpdate := false;
      }
    }
  }
}
