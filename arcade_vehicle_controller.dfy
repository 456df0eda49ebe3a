/** The networked part of the arcade car (ArcadeVehicleController): one
    client is the driver and simulates the car, queuing its pose every
    physics step and sending it once per sync interval; every other client
    interpolates both the driver's inputs and its pose; while the car is
    grabbed it is frozen with the brake on. The driving physics itself
    (forces, ground checks, visuals and audio) is not part of this model. */
module Vehicle {
  import opened Basics
  import opened Geometry
  import opened Interpolation
  import opened SyncQueue
  import GrabNet

  /** Steering, throttle and brake. */
  datatype Inputs = Inputs(steering: real, throttle: real, brake: real)

  const Parked: Inputs := Inputs(0.0, 0.0, 1.0)

  function LerpInputs(a: Inputs, b: Inputs, t: real): Inputs {
    Inputs(Lerp(a.steering, b.steering, t), Lerp(a.throttle, b.throttle, t), Lerp(a.brake, b.brake, t))
  }

  /** Every interpolated input lies between its start and its target. */
  lemma LerpInputsBetween(a: Inputs, b: Inputs, t: real)
    ensures var r := LerpInputs(a, b, t);
      Min(a.steering, b.steering) <= r.steering <= Max(a.steering, b.steering)
      && Min(a.throttle, b.throttle) <= r.throttle <= Max(a.throttle, b.throttle)
      && Min(a.brake, b.brake) <= r.brake <= Max(a.brake, b.brake)
  {
    LerpBetween(a.steering, b.steering, t);
    LerpBetween(a.throttle, b.throttle, t);
    LerpBetween(a.brake, b.brake, t);
  }

  /** What the driver sends: sphere position, body position and rotation,
      and the car's local velocity. */
  datatype CarSync = CarSync(spherePos: Vec3, bodyPos: Vec3, bodyRot: Rotation, vel: Vec3)

  /** The value of pose fields that are never assigned: every vector zero and
      the body rotation the all-zero quaternion. */
  const ZeroSync: CarSync := CarSync(Zero, Zero, ZeroRotation, Zero)

  /** The sphere sits this far below the body while the car is grabbed. */
  const GrabbedSphereOffset: Vec3 := Vec3(0.0, -0.00518389, 0.0)

  /** IAmDriver: no identity or no driver means not the driver; a driver
      whose server id has not arrived yet (0) is optimistically taken to be
      this client; otherwise the identities must be the same. */
  predicate IsDriver(me: Option<Identity>, driver: Option<Identity>)
    ensures IsDriver(me, driver) ==> me.Some? && driver.Some?
    ensures driver.Some? && driver.value.netId != 0 ==> (IsDriver(me, driver) <==> me.Some? && me == driver)
  {
    if me.None? || driver.None? then false
    else if driver.value.netId == 0 then true
    else me == driver
  }

  /** Once the driver's id is synchronised, at most one identity drives. */
  lemma DriverUniqueOnceSynced(a: Option<Identity>, b: Option<Identity>, driver: Option<Identity>)
    requires driver.Some? && driver.value.netId != 0
    ensures IsDriver(a, driver) && IsDriver(b, driver) ==> a == b
    ensures IsDriver(a, driver) <==> a == driver
  {
  }

  /** Before it is synchronised, every client with an identity drives. */
  lemma UnsyncedDriverIsEveryone(me: Option<Identity>, driver: Option<Identity>)
    requires driver.Some? && driver.value.netId == 0
    ensures IsDriver(me, driver) <==> me.Some?
  {
  }

  class ArcadeVehicleController {
    // synchronised from the server
    var driver: Option<Identity>
    // current inputs and their interpolation segment
    var inputs: Inputs
    var inputLerpTimer: real
    var startInputs: Inputs
    var targetInputs: Inputs
    // the sphere (rb) and the car body
    var spherePos: Vec3
    var sphereGravity: bool
    var sphereKinematic: bool
    var bodyPos: Vec3
    var bodyRot: Rotation
    var bodyKinematic: bool
    var refVelocity: Vec3
    // pose interpolation segment
    var transformLerpTimer: real
    var start: CarSync
    var target: CarSync
    // the driver's send queue
    var syncTimer: real
    var hasQueuedUpdate: bool
    var queued: CarSync

    const syncInt: real
    /** This client's identity (None without a connection or identity). */
    const me: Option<Identity>
    /** The grab controller on the same object. */
    const grab: GrabNet.GrabNetController

    ghost predicate Valid() reads this { syncInt > 0.0 }

    constructor (syncInt: real, me: Option<Identity>, grab: GrabNet.GrabNetController,
                 spherePos: Vec3, bodyPos: Vec3, bodyRot: Rotation)
      requires syncInt > 0.0
      ensures Valid() && this.me == me && this.grab == grab && driver == None
      ensures !hasQueuedUpdate && syncTimer == 0.0 && inputs == Inputs(0.0, 0.0, 0.0)
      ensures start == ZeroSync && target == ZeroSync && queued == ZeroSync && transformLerpTimer == 0.0
      ensures !IsUnit(start.bodyRot) && !IsUnit(target.bodyRot)
      ensures this.spherePos == spherePos && this.bodyPos == bodyPos && this.bodyRot == bodyRot
    {
      this.syncInt := syncInt;
      this.me := me;
      this.grab := grab;
      this.spherePos := spherePos;
      this.bodyPos := bodyPos;
      this.bodyRot := bodyRot;
      driver := None;
      inputs := Inputs(0.0, 0.0, 0.0);
      inputLerpTimer := 0.0;
      startInputs, targetInputs := inputs, inputs;
      sphereGravity, sphereKinematic, bodyKinematic := true, false, false;
      refVelocity := Zero;
      transformLerpTimer := 0.0;
      start := ZeroSync;
      target := ZeroSync;
      syncTimer := 0.0;
      hasQueuedUpdate := false;
      queued := start;
    }

    /** This client drives the car: it has an identity, a driver is set,
        and either the driver's id has not arrived yet or it is this client. */
    predicate IAmDriver()
      reads this
      ensures IAmDriver() ==> me.Some? && driver.Some?
      ensures driver.Some? && driver.value.netId != 0 ==> (IAmDriver() <==> me.Some? && me == driver)
      ensures me.Some? && driver.Some? && driver.value.netId == 0 ==> IAmDriver()
    {
      IsDriver(me, driver)
    }

    function Pending(): Queue<CarSync> reads this {
      Queue(syncTimer, hasQueuedUpdate, queued)
    }

    /** Server: the menu makes the spawning client the driver. */
    method ServerSetDriver(id: Option<Identity>)
      modifies this`driver
      ensures driver == id
    {
      driver := id;
    }

    /** Local inputs from the wheel apply at once, but only on the driver. */
    method ClientProvideInputs(s: real, t: real, b: real)
      modifies this`inputs
      ensures IAmDriver() ==> inputs == Inputs(s, t, b)
      ensures !IAmDriver() ==> inputs == old(inputs)
    {
      if !IAmDriver() {
        return;
      }
      inputs := Inputs(s, t, b);
    }

    /** Relayed inputs start a new input segment on every client but the driver. */
    method RpcSyncInputs(s: real, t: real, b: real)
      modifies this`startInputs, this`targetInputs, this`inputLerpTimer
      ensures IAmDriver() ==>
        startInputs == old(startInputs) && targetInputs == old(targetInputs) && inputLerpTimer == old(inputLerpTimer)
      ensures !IAmDriver() ==>
        startInputs == inputs && targetInputs == Inputs(s, t, b) && inputLerpTimer == 0.0
    {
      if IAmDriver() {
        return;
      }
      startInputs := inputs;
      targetInputs := Inputs(s, t, b);
      inputLerpTimer := 0.0;
    }

    /** A relayed pose starts a new pose segment on every client but the
        driver, with its rotation normalised. */
    method RpcSyncTransform(m: CarSync)
      modifies this`start, this`target, this`transformLerpTimer
      ensures IAmDriver() ==>
        start == old(start) && target == old(target) && transformLerpTimer == old(transformLerpTimer)
      ensures !IAmDriver() ==>
        start == CarSync(spherePos, bodyPos, bodyRot, refVelocity)
        && target == m.(bodyRot := Normalize(m.bodyRot)) && IsUnit(target.bodyRot)
        && transformLerpTimer == 0.0
    {
      if IAmDriver() {
        return;
      }
      start := CarSync(spherePos, bodyPos, bodyRot, refVelocity);
      target := m.(bodyRot := Normalize(m.bodyRot));
      transformLerpTimer := 0.0;
    }

    /** One frame. A grabbed car is frozen, parked and follows its body; a
        car driven elsewhere interpolates inputs and pose; the driver's car
        is simply handed back to physics. */
    method Update(dt: real)
      requires Valid()
      modifies this`inputs, this`inputLerpTimer, this`transformLerpTimer, this`spherePos,
        this`sphereGravity, this`sphereKinematic, this`bodyPos, this`bodyRot, this`bodyKinematic,
        this`refVelocity
      ensures grab.isGrabbed ==>
        inputs == Parked && !sphereGravity && sphereKinematic && bodyKinematic
        && spherePos == Add(bodyPos, GrabbedSphereOffset)
        && bodyPos == old(bodyPos) && bodyRot == old(bodyRot)
        && inputLerpTimer == old(inputLerpTimer) && transformLerpTimer == old(transformLerpTimer)
        && refVelocity == old(refVelocity)
      ensures !grab.isGrabbed ==> sphereGravity && !sphereKinematic && !bodyKinematic
      ensures !grab.isGrabbed && IAmDriver() ==>
        inputs == old(inputs) && spherePos == old(spherePos) && bodyPos == old(bodyPos)
        && bodyRot == old(bodyRot) && inputLerpTimer == old(inputLerpTimer)
        && transformLerpTimer == old(transformLerpTimer) && refVelocity == old(refVelocity)
      ensures !grab.isGrabbed && !IAmDriver() ==>
        inputLerpTimer == old(inputLerpTimer) + dt && transformLerpTimer == old(transformLerpTimer) + dt
        && inputs == LerpInputs(startInputs, targetInputs, Factor(inputLerpTimer, syncInt))
        && spherePos == LerpVec(start.spherePos, target.spherePos, Factor(transformLerpTimer, syncInt))
        && bodyPos == LerpVec(start.bodyPos, target.bodyPos, Factor(transformLerpTimer, syncInt))
        && bodyRot == Normalize(Slerp(start.bodyRot, target.bodyRot, Factor(transformLerpTimer, syncInt)))
        && refVelocity == LerpVec(start.vel, target.vel, Factor(transformLerpTimer, syncInt))
    {
      if grab.isGrabbed {
        inputs := Parked;
        sphereGravity := false;
        sphereKinematic := true;
        bodyKinematic := true;
        spherePos := Add(bodyPos, GrabbedSphereOffset);
        return;
      }
      if !IAmDriver() {
        sphereGravity := true;
        sphereKinematic := false;
        bodyKinematic := false;
        inputLerpTimer := inputLerpTimer + dt;
        var i := Clamp01(inputLerpTimer / syncInt);
        transformLerpTimer := transformLerpTimer + dt;
        var t := Clamp01(transformLerpTimer / syncInt);
        inputs := LerpInputs(startInputs, targetInputs, i);
        spherePos := LerpVec(start.spherePos, target.spherePos, t);
        bodyPos := LerpVec(start.bodyPos, target.bodyPos, t);
        bodyRot := Normalize(Slerp(start.bodyRot, target.bodyRot, t));
        refVelocity := LerpVec(start.vel, target.vel, t);
      } else {
        sphereGravity := true;
        sphereKinematic := false;
        bodyKinematic := false;
      }
    }

    /** The send-queue tail of a physics step, after the driving physics has
        produced `carVelocity`: only the driver of an ungrabbed car queues its
        current pose, and the queue is pumped by the fixed time step. */
    method FixedUpdate(fixedDt: real, carVelocity: Vec3) returns (sent: Option<CarSync>)
      modifies this`syncTimer, this`hasQueuedUpdate, this`queued
      ensures grab.isGrabbed || !IAmDriver() ==> Pending() == old(Pending()) && sent == None
      ensures !grab.isGrabbed && IAmDriver() ==>
        var p := Pump(Offer(old(Pending()), CarSync(spherePos, bodyPos, bodyRot, carVelocity)), fixedDt, syncInt);
        Pending() == p.queue && sent == p.sent
    {
      if grab.isGrabbed {
        return None;
      }
      if !IAmDriver() {
        return None;
      }
      queued := CarSync(spherePos, bodyPos, bodyRot, carVelocity);
      hasQueuedUpdate := true;
      sent := None;
      if IAmDriver() && hasQueuedUpdate {
        syncTimer := syncTimer + fixedDt;
        if syncTimer >= syncInt {
          syncTimer := 0.0;
          hasQueuedUpdate := false;
          sent := Some(queued);
        }
      }
    }
  }

  /** After a whole interval without new data a non-driver shows exactly the
      inputs the driver sent. */
  lemma InputsArrive(startInputs: Inputs, targetInputs: Inputs, timer: real, interval: real)
    requires interval > 0.0 && timer >= interval
    ensures LerpInputs(startInputs, targetInputs, Factor(timer, interval)) == targetInputs
  {
    FactorRange(timer, interval);
  }
}
