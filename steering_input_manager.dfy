/** The steering-wheel owner's input channel (SteeringInputManager): inputs
    for the assigned car are applied to the local car at once, queued with a
    derived brake value, and forwarded through the server once per sync
    interval; the server drops inputs for cars it does not know. */
module SteeringInput {
  import opened Basics
  import opened SyncQueue
  import Vehicle

  /** The brake is fully on exactly when both steering and throttle are zero,
      and fully off otherwise. */
  function Brake(steering: real, throttle: real): (b: real)
    ensures b == 1.0 <==> steering == 0.0 && throttle == 0.0
    ensures b == 0.0 <==> !(steering == 0.0 && throttle == 0.0)
  {
    if steering == 0.0 && throttle == 0.0 then 1.0 else 0.0
  }

  /** The command a client sends: the queued inputs and the car's server id. */
  datatype InputCommand = InputCommand(inputs: Vehicle.Inputs, carNetId: nat)

  /** CmdSendInput on the server. `spawned` maps each spawned server id to
      whether that object has a vehicle controller; the inputs are relayed
      to every client only for a spawned object that has one. */
  function ServerForward(cmd: InputCommand, spawned: map<nat, bool>): (r: Option<Vehicle.Inputs>)
    ensures r.Some? <==> cmd.carNetId in spawned && spawned[cmd.carNetId]
    ensures r.Some? ==> r.value == cmd.inputs
  {
    if cmd.carNetId !in spawned then None
    else if !spawned[cmd.carNetId] then None
    else Some(cmd.inputs)
  }

  class SteeringInputManager {
    var controlledCarNetId: nat
    var queued: Vehicle.Inputs
    var hasQueuedUpdate: bool
    var sendTimer: real
    const syncInt: real
    /** Whether this client owns the wheel. */
    const isOwned: bool

    constructor (syncInt: real, isOwned: bool)
      ensures this.syncInt == syncInt && this.isOwned == isOwned
      ensures controlledCarNetId == 0 && !hasQueuedUpdate && sendTimer == 0.0
    {
      this.syncInt := syncInt;
      this.isOwned := isOwned;
      controlledCarNetId := 0;
      queued := Vehicle.Inputs(0.0, 0.0, 0.0);
      hasQueuedUpdate := false;
      sendTimer := 0.0;
    }

    function Pending(): Queue<Vehicle.Inputs> reads this {
      Queue(sendTimer, hasQueuedUpdate, queued)
    }

    method AssignCar(carNetId: nat)
      modifies this`controlledCarNetId
      ensures controlledCarNetId == carNetId
    {
      controlledCarNetId := carNetId;
    }

    /** New inputs from the wheel. `car` is the vehicle controller of the
        controlled car as this client sees it (null when the car is not
        spawned here or has none). */
    method SetInput(steering: real, throttle: real, car: Vehicle.ArcadeVehicleController?)
      modifies this`queued, this`hasQueuedUpdate, {car}`inputs
      ensures !isOwned || controlledCarNetId == 0 ==>
        Pending() == old(Pending()) && (car != null ==> car.inputs == old(car.inputs))
      ensures isOwned && controlledCarNetId != 0 ==>
        Pending() == Offer(old(Pending()), Vehicle.Inputs(steering, throttle, Brake(steering, throttle)))
      ensures isOwned && controlledCarNetId != 0 && car != null && car.IAmDriver() ==> car.inputs == queued
      ensures car != null && (!car.IAmDriver() || !isOwned || controlledCarNetId == 0) ==>
        car.inputs == old(car.inputs)
    {
      if !isOwned || controlledCarNetId == 0 {
        return;
      }
      queued := Vehicle.Inputs(steering, throttle, Brake(steering, throttle));
      hasQueuedUpdate := true;
      if car != null {
        car.ClientProvideInputs(queued.steering, queued.throttle, queued.brake);
      }
    }

    /** One frame: the owner's queue is pumped and a pumped triple goes to
        the server together with the car id. */
    method Update(dt: real) returns (cmd: Option<InputCommand>)
      modifies this`sendTimer, this`hasQueuedUpdate
      ensures !isOwned ==> Pending() == old(Pending()) && cmd == None
      ensures isOwned ==>
        var p := Pump(old(Pending()), dt, syncInt);
        Pending() == p.queue
        && (cmd.Some? <==> p.sent.Some?)
        && (cmd.Some? ==> cmd.value == InputCommand(p.sent.value, controlledCarNetId))
    {
      if !isOwned || !hasQueuedUpdate {
        return None;
      }
      sendTimer := sendTimer + dt;
      if sendTimer < syncInt {
        return None;
      }
      sendTimer := 0.0;
      hasQueuedUpdate := false;
      cmd := Some(InputCommand(queued, controlledCarNetId));
    }
  }
}
