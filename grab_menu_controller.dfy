/** The spawn menu (GrabMenuController). On the client, a menu request
    becomes a command to the server; car requests pass only while the spawn
    gate is open, and every request closes it. On the server, a command
    looks the prefab up by name, spawns it, and answers the requesting
    client with the new object's net id; a car command first destroys the
    previously active car, so at most one menu car is alive at a time.

    The same component exists on every peer: `canSpawn` is the requesting
    client's state, `objects`, `activeCar` and `drivers` the server's.
    Mirror's spawning is reduced to a registry of live objects keyed by net
    id, with ids handed out in increasing order. */
module GrabMenu {
  import opened Basics
  import opened Geometry

  /** A registered spawnable prefab: its name, and whether it carries a
      vehicle controller. */
  datatype Prefab = Prefab(name: string, hasVehicleController: bool)

  /** A live networked object: which prefab it was made from, and where. */
  datatype Spawned = Spawned(prefab: nat, pose: Pose)

  /** The command a client request sends to the server. */
  datatype SpawnRequest = SpawnRequest(prefabName: string, pose: Pose)

  /** The registered prefab `name` names: the first one with that name. */
  function FindPrefab(prefabs: seq<Prefab>, name: string): (r: Option<nat>)
    ensures r.Some? ==> r.value < |prefabs| && prefabs[r.value].name == name
    ensures r.Some? ==> forall j :: 0 <= j < r.value ==> prefabs[j].name != name
    ensures r.None? <==> forall j :: 0 <= j < |prefabs| ==> prefabs[j].name != name
  {
    FirstIndex(prefabs, (p: Prefab) => p.name == name)
  }

  /** The target RPC on the requesting client: the net id is looked up
      among the objects spawned on that client, and the assignment event
      fires only for an id it knows. Both replies (object and car) behave
      this way. */
  function Receive(clientSpawned: set<nat>, netId: nat): (delivered: Option<nat>)
    ensures delivered.Some? <==> netId in clientSpawned
    ensures delivered.Some? ==> delivered.value == netId
  {
    if netId in clientSpawned then Some(netId) else None
  }

  // ---------------------------------------------------------------------
  // The client's spawn gate, as a trace
  // ---------------------------------------------------------------------

  datatype MenuEvent = SetGate(value: bool) | ObjectRequest | CarRequest

  /** The gate after one event, and whether a car request was sent. */
  datatype GateStep = GateStep(canSpawn: bool, carRequested: bool)

  function Gate(canSpawn: bool, e: MenuEvent): (r: GateStep)
    ensures r.carRequested <==> e.CarRequest? && canSpawn
    ensures e.SetGate? ==> r.canSpawn == e.value
    ensures e.ObjectRequest? ==> !r.canSpawn
    ensures e.CarRequest? ==> !r.canSpawn
  {
    match e
    case SetGate(v) => GateStep(v, false)
    case ObjectRequest => GateStep(false, false)
    case CarRequest => GateStep(false, canSpawn)
  }

  /** How many car requests a sequence of menu events sends. */
  function CarRequests(canSpawn: bool, evs: seq<MenuEvent>): nat
    decreases |evs|
  {
    if evs == [] then 0
    else
      var r := Gate(canSpawn, evs[0]);
      (if r.carRequested then 1 else 0) + CarRequests(r.canSpawn, evs[1..])
  }

  /** How many times a sequence of menu events opens the gate. */
  function Openings(evs: seq<MenuEvent>): nat
    decreases |evs|
  {
    if evs == [] then 0
    else (if evs[0] == SetGate(true) then 1 else 0) + Openings(evs[1..])
  }

  /** Each car request uses up one opening of the gate: a client sends at
      most one car request per time the gate is opened, plus one if it
      starts open. */
  lemma {:induction false} CarRequestsNeedOpenings(canSpawn: bool, evs: seq<MenuEvent>)
    ensures CarRequests(canSpawn, evs) <= (if canSpawn then 1 else 0) + Openings(evs)
    decreases |evs|
  {
    if evs != [] {
      var r := Gate(canSpawn, evs[0]);
      CarRequestsNeedOpenings(r.canSpawn, evs[1..]);
    }
  }

  /** With the gate closed and never opened again, no car is requested,
      however many requests the menu makes. */
  lemma {:induction false} ClosedGateSendsNoCar(evs: seq<MenuEvent>)
    requires forall i :: 0 <= i < |evs| ==> evs[i] != SetGate(true)
    ensures CarRequests(false, evs) == 0
    decreases |evs|
  {
    if evs != [] {
      var r := Gate(false, evs[0]);
      assert !r.canSpawn;
      ClosedGateSendsNoCar(evs[1..]);
    }
  }

  class GrabMenuController {
    /** _canSpawn (client). */
    var canSpawn: bool
    /** _activeCar (server): the net id of the active car. */
    var activeCar: Option<nat>
    /** The server's live objects by net id. */
    var objects: map<nat, Spawned>
    /** The next net id the server hands out. */
    var nextNetId: nat
    /** The driver each spawned car's vehicle controller was given. */
    var drivers: map<nat, Option<Identity>>
    /** Every car a car command has spawned. */
    ghost var cars: set<nat>

    /** Live ids are positive and already handed out; the active car is a
        live car; no other car spawned by this menu is still alive. */
    ghost predicate Valid()
      reads this
    {
      0 < nextNetId
      && (forall id :: id in objects ==> 0 < id < nextNetId)
      && (forall c :: c in cars ==> c < nextNetId)
      && (activeCar.Some? ==> activeCar.value in objects && activeCar.value in cars)
      && (forall c :: c in cars && c in objects ==> activeCar == Some(c))
    }

    constructor ()
      ensures Valid()
      ensures canSpawn && activeCar.None? && objects == map[] && drivers == map[] && cars == {}
    {
      canSpawn := true;
      activeCar := None;
      objects := map[];
      nextNetId := 1;
      drivers := map[];
      cars := {};
    }

    /** The CanSpawn setter. */
    method SetCanSpawn(value: bool)
      modifies this`canSpawn
      ensures canSpawn == Gate(old(canSpawn), SetGate(value)).canSpawn
    {
      canSpawn := value;
    }

    /** An object request is always sent, and closes the gate. */
    method RequestSpawnObject(prefabName: string, pose: Pose) returns (request: SpawnRequest)
      modifies this`canSpawn
      ensures request == SpawnRequest(prefabName, pose)
      ensures GateStep(canSpawn, false) == Gate(old(canSpawn), ObjectRequest)
    {
      request := SpawnRequest(prefabName, pose);
      canSpawn := false;
    }

    /** A car request is sent only through an open gate, and closes it. */
    method RequestSpawnCar(prefabName: string, pose: Pose) returns (request: Option<SpawnRequest>)
      modifies this`canSpawn
      ensures request.Some? ==> request.value == SpawnRequest(prefabName, pose)
      ensures GateStep(canSpawn, request.Some?) == Gate(old(canSpawn), CarRequest)
    {
      request := None;
      if canSpawn {
        request := Some(SpawnRequest(prefabName, pose));
        canSpawn := false;
      }
    }

    /** Spawn the named prefab on the server and reply with its net id; an
        unregistered name spawns nothing. The active car is not touched. */
    method CmdSpawnObject(prefabs: seq<Prefab>, prefabName: string, pose: Pose) returns (reply: Option<nat>)
      requires Valid()
      modifies this`objects, this`nextNetId
      ensures Valid()
      ensures reply.Some? <==> FindPrefab(prefabs, prefabName).Some?
      ensures reply.None? ==> objects == old(objects) && nextNetId == old(nextNetId)
      ensures reply.Some? ==>
        reply.value !in old(objects)
        && objects == old(objects)[reply.value := Spawned(FindPrefab(prefabs, prefabName).value, pose)]
    {
      var prefab := FindPrefab(prefabs, prefabName);
      if prefab.None? {
        return None;
      }
      var netId := nextNetId;
      nextNetId := nextNetId + 1;
      objects := objects[netId := Spawned(prefab.value, pose)];
      reply := Some(netId);
    }

    /** Replace the active car: the previous one is destroyed first, even
        when the name is not registered; otherwise the new car is spawned,
        given the sender as driver when it has a vehicle controller, made
        the active car, and its net id sent back. */
    method CmdSetActiveCar(prefabs: seq<Prefab>, prefabName: string, pose: Pose, sender: Option<Identity>)
      returns (reply: Option<nat>)
      requires Valid()
      modifies this`activeCar, this`objects, this`nextNetId, this`drivers, this`cars
      ensures Valid()
      ensures old(activeCar).Some? ==> old(activeCar).value !in objects
      ensures var survivors := if old(activeCar).Some? then old(objects) - {old(activeCar).value} else old(objects);
        && (reply.Some? <==> FindPrefab(prefabs, prefabName).Some?)
        && (reply.None? ==> activeCar.None? && objects == survivors && drivers == old(drivers))
        && (reply.Some? ==>
              var prefab := FindPrefab(prefabs, prefabName).value;
              reply.value !in old(objects) && activeCar == reply
              && objects == survivors[reply.value := Spawned(prefab, pose)]
              && drivers == (if prefabs[prefab].hasVehicleController
                             then old(drivers)[reply.value := sender] else old(drivers)))
    {
      if activeCar.Some? {
        objects := objects - {activeCar.value};
        activeCar := None;
      }
      var prefab := FindPrefab(prefabs, prefabName);
      if prefab.None? {
        return None;
      }
      var car := nextNetId;
      nextNetId := nextNetId + 1;
      objects := objects[car := Spawned(prefab.value, pose)];
      cars := cars + {car};
      if prefabs[prefab.value].hasVehicleController {
        drivers := drivers[car := sender];
      }
      activeCar := Some(car);
      reply := Some(car);
    }

    /** At most one car spawned through this menu is alive. */
    lemma AtMostOneLiveCar()
      requires Valid()
      ensures |cars * objects.Keys| <= 1
    {
      var live := cars * objects.Keys;
      if activeCar.Some? {
        assert live <= {activeCar.value};
        SubsetCardinality(live, {activeCar.value});
      } else {
        assert live == {};
      }
    }
  }

  /** Helper of AtMostOneLiveCar: a subset is no larger than its superset. */
  lemma {:induction false} SubsetCardinality(a: set<nat>, b: set<nat>)
    requires a <= b
    ensures |a| <= |b|
  {
    assert b == a + (b - a);
  }
}
