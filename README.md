# Mixed-reality colocation: a verified model of the session and sync core

This project models the decision logic of a Unity template for co-located
mixed-reality headsets. Several headsets in one room share one world: a host
advertises a session, shares a spatial anchor, and clients align their camera
rig to that anchor before joining the host over the LAN. Grabbed objects,
steering wheels and vehicles are then kept in step between peers.

The model covers four groups of components. Each component that updates
fields in place is a Dafny `class`, with `modifies` clauses on its methods.
The pure decisions beside each class are functions, and lemmas prove what the
components promise.

- **Grab authority and transform sync.** These components hold and send
  object poses:
  - `GrabNetController` decides who holds an object: a grab always succeeds, so the last writer wins, and only the holder can release it.
  - The steering-wheel and vehicle receivers keep one start-to-target interpolation segment each, advanced by a clamped timer.
  - The senders (`GrabNetTransformBridge`, `SteeringNetTransformBridge`, `SteeringInputManager` and the tail of the vehicle's `FixedUpdate`) are throttled latest-value queues. `SyncQueue` specifies them once, and each sender is proved against it.
- **Steering input mapping.** `TwoSteeringNetTransformer` does three things:
  - It turns hand distance into throttle with a piecewise-linear curve.
  - It rate-limits and clamps the wheel angle.
  - It only ever grows the arm length.
- **Frame alignment.** Rotations are yaw-only unit pairs `(cos, sin)` about
  the up axis. These components use them:
  - `AlignmentManager` (current and older copy) resets the rig and then applies the anchor's inverse pose, in two passes.
  - `OffsetPlayerToMap` re-roots the rig so that the marker becomes the origin.
  - `MovableOrigin` decides when a placement is committed.
- **Session and discovery control.** This part exists in two generations:
  - the current `ColocationManager` with `ColocationNetworkManager` and `FullSceneResetManager`;
  - the older `ColocationManager` with `CustomNetworkManager`, `LANDiscovery` and `CustomKcpTransport`.

  The model covers these steps:
  - the advertisement payload `SharedSpatialAnchorSession|<ip>` and its parse;
  - the bounded anchor-share retry that escalates to a full reset;
  - the choice of the first anchor that localises;
  - first-response-wins LAN discovery;
  - connecting only once the colocation flag is raised;
  - stopping advertisement at the player cap;
  - the once-per-scene reset and its choice of shutdown;
  - the transport's choice of the first IPv4 address that is neither loopback nor link-local (section 2.2.2 of RFC 6890);
  - the spawn menu's gate, with its single active car.

The engine, the network library and the headset platform are not modelled.
Their answers become parameters:
- each attempt's outcome in the share loop;
- the list of loaded anchors;
- the host's address list;
- the flag as each frame of a coroutine reads it;
- per-frame time deltas.

An `async` method is modelled from its start to its end, with the platform's
answers given. A coroutine that waits for the colocation flag is a loop over
the values the flag takes at each frame. The process-wide static
`ColocationSuccessful` is a shared `ColocationFlag` object. Each generation
has its own copy.

Each source file has one `.dfy` file, named after it in snake case. The
shared value modules are these:
- `basics.dfy`: Option, group ids, identities, first-match search;
- `geometry.dfy`: vectors, abstract rotations, yaw pairs, frames;
- `interpolation.dfy`: clamping and lerp;
- `sync_queue.dfy`: the throttled latest-value queue;
- `network_state.dfy`: the networking state and the colocation flag;
- `payload.dfy`: the advertisement payload and .NET's string helpers;
- `spatial_anchors.dfy`: the platform's answers as values.

## Model

| member | source | states |
|---|---|---|
| GrabNet.ApplyKinematic | Assets/ColocationTemplate/Scripts/ServerAuth/GrabNetController.cs:152-176 | the body becomes kinematic exactly when asked, gravity is the opposite, and both velocities are zeroed only when switching to kinematic |
| GrabNet.Grab | Assets/ColocationTemplate/Scripts/ServerAuth/GrabNetController.cs:81-101 | whatever the previous holder, the object ends grabbed by the requester, and the grab broadcast comes first |
| GrabNet.Release | Assets/ColocationTemplate/Scripts/ServerAuth/GrabNetController.cs:104-121 | an accepted release (grabbed and asked by the grabber) frees the object and clears the grabber; any other release changes nothing and broadcasts nothing |
| GrabNet.Forward | Assets/ColocationTemplate/Scripts/ServerAuth/GrabNetController.cs:125-132 | a pose is rebroadcast iff the object is grabbed and the sender's identity is the grabber; the position is kept and the rotation is the sent one normalised, hence a unit rotation |
| GrabNet.ReleaseChangesIffGrabber | Assets/ColocationTemplate/Scripts/ServerAuth/GrabNetController.cs:106-120 | a release changes the server state if and only if it is accepted |
| GrabNet.GrabTouchesPhysicsOnlyWhenFree | Assets/ColocationTemplate/Scripts/ServerAuth/GrabNetController.cs:83-100 | a grab changes the body only on a free-to-grabbed transition of a non-vehicle, and then makes it kinematic; a re-grab leaves physics alone |
| GrabNet.LastWriterWins | Assets/ColocationTemplate/Scripts/ServerAuth/GrabNetController.cs:94-120 | after a grab by p, any number of releases by others leave p the grabber |
| GrabNet.ImpostorsCannotRelease | Assets/ColocationTemplate/Scripts/ServerAuth/GrabNetController.cs:106-120 | releases from anyone but the grabber leave the server state unchanged |
| GrabNet.PhysicsFollowsGrab | Assets/ColocationTemplate/Scripts/ServerAuth/GrabNetController.cs:83-121 | on a non-vehicle object, "kinematic and gravity off exactly while grabbed" is preserved by every sequence of grabs and releases |
| GrabNet.VehicleBodyUntouched | Assets/ColocationTemplate/Scripts/ServerAuth/GrabNetController.cs:89-115 | on a vehicle, no sequence of grabs and releases touches the body |
| GrabNet.GrabNetController.SetKinematicState | Assets/ColocationTemplate/Scripts/ServerAuth/GrabNetController.cs:152-164 | the server body is switched as ApplyKinematic says and the same switch is broadcast |
| GrabNet.GrabNetController.CmdTryGrab | Assets/ColocationTemplate/Scripts/ServerAuth/GrabNetController.cs:81-101 | the new server state and broadcasts are those of Grab |
| GrabNet.GrabNetController.CmdTryRelease | Assets/ColocationTemplate/Scripts/ServerAuth/GrabNetController.cs:104-121 | the new server state and broadcasts are those of Release |
| GrabNet.GrabNetController.CmdSyncTransform | Assets/ColocationTemplate/Scripts/ServerAuth/GrabNetController.cs:125-132 | the broadcast is the one Forward gives for the controller's authority state: the pose with its rotation normalised, iff grabbed and sent by the grabber |
| GrabNet.GrabNetController.RpcSetKinematic | Assets/ColocationTemplate/Scripts/ServerAuth/GrabNetController.cs:167-176 | each client applies the same kinematic switch as the server |
| GrabNet.GrabNetController.RpcSyncTransform | Assets/ColocationTemplate/Scripts/ServerAuth/GrabNetController.cs:135-149 | the grabber and an ungrabbed object ignore a pose; otherwise a new segment starts at the current pose, aims at the normalised target, and the timer restarts |
| GrabNet.GrabNetController.Update | Assets/ColocationTemplate/Scripts/ServerAuth/GrabNetController.cs:64-74 | only non-grabbers of a grabbed object move, to the clamped interpolation point of the segment, and they sit on the target once the timer reaches the sync interval |
| GrabNet.GrabNetController.constructor | Assets/ColocationTemplate/Scripts/ServerAuth/GrabNetController.cs:10-24 | an object starts free, with no grabber and a zero timer at its own pose; the interpolation segment's start and target are the never-assigned defaults, the zero vector and the all-zero (non-unit) quaternion |
| GrabNet.GrabNetController.IAmGrabber | Assets/ColocationTemplate/Scripts/ServerAuth/GrabNetController.cs:190-192 | no connection means not the grabber; a grabber of a held object has exactly the grabber's identity; a connected client whose identity is not spawned yet counts as the grabber exactly while nobody holds the object |
| GrabNet.GrabNetController.ClientUpdateTransform | Assets/ColocationTemplate/Scripts/ServerAuth/GrabNetController.cs:50-57 | only the grabber writes its transform, with a normalised rotation; others are unchanged |
| SyncQueue.Offer | Assets/ColocationTemplate/Scripts/ServerAuth/GrabNetTransformBridge.cs:74-76 | a new pose replaces whatever was queued and marks the queue pending, leaving the timer alone |
| SyncQueue.Pump | Assets/ColocationTemplate/Scripts/ServerAuth/GrabNetTransformBridge.cs:33-43 | an empty queue is left alone; a pending value is sent iff the advanced timer reaches the interval, which then resets the timer and empties the queue; a pending value not yet sent keeps waiting while the timer advances by the frame time |
| SyncQueue.SendBudget | Assets/ColocationTemplate/Scripts/ServerAuth/GrabNetTransformBridge.cs:31-44 | over any trace of offers and forward frames, the timer stays non-negative and the time charged to sends plus the timer never exceed the time that has passed |
| SyncQueue.SendRate | Assets/ColocationTemplate/Scripts/ServerAuth/GrabNetTransformBridge.cs:31-44 | from an empty timer, a trace sends at most one value per sync interval of elapsed time |
| SyncQueue.SendsAtMostPuts | Assets/ColocationTemplate/Scripts/ServerAuth/GrabNetTransformBridge.cs:69-79 | offers are coalesced: sends plus a still-pending value never exceed the offers plus one already pending |
| SyncQueue.LatestValueKept | Assets/ColocationTemplate/Scripts/ServerAuth/GrabNetTransformBridge.cs:74-76 | the queued value after any trace is the last one offered |
| SyncQueue.SentWereOffered | Assets/ColocationTemplate/Scripts/ServerAuth/GrabNetTransformBridge.cs:41 | every value sent was queued at the start or offered during the trace |
| GrabBridge.GrabNetTransformBridge.constructor | Assets/ColocationTemplate/Scripts/ServerAuth/GrabNetTransformBridge.cs:6-23 | a bridge starts released, with an empty queue and a zero timer |
| GrabBridge.GrabNetTransformBridge.OnPointerEvent | Assets/ColocationTemplate/Scripts/ServerAuth/GrabNetTransformBridge.cs:46-58 | Select marks the object held and asks to grab with this client's identity; Unselect marks it released and asks to release; other events do nothing |
| GrabBridge.GrabNetTransformBridge.RequestForceGrab | Assets/ColocationTemplate/Scripts/ServerAuth/GrabNetTransformBridge.cs:60-64 | a forced grab marks the object held and asks to grab |
| GrabBridge.GrabNetTransformBridge.UpdateTransformFromTransformer | Assets/ColocationTemplate/Scripts/ServerAuth/GrabNetTransformBridge.cs:69-79 | while held, the pose is offered to the queue and moves the object locally if this client is the grabber; while released nothing changes |
| GrabBridge.GrabNetTransformBridge.Update | Assets/ColocationTemplate/Scripts/ServerAuth/GrabNetTransformBridge.cs:31-44 | the queue is pumped only while held, pending and with a controller, and then behaves and sends exactly as Pump |
| Interpolation.Clamp01 | Assets/ColocationTemplate/Scripts/ServerAuth/GrabNetController.cs:70 | the factor lies in [0, 1] and equals its argument inside that range |
| Interpolation.Clamp | Assets/ColocationTemplate/Scripts/ClientAuth/TwoSteeringNetTransformer.cs:215-216 | the clamped value lies in the bounds and equals its argument inside them |
| Interpolation.FactorRange | Assets/ColocationTemplate/Scripts/ServerAuth/GrabNetController.cs:69-73 | the interpolation factor stays in [0, 1], is 0 before the segment starts and 1 once a whole interval has passed |
| Interpolation.FactorMonotonic | Assets/ColocationTemplate/Scripts/ClientAuth/SteeringNetController.cs:61-62 | a later timer never gives a smaller factor |
| Interpolation.LerpBetween | Assets/ColocationTemplate/Scripts/ClientAuth/SteeringNetController.cs:64 | an interpolated coordinate never overshoots the segment's ends |
| Interpolation.LerpEnds | Assets/ColocationTemplate/Scripts/ClientAuth/SteeringNetController.cs:64 | factor 0 gives the start and factor 1 the target |
| Interpolation.SegmentCompletes | Assets/ColocationTemplate/Scripts/ClientAuth/SteeringNetController.cs:61-65 | once the timer reaches the interval, position and rotation sit exactly on the target |
| SteeringNet.SteeringNetController.constructor | Assets/ColocationTemplate/Scripts/ClientAuth/SteeringNetController.cs:10-25 | a wheel starts with a zero timer at its own pose; the interpolation segment's start and target are the never-assigned defaults, the zero vector and the all-zero (non-unit) quaternion |
| SteeringNet.SteeringNetController.ClientUpdateTransform | Assets/ColocationTemplate/Scripts/ClientAuth/SteeringNetController.cs:30-40 | a pose is sent iff this client owns the wheel, unchanged |
| SteeringNet.SteeringNetController.RpcApplyTransform | Assets/ColocationTemplate/Scripts/ClientAuth/SteeringNetController.cs:43-55 | the owner ignores relayed poses; a non-owner starts a new segment from its current pose to the pose as received |
| SteeringNet.SteeringNetController.Update | Assets/ColocationTemplate/Scripts/ClientAuth/SteeringNetController.cs:57-66 | the owner does not move; a non-owner advances to the clamped interpolation point and lands on the target after a whole interval |
| SteeringBridge.SteeringNetTransformBridge.constructor | Assets/ColocationTemplate/Scripts/ClientAuth/SteeringNetTransformBridge.cs:10-22 | a bridge starts with an empty queue and a zero timer |
| SteeringBridge.SteeringNetTransformBridge.UpdateTransformFromTransformer | Assets/ColocationTemplate/Scripts/ClientAuth/SteeringNetTransformBridge.cs:43-51 | with a controller, the pose is offered to the queue (only the latest is kept); without one nothing changes |
| SteeringBridge.SteeringNetTransformBridge.Update | Assets/ColocationTemplate/Scripts/ClientAuth/SteeringNetTransformBridge.cs:24-37 | with a controller the queue behaves as Pump, and a pumped pose becomes a command only on the owning client; without a controller or a pending pose nothing happens |
| TwoSteering.Throttle | Assets/ColocationTemplate/Scripts/ClientAuth/TwoSteeringNetTransformer.cs:230-241 | the throttle lies in [-1, 1]: full reverse up to ratio 0.45, zero on (0.55, 0.575], full forward above 0.85 |
| TwoSteering.ThrottleMonotoneLipschitz | Assets/ColocationTemplate/Scripts/ClientAuth/TwoSteeringNetTransformer.cs:232-241 | the throttle curve never decreases with the distance ratio and never rises faster than 10 per unit ratio |
| TwoSteering.ThrottleContinuous | Assets/ColocationTemplate/Scripts/ClientAuth/TwoSteeringNetTransformer.cs:232-241 | the piecewise curve has no jumps at its breakpoints: ratios within eps/10 give throttles within eps |
| TwoSteering.Repeat360 | Assets/ColocationTemplate/Scripts/ClientAuth/TwoSteeringNetTransformer.cs:215 | an angle wrapped modulo 360 lies in [0, 360] |
| TwoSteering.DeltaAngle | Assets/ColocationTemplate/Scripts/ClientAuth/TwoSteeringNetTransformer.cs:215 | the signed angle difference lies in (-180, 180] |
| TwoSteering.SteerStep | Assets/ColocationTemplate/Scripts/ClientAuth/TwoSteeringNetTransformer.cs:208-216 | the wheel angle stays within ±110 degrees; a wheel reading exactly 0 first snaps to the hand angle, and when that snapped start lies within the range the new angle is at most 15 degrees from it (so from a non-zero angle inside the range it moves by at most 15 degrees per frame) |
| TwoSteering.SteeringValueInRange | Assets/ColocationTemplate/Scripts/ClientAuth/TwoSteeringNetTransformer.cs:134 | the steering value handed to the input manager lies in [-1, 1] |
| TwoSteering.SteerStepReachesSteadyAngle | Assets/ColocationTemplate/Scripts/ClientAuth/TwoSteeringNetTransformer.cs:210-216 | a hand angle within range and within 15 degrees of a non-zero wheel angle is reached in one frame |
| TwoSteering.SumBounds | Assets/ColocationTemplate/Scripts/ClientAuth/TwoSteeringNetTransformer.cs:183-187 | the sum of n grab points lies between n times any common lower and upper bound, coordinate by coordinate |
| TwoSteering.CentroidCoordInRange | Assets/ColocationTemplate/Scripts/ClientAuth/TwoSteeringNetTransformer.cs:181-189 | each coordinate of the centroid lies between bounds that hold for every grab point |
| TwoSteering.CentroidInBox | Assets/ColocationTemplate/Scripts/ClientAuth/TwoSteeringNetTransformer.cs:181-189 | the centroid lies in every axis-aligned box that holds all grab points |
| TwoSteering.GetCentroid | Assets/ColocationTemplate/Scripts/ClientAuth/TwoSteeringNetTransformer.cs:181-189 | the loop's sum divided by the count is the mean of the grab points |
| TwoSteering.TwoSteeringNetTransformer.constructor | Assets/ColocationTemplate/Scripts/ClientAuth/TwoSteeringNetTransformer.cs:34-39 | a transformer starts with angle 0, throttle 0, arm length 0.6 and first pose index 0 |
| TwoSteering.TwoSteeringNetTransformer.BeginTransform | Assets/ColocationTemplate/Scripts/ClientAuth/TwoSteeringNetTransformer.cs:79-99 | a non-owner does nothing; an owner looks for the chest bone, zeroes angle and throttle only once the bone is known, and picks as first pose the grab point nearer the right hand |
| TwoSteering.TwoSteeringNetTransformer.CalculateSteeringInput | Assets/ColocationTemplate/Scripts/ClientAuth/TwoSteeringNetTransformer.cs:195-221 | the wheel angle advances by SteerStep and the container shows that angle |
| TwoSteering.TwoSteeringNetTransformer.CalculateThrottleInput | Assets/ColocationTemplate/Scripts/ClientAuth/TwoSteeringNetTransformer.cs:227-247 | the throttle is the curve at distance over the previous arm length, and the arm length grows to the longest distance seen |
| TwoSteering.TwoSteeringNetTransformer.UpdateTransform | Assets/ColocationTemplate/Scripts/ClientAuth/TwoSteeringNetTransformer.cs:104-136 | without a bone, grab points or ownership nothing changes (wheel, angle, container, throttle, arm length, both queues, the car's inputs); otherwise the wheel sits on the centroid facing the chest and the container shows the new angle, the container pose is queued for sync when the bridge has a controller (else the bridge is untouched), and an owning input manager with a car queues steering = new angle over 110 (in [-1, 1]), the new throttle and the brake derived from them, which the car takes over when this client drives it; otherwise the queue and the car's inputs are unchanged |
| TwoSteering.TwoSteeringNetTransformer.EndTransform | Assets/ColocationTemplate/Scripts/ClientAuth/TwoSteeringNetTransformer.cs:141-153 | an owner returns the wheel to straight, zeroes angle and throttle, restores the arm length and sends the neutral input: an owning input manager with a car queues the parked triple (zero steering and throttle, full brake), which the car takes over when this client drives it, and otherwise queue and car inputs are unchanged; a non-owner changes nothing (wheel, angle, throttle, arm length, queue, car inputs) |
| SteeringInput.Brake | Assets/ExampleAssets/Scripts/SteeringInputManager.cs:38 | the brake is fully on exactly when steering and throttle are both zero, and fully off otherwise |
| SteeringInput.ServerForward | Assets/ExampleAssets/Scripts/SteeringInputManager.cs:65-75 | the server relays the inputs, unchanged, iff the car id is spawned and that object has a vehicle controller |
| SteeringInput.SteeringInputManager.constructor | Assets/ExampleAssets/Scripts/SteeringInputManager.cs:11-19 | a manager starts with no car, nothing queued and a zero timer |
| SteeringInput.SteeringInputManager.AssignCar | Assets/ExampleAssets/Scripts/SteeringInputManager.cs:24-29 | the controlled car id becomes the given one |
| SteeringInput.SteeringInputManager.SetInput | Assets/ExampleAssets/Scripts/SteeringInputManager.cs:32-46 | without ownership or a car nothing changes; otherwise steering, throttle and derived brake are offered to the queue and applied at once to the local car when this client drives it |
| SteeringInput.SteeringInputManager.Update | Assets/ExampleAssets/Scripts/SteeringInputManager.cs:49-60 | the owner's queue behaves as Pump and a pumped triple is sent with the controlled car id; a non-owner sends nothing |
| Vehicle.LerpInputsBetween | Assets/ExampleAssets/Scripts/ArcadeVehicleController.cs:209-214 | every interpolated input lies between its start and its target |
| Vehicle.IsDriver | Assets/ExampleAssets/Scripts/ArcadeVehicleController.cs:108-123 | the driver test needs both an identity and a driver; once the driver's id is synchronised it holds exactly for the driver's identity (see DriverUniqueOnceSynced and UnsyncedDriverIsEveryone for the unsynchronised case) |
| Vehicle.DriverUniqueOnceSynced | Assets/ExampleAssets/Scripts/ArcadeVehicleController.cs:109-125 | once the driver's net id is synchronised, the driver test holds for exactly the driver's identity |
| Vehicle.UnsyncedDriverIsEveryone | Assets/ExampleAssets/Scripts/ArcadeVehicleController.cs:119-121 | while the driver's net id is still 0, every client with an identity takes itself to be the driver |
| Vehicle.ArcadeVehicleController.constructor | Assets/ExampleAssets/Scripts/ArcadeVehicleController.cs:48-90 | a car starts without a driver, with zero inputs and an empty send queue at its own pose; the interpolation segment's ends and the queued update are the never-assigned defaults, zero vectors and the all-zero (non-unit) quaternion |
| Vehicle.ArcadeVehicleController.ServerSetDriver | Assets/ExampleAssets/Scripts/ArcadeVehicleController.cs:104-107 | the synchronised driver becomes the given identity |
| Vehicle.ArcadeVehicleController.IAmDriver | Assets/ExampleAssets/Scripts/ArcadeVehicleController.cs:108-123 | this client drives only with an identity and a driver set; with the driver's id synchronised, exactly when its identity is the driver; with the id still 0, always |
| Vehicle.ArcadeVehicleController.ClientProvideInputs | Assets/ExampleAssets/Scripts/ArcadeVehicleController.cs:127-133 | local inputs apply only on the driver; other clients keep theirs |
| Vehicle.ArcadeVehicleController.RpcSyncInputs | Assets/ExampleAssets/Scripts/ArcadeVehicleController.cs:147-160 | the driver ignores relayed inputs; other clients start a new input segment from their current inputs |
| Vehicle.ArcadeVehicleController.RpcSyncTransform | Assets/ExampleAssets/Scripts/ArcadeVehicleController.cs:170-185 | the driver ignores relayed poses; other clients start a new pose segment from the current pose to the relayed one, with a unit rotation |
| Vehicle.ArcadeVehicleController.Update | Assets/ExampleAssets/Scripts/ArcadeVehicleController.cs:187-226 | a grabbed car is parked, kinematic, without gravity, with its sphere just below the body; otherwise physics is back on, the driver's car is left to physics, and any other client interpolates inputs, positions, rotation and velocity along the current segments; the grabbed and driver branches leave the reference velocity alone |
| Vehicle.ArcadeVehicleController.FixedUpdate | Assets/ExampleAssets/Scripts/ArcadeVehicleController.cs:254-369 | only the driver of an ungrabbed car queues its current pose and pumps the queue by the fixed step, sending exactly what Pump sends |
| Vehicle.InputsArrive | Assets/ExampleAssets/Scripts/ArcadeVehicleController.cs:209-214 | a whole interval after the last relayed inputs, a non-driver shows exactly the inputs the driver sent |
| Origin.Next | Assets/ColocationTemplate/Scripts/Util/MoveableOrigin.cs:104-146 | a commit happens exactly on letting go of a placeable marker, and clears the placeable flag; a Floor contact while held makes it placeable, leaving the Floor makes it not placeable, other colliders change nothing |
| Origin.CommitsNeedFloorContact | Assets/ColocationTemplate/Scripts/Util/MoveableOrigin.cs:94 | no double commit: commits (plus a still-placeable marker) never exceed Floor contacts made while held (plus a marker placeable at the start) |
| Origin.SecondCommitNeedsFloor | Assets/ColocationTemplate/Scripts/Util/MoveableOrigin.cs:94 | from a non-placeable marker, no commit happens without a new Floor contact |
| Origin.ArmingWithoutFloor | Assets/ColocationTemplate/Scripts/Util/MoveableOrigin.cs:132-138 | without Floor contacts the marker is never armed |
| Origin.SnapToFloor | Assets/ColocationTemplate/Scripts/Util/MoveableOrigin.cs:124 | the committed position keeps x and z and drops y to 0 |
| Origin.MovableOrigin.constructor | Assets/ColocationTemplate/Scripts/Util/MoveableOrigin.cs:28-33 | a marker starts not held and not placeable |
| Origin.MovableOrigin.CmdSetPlaceable | Assets/ColocationTemplate/Scripts/Util/MoveableOrigin.cs:104-105 | the server's placeable flag takes the requested value |
| Origin.MovableOrigin.ResetMarker | Assets/ColocationTemplate/Scripts/Util/MoveableOrigin.cs:75-81 | the marker returns to the origin with no rotation |
| Origin.MovableOrigin.CmdCommitPlacement | Assets/ColocationTemplate/Scripts/Util/MoveableOrigin.cs:87-97 | the server broadcasts the placement unchanged, resets the marker and clears the placeable flag |
| Origin.MovableOrigin.RpcReRootPlayers | Assets/ColocationTemplate/Scripts/Util/MoveableOrigin.cs:60-73 | where an alignment manager exists, the rig is re-rooted on the placement and the marker reset; elsewhere nothing moves |
| Origin.MovableOrigin.OnPointerEvent | Assets/ColocationTemplate/Scripts/Util/MoveableOrigin.cs:112-130 | the gate moves as Next says, and a commit broadcasts the marker's pose snapped to the floor and resets the marker |
| Origin.MovableOrigin.OnTriggerEnter | Assets/ColocationTemplate/Scripts/Util/MoveableOrigin.cs:132-138 | the gate moves as Next says for a collider entering |
| Origin.MovableOrigin.OnTriggerExit | Assets/ColocationTemplate/Scripts/Util/MoveableOrigin.cs:140-146 | the gate moves as Next says for a collider leaving |
| Geometry.Normalize | Assets/ColocationTemplate/Scripts/ServerAuth/GrabNetController.cs:196 | a normalised rotation has unit length; the all-zero quaternion normalises to the identity |
| Geometry.NormalizeUnit | Assets/ColocationTemplate/Scripts/ServerAuth/GrabNetController.cs:130-146 | normalising a unit rotation changes nothing |
| Geometry.NormalizeIdempotent | Assets/ColocationTemplate/Scripts/ServerAuth/GrabNetController.cs:130-146 | normalising twice (server, then client) is normalising once |
| Geometry.Slerp | Assets/ColocationTemplate/Scripts/ClientAuth/SteeringNetController.cs:65 | slerp returns its ends exactly at factors 0 and 1 and keeps unit rotations unit |
| Geometry.Apply | Assets/ColocationTemplate/Scripts/Server/AlignmentManager.cs:72-79 | a yaw rotation leaves heights unchanged |
| Geometry.ApplyAdd | Assets/ColocationTemplate/Scripts/Server/AlignmentManager.cs:75-79 | a yaw rotation distributes over vector addition |
| Geometry.ApplySub | Assets/ColocationTemplate/Scripts/Server/AlignmentManager.cs:75-79 | a yaw rotation distributes over vector subtraction |
| Geometry.ApplyCompose | Assets/ColocationTemplate/Scripts/Server/AlignmentManager.cs:78 | applying a composed yaw is applying its parts in turn |
| Geometry.InverseCancels | Assets/ColocationTemplate/Scripts/Server/AlignmentManager.cs:72 | the inverse of a unit yaw undoes it, as a rotation and on vectors |
| Geometry.UnitCompose | Assets/ColocationTemplate/Scripts/Server/AlignmentManager.cs:78 | composing unit yaws gives a unit yaw |
| Geometry.ToLocalInvertsToWorld | Assets/ColocationTemplate/Scripts/Server/AlignmentManager.cs:46 | the inverse transform of a point undoes the transform under a unit yaw |
| Alignment.AlignedRig | Assets/ColocationTemplate/Scripts/Server/AlignmentManager.cs:41-47 | the aligned rig is turned by the inverse of the anchor's tracked yaw |
| Alignment.AnchorLandsAtOrigin | Assets/ColocationTemplate/Scripts/Server/AlignmentManager.cs:33-52 | after alignment the anchor's world pose is the origin with no yaw, and the rig's yaw stays unit |
| Alignment.AlignedPointsAreAnchorRelative | Assets/ColocationTemplate/Scripts/Server/AlignmentManager.cs:46-47 | after alignment every tracked point appears at its anchor-relative coordinates, so all aligned devices share the anchor's frame |
| Alignment.ReRootMovesEveryPoint | Assets/ColocationTemplate/Scripts/Server/AlignmentManager.cs:62-84 | re-rooting moves every point p of the play space to the inverse marker yaw applied to p minus the marker, shifts heights only by the marker's height, and keeps a unit rig yaw unit |
| Alignment.MarkerBecomesOrigin | Assets/ColocationTemplate/Scripts/Server/AlignmentManager.cs:58-62 | the marker itself lands on the world origin |
| Alignment.AlignmentManager.constructor | Assets/ColocationTemplate/Scripts/Server/AlignmentManager.cs:6-13 | the manager holds the rig found at start-up, or none |
| Alignment.AlignmentManager.AlignUserToAnchor | Assets/ColocationTemplate/Scripts/Server/AlignmentManager.cs:22-31 | alignment starts iff the anchor exists and is localised; otherwise the rig is untouched; once started the rig ends where the second pass puts it |
| Alignment.AlignmentManager.AlignmentCoroutine | Assets/ColocationTemplate/Scripts/Server/AlignmentManager.cs:33-52 | exactly two passes, each the aligned rig for the anchor pose observed in that pass, and the rig ends at the second |
| Alignment.AlignmentManager.OffsetPlayerToMap | Assets/ColocationTemplate/Scripts/Server/AlignmentManager.cs:62-84 | without a rig nothing happens; otherwise the rig becomes ReRooted of its previous pose and the marker |
| LegacyAlignment.LegacyAlignmentManager.constructor | Assets/CustomNetwork/Scripts/AlignmentManager.cs:10-21 | the manager holds the rig found at start-up |
| LegacyAlignment.LegacyAlignmentManager.AlignUserToAnchor | Assets/CustomNetwork/Scripts/AlignmentManager.cs:32-43 | alignment starts iff the anchor exists and is localised; the rig ends where the second pass puts it |
| LegacyAlignment.LegacyAlignmentManager.AlignmentCoroutine | Assets/CustomNetwork/Scripts/AlignmentManager.cs:50-72 | exactly two reset-then-apply passes, and the rig ends at the second |
| Reset.ChooseShutdown | Assets/ColocationTemplate/Scripts/Server/FullSceneResetManager.cs:43-57 | host shutdown iff a server runs with a connected client; server shutdown iff a server runs without one; client shutdown iff no server runs and a client is started or connected; nothing otherwise |
| Reset.ShutdownLeavesNothingConnected | Assets/ColocationTemplate/Scripts/Server/FullSceneResetManager.cs:41-57 | after the chosen shutdown no server runs and no client is connected, and a client is left started exactly when a server ran beside a started but unconnected client |
| Reset.PlanIsOrdered | Assets/ColocationTemplate/Scripts/Server/FullSceneResetManager.cs:31-72 | a reset's steps run in order, each at most once: colocation stops before the network shutdown, the shutdown always happens, and the flag is cleared and the scene reloaded, last, exactly when the grace period elapsed |
| Reset.FullSceneResetManager.TriggerRepeatedly | Assets/ColocationTemplate/Scripts/Server/FullSceneResetManager.cs:17-28 | of any number of trigger presses in one scene at most one starts a reset, exactly one when none was running, and the resetting flag stays up |
| Reset.FullSceneResetManager.constructor | Assets/ColocationTemplate/Scripts/Server/FullSceneResetManager.cs:14-17 | a manager starts not resetting, with the given grace period |
| Reset.FullSceneResetManager.TriggerFullReset | Assets/ColocationTemplate/Scripts/Server/FullSceneResetManager.cs:20-23 | a reset starts iff none was in progress, and afterwards one is |
| Reset.FullSceneResetManager.ResetAndReload | Assets/ColocationTemplate/Scripts/Server/FullSceneResetManager.cs:26-73 | the network ends as the chosen shutdown leaves it; the steps are the reset plan; the wait stops at the first frame where the unscaled times reach the grace period; the flag is cleared iff that point was reached |
| Basics.FirstIndex | Assets/ExampleAssets/Scripts/GrabMenuController.cs:25 | the result is the index of the first element the predicate accepts, and None exactly when it accepts none |
| Payload.Encode | Assets/ColocationTemplate/Scripts/Server/ColocationManager.cs:60 | the metadata is the session tag, one separator and then the host, nothing else |
| Payload.Split | Assets/ColocationTemplate/Scripts/Server/ColocationManager.cs:173 | splitting never yields an empty array |
| Payload.JoinSplit | Assets/ColocationTemplate/Scripts/Server/ColocationManager.cs:173 | splitting loses nothing: joining the parts with the separator rebuilds the string |
| Payload.SplitShape | Assets/ColocationTemplate/Scripts/Server/ColocationManager.cs:173 | a string with n separators splits into n + 1 parts, none of which holds a separator |
| Payload.SplitJoin | Assets/ColocationTemplate/Scripts/Server/ColocationManager.cs:173 | splitting undoes joining for parts without separators |
| Payload.ParseSucceedsIffSeparator | Assets/ColocationTemplate/Scripts/Server/ColocationManager.cs:173-178 | a client reads an address from the metadata if and only if the metadata holds a separator |
| Payload.Parse | Assets/ColocationTemplate/Scripts/Server/ColocationManager.cs:173-181 | the address read from the metadata (part 1 of the split) never holds a separator; ParseSucceedsIffSeparator and ParseEncode say when it exists and what it is |
| Payload.EncodeSplits | Assets/ColocationTemplate/Scripts/Server/ColocationManager.cs:173-181 | any encoded metadata splits into the tag followed by the host's own parts, so the client always reads an address: the host up to its first separator |
| Payload.ParseEncode | Assets/ColocationTemplate/Scripts/Server/ColocationManager.cs:173-181 | round trip: the address a client reads from the metadata is exactly the host the server encoded, for any host without a separator |
| Payload.WhiteSpaceRejectsMore | Assets/CustomNetwork/Scripts/ColocationManager.cs:54 | every string the emptiness test rejects the whitespace test rejects too, and a blank string separates them |
| Kcp.ChosenAddress | Assets/CustomNetwork/Scripts/CustomKcpTransport.cs:13-27 | the advertised address is always IPv4 |
| Kcp.IsAPIPA | Assets/CustomNetwork/Scripts/CustomKcpTransport.cs:39-43 | an address is link-local only when its first two bytes are 169 and 254, and a link-local address is never loopback; ChosenAddressIsFirstUsable shows the filter skips these addresses |
| Kcp.ChosenAddressIsFirstUsable | Assets/CustomNetwork/Scripts/CustomKcpTransport.cs:16-27 | the loopback fallback is taken exactly when no address is IPv4, non-loopback and non-link-local; otherwise the result is the first such address |
| Kcp.Decimal | Assets/CustomNetwork/Scripts/CustomKcpTransport.cs:33 | a number prints as a non-empty run of digits |
| Kcp.HostString | Assets/CustomNetwork/Scripts/CustomKcpTransport.cs:32 | a dotted-decimal address has at least seven characters, all digits or dots |
| Kcp.ServerUri | Assets/CustomNetwork/Scripts/CustomKcpTransport.cs:29-36 | the reported URI has scheme "kcp" and the transport's port |
| Kcp.TakeUntil | Assets/ColocationTemplate/Scripts/Server/ColocationManager.cs:59 | the result is the longest prefix of the input free of the stop characters |
| Kcp.IndexOf | Assets/ColocationTemplate/Scripts/Server/ColocationManager.cs:58 | the position of the first occurrence, None exactly when the character does not occur |
| Kcp.HostOf | Assets/ColocationTemplate/Scripts/Server/ColocationManager.cs:58-59 | a parsed host is non-empty and holds no ':' or '/'; a string without ':' has no host; HostOfUriString shows it inverts printing |
| Kcp.HostOfUriString | Assets/ColocationTemplate/Scripts/Server/ColocationManager.cs:58-59 | reading the host of a printed scheme://host:port/ URI gives back that host |
| Kcp.ServerUriHost | Assets/CustomNetwork/Scripts/CustomKcpTransport.cs:29-36 | the host of the server's printed URI is the chosen address in dotted decimal |
| Colocation.AdvertisedAddressIsDiscovered | Assets/ColocationTemplate/Scripts/Server/ColocationManager.cs:50-60 | for any address list, the transport's URI passes the blank test, has a host, and a client parsing the resulting metadata reads exactly the address the transport chose |
| Colocation.ColocationManager.constructor | Assets/ColocationTemplate/Scripts/Server/ColocationManager.cs:23-24 | a manager starts with the empty group id, not advertising, not discovering, unsubscribed |
| Colocation.ColocationManager.AdvertiseColocationSession | Assets/ColocationTemplate/Scripts/Server/ColocationManager.cs:46-79 | advertising proceeds iff the URI is not blank, has a host and the platform started the advertisement; then the metadata encodes that host, the group id is the platform's and the share loop's outcome follows: the first succeeding attempt shares and leaves the reset manager alone, and when all ten fail a full reset is running afterwards, started by this call iff none was running; otherwise nothing changes and no reset starts |
| Colocation.ColocationManager.CreateAndShareAlignmentAnchor | Assets/ColocationTemplate/Scripts/Server/ColocationManager.cs:82-122 | the anchor is shared on the first of the ten attempts that localises, saves and shares; a full reset is requested exactly when all ten fail, and starts iff none was running |
| Colocation.ColocationManager.StopColocationAdvertisement | Assets/ColocationTemplate/Scripts/Server/ColocationManager.cs:132-138 | advertising has stopped |
| Colocation.ColocationManager.DiscoverNearbySession | Assets/ColocationTemplate/Scripts/Server/ColocationManager.cs:148-163 | the handler is subscribed, and discovery runs iff the platform started it |
| Colocation.ColocationManager.OnColocationSessionDiscovered | Assets/ColocationTemplate/Scripts/Server/ColocationManager.cs:167-188 | the handler unsubscribes; metadata is dropped iff it has no address part; otherwise the group id becomes the session's and the discovered group and address are handed on |
| Colocation.ColocationManager.LoadAndAlignToAnchor | Assets/ColocationTemplate/Scripts/Server/ColocationManager.cs:191-225 | the user is aligned to the first loaded anchor that localises and the flag is raised (the rig as it stands once the alignment coroutine has run; the source raises the flag before that frame); after a failed load or when none localises neither rig nor flag changes |
| Colocation.ColocationManager.StopColocationDiscovery | Assets/ColocationTemplate/Scripts/Server/ColocationManager.cs:227-235 | discovery has stopped and the handler is unsubscribed |
| ColocationNet.ColocationNetworkManager.constructor | Assets/ColocationTemplate/Scripts/Server/ColocationNetworkManager.cs:13-17 | the manager keeps the given network, flag, colocation manager and transport URI |
| ColocationNet.ColocationNetworkManager.GetLanServerUri | Assets/ColocationTemplate/Scripts/Server/ColocationNetworkManager.cs:42-45 | the transport's URI, or the empty string without a transport |
| ColocationNet.ColocationNetworkManager.OnServerAddPlayer | Assets/ColocationTemplate/Scripts/Server/ColocationNetworkManager.cs:30-40 | the player count grows by one, and advertising stops iff the count reached the cap |
| ColocationNet.ColocationNetworkManager.RequestLanConnection | Assets/ColocationTemplate/Scripts/Server/ColocationNetworkManager.cs:60-77 | a connected client ignores the request; otherwise a stale client is stopped and the client connects to the given address at the first frame the flag reads raised, never before |
| ColocationNet.ColocationNetworkManager.EnsureAlignmentBeforeConnecting | Assets/ColocationTemplate/Scripts/Server/ColocationNetworkManager.cs:81-89 | the connection starts at the first poll that finds the flag raised and never at an earlier one; without a raised flag nothing changes |
| ColocationNet.ColocationNetworkManager.ProcessRequestLanConnection | Assets/ColocationTemplate/Scripts/Server/ColocationNetworkManager.cs:91-96 | the client is active and aimed at the given address |
| LegacyColocation.LegacyColocationManager.constructor | Assets/CustomNetwork/Scripts/ColocationManager.cs:14-19 | a manager starts with the empty group id and nothing running |
| LegacyColocation.LegacyColocationManager.StartColocationSession | Assets/CustomNetwork/Scripts/ColocationManager.cs:36-43 | a client never advertises and changes nothing; a server proceeds iff the URI is non-empty, has a host and the platform started, and then encodes that host, takes the platform's group id, advertises and shares iff the single attempt succeeds; a server that does not proceed keeps its group id and advertising flag |
| LegacyColocation.LegacyColocationManager.AdvertiseColocationSession | Assets/CustomNetwork/Scripts/ColocationManager.cs:48-82 | advertising proceeds iff the URI is non-empty, has a host and the platform started the advertisement; then the metadata encodes that host and the anchor is shared iff the single attempt succeeds; otherwise nothing changes |
| LegacyColocation.LegacyColocationManager.CreateAndShareAlignmentAnchor | Assets/CustomNetwork/Scripts/ColocationManager.cs:87-125 | the anchor is shared iff it was created, localised, saved and shared in the one attempt |
| LegacyColocation.LegacyColocationManager.StopColocationAdvertisement | Assets/CustomNetwork/Scripts/ColocationManager.cs:151-169 | advertising has stopped |
| LegacyColocation.LegacyColocationManager.OnStartClient | Assets/CustomNetwork/Scripts/ColocationManager.cs:178-183 | a started client subscribes, and discovery and the pending fallback run iff the platform started discovery |
| LegacyColocation.LegacyColocationManager.DiscoverNearbySession | Assets/CustomNetwork/Scripts/ColocationManager.cs:188-200 | the handler is subscribed; discovery runs, with the fallback pending, iff the platform started it |
| LegacyColocation.LegacyColocationManager.DiscoveryFallback | Assets/CustomNetwork/Scripts/ColocationManager.cs:201-206 | LAN discovery starts exactly when a fallback was pending and no session set the group id, and then behaves as its start step on the current flag; otherwise it is untouched |
| LegacyColocation.LegacyColocationManager.OnColocationSessionDiscovered | Assets/CustomNetwork/Scripts/ColocationManager.cs:217-241 | the handler unsubscribes; metadata without an address part is dropped and changes nothing else; otherwise the group id is adopted and the flag is raised at once, before any anchor loads |
| LegacyColocation.LegacyColocationManager.StopColocationDiscovery | Assets/CustomNetwork/Scripts/ColocationManager.cs:247-261 | discovery has stopped and the handler is unsubscribed |
| LegacyColocation.LegacyColocationManager.LoadAndAlignToAnchor | Assets/CustomNetwork/Scripts/ColocationManager.cs:270-314 | the user is aligned to the first loaded anchor that localises; a failed or empty load, or none localising, leaves the rig as it was |
| CustomNet.CustomNetworkManager.constructor | Assets/Network/Scripts/CustomNetworkManager.cs:10-13 | the manager keeps the given network, flag, LAN discovery and colocation manager |
| CustomNet.CustomNetworkManager.OnStartServer | Assets/Network/Scripts/CustomNetworkManager.cs:20-25 | a started server advertises itself for LAN discovery |
| CustomNet.CustomNetworkManager.OnStartClient | Assets/Network/Scripts/CustomNetworkManager.cs:27-34 | a started client subscribes to colocation discovery, which runs iff the platform started it |
| CustomNet.CustomNetworkManager.OnServerAddPlayer | Assets/Network/Scripts/CustomNetworkManager.cs:40-50 | the player count grows by one, and advertising stops iff the count reached the cap |
| CustomNet.CustomNetworkManager.RequestLanConnection | Assets/Network/Scripts/CustomNetworkManager.cs:56-66 | any active client, connected or not, makes the request a no-op; otherwise the client connects to the given address at the first frame the flag reads raised, never before |
| CustomNet.CustomNetworkManager.EnsureAlignmentBeforeConnecting | Assets/Network/Scripts/CustomNetworkManager.cs:68-78 | the connection starts at the first poll that finds the flag raised and never at an earlier one; without a raised flag nothing changes |
| CustomNet.CustomNetworkManager.ProcessRequestLanConnection | Assets/Network/Scripts/CustomNetworkManager.cs:83-88 | the client is active and aimed at the given address |
| Lan.React | Assets/Network/Scripts/LANDiscovery.cs:60-111 | a server is reported iff a response arrives while searching, and the search then ends; a start while searching changes nothing, otherwise it marks the search and broadcasts iff colocation has not succeeded; a stop ends everything |
| Lan.OneServerPerSearch | Assets/Network/Scripts/LANDiscovery.cs:60-68 | over any sequence of events, servers reported plus a still-running search never exceed the searches started plus one already running |
| Lan.ColocatedStartsStayQuiet | Assets/Network/Scripts/LANDiscovery.cs:73-93 | when every start finds colocation already successful, discovery never broadcasts |
| Lan.LANDiscovery.constructor | Assets/Network/Scripts/LANDiscovery.cs:14-15 | a component starts neither searching, discovering nor advertising |
| Lan.LANDiscovery.ProcessRequest | Assets/Network/Scripts/LANDiscovery.cs:41-55 | the answer is the transport's URI, and "INVALID" (never null) without a manager or transport |
| Lan.LANDiscovery.GetLanServerUri | Assets/Network/Scripts/LANDiscovery.cs:116-120 | the transport's URI, or the empty string without a manager or transport |
| Lan.LANDiscovery.ProcessResponse | Assets/Network/Scripts/LANDiscovery.cs:60-68 | the component reacts to a response as React states |
| Lan.LANDiscovery.StartClientDiscoveryWithFallback | Assets/Network/Scripts/LANDiscovery.cs:73-93 | the component reacts to a start on the current flag as React states |
| Lan.LANDiscovery.StartHostAdvertisement | Assets/Network/Scripts/LANDiscovery.cs:98-101 | the server is advertising |
| Lan.LANDiscovery.StopDiscovery | Assets/Network/Scripts/LANDiscovery.cs:106-111 | searching and broadcasting have stopped |
| Net.ColocationFlag.constructor | Assets/ColocationTemplate/Scripts/Server/ColocationManager.cs:24 | the flag starts lowered |
| Net.ColocationFlag.Clear | Assets/ColocationTemplate/Scripts/Server/ColocationManager.cs:33-36 | the flag is lowered |
| Net.ColocationFlag.Raise | Assets/ColocationTemplate/Scripts/Server/ColocationManager.cs:212 | the flag is raised |
| Net.NetworkState.constructor | Assets/ColocationTemplate/Scripts/Server/ColocationNetworkManager.cs:33-35 | nothing runs, no players, the given cap |
| Net.NetworkState.StartClient | Assets/ColocationTemplate/Scripts/Server/ColocationNetworkManager.cs:95 | the client is active and the connected-implies-active invariant holds |
| Net.NetworkState.StopClient | Assets/ColocationTemplate/Scripts/Server/FullSceneResetManager.cs:56 | the client is neither active nor connected |
| Net.NetworkState.StopServer | Assets/ColocationTemplate/Scripts/Server/FullSceneResetManager.cs:51 | the server is stopped |
| Net.NetworkState.StopHost | Assets/ColocationTemplate/Scripts/Server/FullSceneResetManager.cs:46 | server and client are both stopped |
| Net.NetworkState.AddPlayer | Assets/ColocationTemplate/Scripts/Server/ColocationNetworkManager.cs:32 | the player count grows by one |
| Net.WaitForFlag | Assets/ColocationTemplate/Scripts/Server/ColocationNetworkManager.cs:84-85 | the wait ends at the first check that finds the flag raised, or after every check when none does, and no earlier check found it |
| GrabMenu.FindPrefab | Assets/ExampleAssets/Scripts/GrabMenuController.cs:25-30 | the first registered prefab with the requested name, None exactly when none has it |
| GrabMenu.Receive | Assets/ExampleAssets/Scripts/GrabMenuController.cs:41-55 | the assignment event fires iff the client knows the net id, and with that id |
| GrabMenu.Gate | Assets/ExampleAssets/Scripts/GrabMenuController.cs:11-65 | a car request is sent iff it comes through an open gate; setting the gate sets it; every request closes it |
| GrabMenu.CarRequestsNeedOpenings | Assets/ExampleAssets/Scripts/GrabMenuController.cs:58-65 | a client sends at most one car request per opening of the gate, plus one if it starts open |
| GrabMenu.ClosedGateSendsNoCar | Assets/ExampleAssets/Scripts/GrabMenuController.cs:58-65 | with the gate closed and never reopened, no car request is sent |
| GrabMenu.GrabMenuController.constructor | Assets/ExampleAssets/Scripts/GrabMenuController.cs:7-9 | the gate starts open, with no active car and nothing spawned |
| GrabMenu.GrabMenuController.SetCanSpawn | Assets/ExampleAssets/Scripts/GrabMenuController.cs:11-14 | the gate takes the given value |
| GrabMenu.GrabMenuController.RequestSpawnObject | Assets/ExampleAssets/Scripts/GrabMenuController.cs:16-20 | the request is always sent and the gate closes |
| GrabMenu.GrabMenuController.RequestSpawnCar | Assets/ExampleAssets/Scripts/GrabMenuController.cs:58-65 | the request is sent iff the gate was open, and the gate closes |
| GrabMenu.GrabMenuController.CmdSpawnObject | Assets/ExampleAssets/Scripts/GrabMenuController.cs:22-37 | an object is spawned iff the name is registered, under a fresh net id that is sent back; the registry otherwise changes by that object only |
| GrabMenu.GrabMenuController.CmdSetActiveCar | Assets/ExampleAssets/Scripts/GrabMenuController.cs:67-98 | the previous car is destroyed even for an unknown name; a registered name spawns a fresh car that becomes the active one, with the sender as driver iff it has a vehicle controller |
| GrabMenu.GrabMenuController.AtMostOneLiveCar | Assets/ExampleAssets/Scripts/GrabMenuController.cs:70-94 | at most one car spawned through the menu is alive |

## Left out

- Engine, network library and headset platform: Mirror's message delivery, spawning, SyncVars and start/stop calls are reduced to the fields they set. The headset platform's advertisement, discovery, anchor creation, save, share, load, localise and bind calls become given answers. DNS and `System.Uri` are given too. Platform stop calls are taken to succeed.
- Timing: `async`/`await`, coroutines, `Task.Delay`, `Task.Yield` and frame yields are left out. A coroutine's wait is a loop over the flag values its checks see, and the first check happens when the coroutine starts. Interleavings of concurrent tasks are not modelled.
- LegacyColocation.LegacyColocationManager.DiscoverNearbySession: the 100-second discovery wait is not modelled. The check that follows the wait is the separate step `DiscoveryFallback`, so what else happens during the wait is not captured.
- Origin.MovableOrigin.CmdCommitPlacement: the half-second delay before the marker reset is not modelled. The reset is the separate step `ResetMarker`.
- Floating point: positions, times and angles are reals. `Mathf.Approximately(x, 0)` is `x == 0`.
- Rotations: in general a rotation is abstract, with only normalisation and slerp's end points and unit-preserving property. Alignment uses yaw-only unit `(cos, sin)` pairs. Euler angles, `Atan2`, `LookRotation`, `DeltaAngle`'s internals and `InverseTransformPoint` beyond unit-scale frames are not modelled.
- Distances that need a square root are inputs, tied to the positions by their squares.
- Vehicle physics, visuals and audio in `ArcadeVehicleController` are not part of this model: forces, torque, ground raycasts and friction curves. Only the driver identity, the input and transform receivers, `Update` and the send-queue tail of `FixedUpdate` are modelled. The vehicle's send interval is the value it takes at start.
- Logging (`Debug.Log*`) is not modelled.
- Text encoding: UTF-8 encoding and decoding of the payload are taken as the identity on strings.
- Kcp.HostOf: a small parser for `scheme://host[:port][/path]` stands in for `new Uri(s).Host`. IPv6 literals, user info and the other URI forms .NET accepts are not modelled.
- Colocation.ColocationManager.CreateAndShareAlignmentAnchor: takes the platform's answers to all ten attempts up front, so it requires exactly ten. The one-second pause between attempts is not modelled. The anchor creation in the template never yields a missing anchor, so only localised, saved and shared are distinguished. The template tests `!anchor.Localized` twice in a row, and the second test can never fire.
- LegacyColocation.LegacyColocationManager.CreateAndShareAlignmentAnchor: in the source a failed anchor creation is logged but the method goes on. The next line dereferences the missing anchor, and the method's own `catch` swallows the exception. The model returns "not shared" directly, which has the same outcome.
- LegacyColocation.LegacyColocationManager.AdvertiseColocationSession: the older code tests the URI with an emptiness test, not a whitespace test. A URI of blanks therefore reaches the URI parse and fails there. The model shows this through `Kcp.HostOf`, and `Payload.WhiteSpaceRejectsMore` states the difference.
- Flag timing in the older generation: the code raises the colocation flag as soon as a session is discovered, before its anchors are loaded and the user is aligned. The model follows the code. The current generation raises the flag right after `AlignUserToAnchor` returns. That call only starts the alignment coroutine, whose second pass moves the rig a frame later, so the flag is up before the rig is aligned. `Colocation.ColocationManager.LoadAndAlignToAnchor` runs the coroutine to its end inside the call: its ensures describe the state once the coroutine has finished, with the flag raised, and not the frame in which the flag goes up.
- Entry wrappers: several source methods only forward to a modelled operation, so they have no members of their own:
  - the current `ColocationManager.StartColocationSession` and `StartColocationDiscovery`;
  - `ColocationNetworkManager.OnStartServer` and `OnStartClient`;
  - the older `ColocationManager.OnStartServer`.
- `CreateAnchor`, the platform's anchor creation, is part of the attempt outcomes.
- Full reset: `Reset.FullSceneResetManager.ResetAndReload` records the colocation stops as steps of its plan. It does not call into the colocation manager object. Scene loading is the plan's final step.
- Net.NetworkState.StopServer: stopping the server leaves a started client running. A client that has not connected yet, beside a server, is still active after the reset's server shutdown.
- GrabMenu: `NetworkServer.Spawn`/`Destroy` become a registry of live objects keyed by increasing net ids. The client-side `OnLocal*Assigned` events are the result of `GrabMenu.Receive`.
- GrabBridge.GrabNetTransformBridge methods require a controller: the source dereferences it without a null check outside `Update`.
- Alignment.AlignmentManager.AlignUserToAnchor: does not depend on `hasRig`. Without a camera rig the source's `Awake` and the coroutine throw on the missing transform; the model moves the rig as if one had been found.
- TwoSteering.TwoSteeringNetTransformer.UpdateTransform requires a grab-point count other than one, because the source reads the second grab point whenever there are any.
- UI, hand-interaction and audio scripts are outside this model, as are the thin transformer wrappers and the singleton reference lookups. They delegate to library code and have no logic of their own.
