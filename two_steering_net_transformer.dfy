/** Two-hand steering of the car (TwoSteeringNetTransformer): the wheel
    follows the centroid of the hands, its angle follows the hands' rotation
    at no more than 15° per frame and within ±110°, and the throttle follows
    the wheel's distance from the chest relative to the longest arm length
    seen so far, through a piecewise-linear curve. Angles and distances
    measured by the engine (Atan2 of the hand direction, the look rotation)
    are inputs; distances are tied to positions by their squares. */
module TwoSteering {
  import opened Basics
  import opened Geometry
  import opened Interpolation
  import SteeringBridge
  import SteeringInput
  import SyncQueue
  import Vehicle

  const MaxSteeringAngle: real := 110.0
  const MaxDeltaPerStep: real := 15.0
  const InitialArmLength: real := 0.6

  // ---------------------------------------------------------------------
  // The throttle curve
  // ---------------------------------------------------------------------

  /** Throttle from the chest-distance ratio: full reverse up to 0.45, a ramp
      to 0 at 0.55, a dead zone up to 0.575, a ramp to full forward at 0.85. */
  function Throttle(ratio: real): (t: real)
    ensures -1.0 <= t <= 1.0
    ensures ratio <= 0.45 ==> t == -1.0
    ensures 0.55 < ratio <= 0.575 ==> t == 0.0
    ensures ratio > 0.85 ==> t == 1.0
  {
    if ratio <= 0.45 then -1.0
    else if ratio > 0.45 && ratio <= 0.55 then -1.0 + ((ratio - 0.45) / 0.1)
    else if ratio > 0.55 && ratio <= 0.575 then 0.0
    else if ratio > 0.575 && ratio <= 0.85 then (ratio - 0.575) / 0.275
    else 1.0
  }

  /** The curve never decreases and never rises faster than its steepest
      ramp (slope 10); so it is continuous, in particular at the breakpoints
      0.45, 0.55, 0.575 and 0.85. */
  lemma ThrottleMonotoneLipschitz(a: real, b: real)
    requires a <= b
    ensures Throttle(a) <= Throttle(b)
    ensures Throttle(b) - Throttle(a) <= 10.0 * (b - a)
  {
    if a <= 0.45 {
    } else if a <= 0.55 {
      if b > 0.55 {
        assert Throttle(a) <= 0.0 && Throttle(a) == -1.0 + (a - 0.45) / 0.1;
        if b > 0.575 && b <= 0.85 {
          assert (b - 0.575) / 0.275 <= 10.0 * (b - 0.55);
        }
      }
    } else if a <= 0.575 {
      if b > 0.575 && b <= 0.85 {
        assert (b - 0.575) / 0.275 <= 10.0 * (b - 0.575);
      }
    } else if a <= 0.85 {
      if b <= 0.85 {
        assert (b - 0.575) / 0.275 - (a - 0.575) / 0.275 == (b - a) / 0.275;
      } else {
        assert 1.0 - (a - 0.575) / 0.275 == (0.85 - a) / 0.275;
      }
    }
  }

  /** Continuity spelled out: a ratio within 0.1·ε of a breakpoint gives a
      throttle within ε of the value at the breakpoint. */
  lemma ThrottleContinuous(r: real, x: real, eps: real)
    requires eps > 0.0 && -eps / 10.0 <= x - r <= eps / 10.0
    ensures -eps <= Throttle(x) - Throttle(r) <= eps
  {
    if r <= x {
      ThrottleMonotoneLipschitz(r, x);
    } else {
      ThrottleMonotoneLipschitz(x, r);
    }
  }

  // ---------------------------------------------------------------------
  // The steering step
  // ---------------------------------------------------------------------

  /** Mathf.Repeat(t, 360): t wrapped into [0, 360]. */
  function Repeat360(t: real): (r: real)
    ensures 0.0 <= r <= 360.0
  {
    Clamp(t - ((t / 360.0).Floor as real) * 360.0, 0.0, 360.0)
  }

  /** Mathf.DeltaAngle: the signed difference of two angles, wrapped into
      (-180, 180]. */
  function DeltaAngle(current: real, target: real): (d: real)
    ensures -180.0 < d <= 180.0
  {
    var r := Repeat360(target - current);
    if r > 180.0 then r - 360.0 else r
  }

  /** One frame of CalculateSteeringInput: a zero angle snaps to the
      measured one, then the angle moves towards the measurement by at most
      15° and is clamped to ±110°. */
  function SteerStep(cumulative: real, current: real): (r: real)
    ensures -MaxSteeringAngle <= r <= MaxSteeringAngle
    ensures var from := if cumulative == 0.0 then current else cumulative;
      -MaxSteeringAngle <= from <= MaxSteeringAngle ==> -MaxDeltaPerStep <= r - from <= MaxDeltaPerStep
  {
    var from := if cumulative == 0.0 then current else cumulative;
    var delta := Clamp(DeltaAngle(from, current), -MaxDeltaPerStep, MaxDeltaPerStep);
    Clamp(from + delta, -MaxSteeringAngle, MaxSteeringAngle)
  }

  /** The steering value handed to the input manager lies in [-1, 1]. */
  lemma SteeringValueInRange(cumulative: real)
    requires -MaxSteeringAngle <= cumulative <= MaxSteeringAngle
    ensures -1.0 <= cumulative / MaxSteeringAngle <= 1.0
  {
  }

  /** A steady hand is followed: with the wheel already inside the range and
      within 15° of the measured angle, the wheel lands exactly on it. */
  lemma SteerStepReachesSteadyAngle(cumulative: real, current: real)
    requires cumulative != 0.0
    requires -MaxSteeringAngle <= current <= MaxSteeringAngle
    requires -MaxDeltaPerStep <= current - cumulative <= MaxDeltaPerStep
    ensures SteerStep(cumulative, current) == current
  {
    var d := current - cumulative;
    var q := (d / 360.0).Floor;
    if d >= 0.0 {
      assert q == 0;
      assert Repeat360(d) == d;
    } else {
      assert q == -1;
      assert Repeat360(d) == d + 360.0;
    }
    assert DeltaAngle(cumulative, current) == d;
  }

  // ---------------------------------------------------------------------
  // Centroid of the grab points
  // ---------------------------------------------------------------------

  function Sum(ps: seq<Vec3>): Vec3
    decreases |ps|
  {
    if ps == [] then Zero else Add(Sum(ps[..|ps| - 1]), ps[|ps| - 1])
  }

  function Coord(v: Vec3, k: nat): real
    requires k < 3
  {
    if k == 0 then v.x else if k == 1 then v.y else v.z
  }

  /** The mean of the grab points (Vector3 divided by the count). */
  function Centroid(ps: seq<Vec3>): Vec3
    requires |ps| > 0
  {
    var s := Sum(ps);
    var n := |ps| as real;
    Vec3(s.x / n, s.y / n, s.z / n)
  }

  /** n copies of x added up (n·x without a multiplication). */
  function Times(n: nat, x: real): real {
    if n == 0 then 0.0 else Times(n - 1, x) + x
  }

  lemma {:induction false} TimesIsProduct(n: nat, x: real)
    ensures Times(n, x) == (n as real) * x
  {
    if n > 0 {
      TimesIsProduct(n - 1, x);
      assert (n as real) * x == ((n - 1) as real) * x + x;
    }
  }

  lemma {:induction false} SumBounds(ps: seq<Vec3>, k: nat, lo: real, hi: real)
    requires k < 3
    requires forall i :: 0 <= i < |ps| ==> lo <= Coord(ps[i], k) <= hi
    ensures Times(|ps|, lo) <= Coord(Sum(ps), k) <= Times(|ps|, hi)
    decreases |ps|
  {
    if ps != [] {
      var init := ps[..|ps| - 1];
      forall i | 0 <= i < |init| ensures lo <= Coord(init[i], k) <= hi {
        assert init[i] == ps[i];
      }
      SumBounds(init, k, lo, hi);
      assert Coord(Sum(ps), k) == Coord(Sum(init), k) + Coord(ps[|ps| - 1], k);
    }
  }

  lemma SignOfProduct(x: real, n: real)
    requires n > 0.0 && x * n >= 0.0
    ensures x >= 0.0
  {
  }

  lemma DivBounds(s: real, n: real, lo: real, hi: real)
    requires n > 0.0 && n * lo <= s <= n * hi
    ensures lo <= s / n <= hi
  {
    var q := s / n;
    assert q * n == s;
    assert (q - lo) * n == s - n * lo;
    SignOfProduct(q - lo, n);
    assert (hi - q) * n == n * hi - s;
    SignOfProduct(hi - q, n);
  }

  /** A coordinate of the centroid lies between bounds that hold for that
      coordinate of every grab point. */
  lemma CentroidCoordInRange(ps: seq<Vec3>, k: nat, lo: real, hi: real)
    requires |ps| > 0 && k < 3
    requires forall i :: 0 <= i < |ps| ==> lo <= Coord(ps[i], k) <= hi
    ensures lo <= Coord(Centroid(ps), k) <= hi
  {
    var n := |ps| as real;
    var s := Coord(Sum(ps), k);
    SumBounds(ps, k, lo, hi);
    TimesIsProduct(|ps|, lo);
    TimesIsProduct(|ps|, hi);
    assert n * lo <= s <= n * hi;
    DivBounds(s, n, lo, hi);
  }

  /** The centroid lies in every axis-aligned box that holds all grab points. */
  lemma CentroidInBox(ps: seq<Vec3>, lo: Vec3, hi: Vec3)
    requires |ps| > 0
    requires forall i :: 0 <= i < |ps| ==>
      lo.x <= ps[i].x <= hi.x && lo.y <= ps[i].y <= hi.y && lo.z <= ps[i].z <= hi.z
    ensures var c := Centroid(ps);
      lo.x <= c.x <= hi.x && lo.y <= c.y <= hi.y && lo.z <= c.z <= hi.z
  {
    CentroidCoordInRange(ps, 0, lo.x, hi.x);
    CentroidCoordInRange(ps, 1, lo.y, hi.y);
    CentroidCoordInRange(ps, 2, lo.z, hi.z);
  }

  /** GetCentroid: sum the positions in a loop, then divide by the count. */
  method GetCentroid(poses: seq<Vec3>) returns (c: Vec3)
    requires |poses| > 0
    ensures c == Centroid(poses)
  {
    var sum := Zero;
    var i := 0;
    while i < |poses|
      invariant 0 <= i <= |poses|
      invariant sum == Sum(poses[..i])
    {
      assert poses[..i + 1][..i] == poses[..i];
      sum := Add(sum, poses[i]);
      i := i + 1;
    }
    assert poses[..i] == poses;
    var n := |poses| as real;
    c := Vec3(sum.x / n, sum.y / n, sum.z / n);
  }

  function SqDist(a: Vec3, b: Vec3): real {
    (a.x - b.x) * (a.x - b.x) + (a.y - b.y) * (a.y - b.y) + (a.z - b.z) * (a.z - b.z)
  }

  // ---------------------------------------------------------------------
  // The transformer
  // ---------------------------------------------------------------------

  class TwoSteeringNetTransformer {
    var cumulativeRotation: real
    var firstPoseIndex: nat
    var throttleInput: real
    var armLength: real
    /** Whether the chest bone has been found. */
    var hasBone: bool
    // the grabbed wheel's transform and the container's local z angle
    var wheelPos: Vec3
    var wheelRot: Rotation
    var containerAngle: real

    const isOwned: bool
    const bridge: SteeringBridge.SteeringNetTransformBridge
    const inputManager: SteeringInput.SteeringInputManager

    ghost predicate Valid() reads this {
      -MaxSteeringAngle <= cumulativeRotation <= MaxSteeringAngle
      && -1.0 <= throttleInput <= 1.0
      && armLength >= InitialArmLength
      && firstPoseIndex <= 1
    }

    constructor (isOwned: bool, bridge: SteeringBridge.SteeringNetTransformBridge,
                 inputManager: SteeringInput.SteeringInputManager)
      ensures Valid() && this.isOwned == isOwned && this.bridge == bridge && this.inputManager == inputManager
      ensures cumulativeRotation == 0.0 && throttleInput == 0.0 && armLength == InitialArmLength
      ensures firstPoseIndex == 0 && !hasBone
    {
      this.isOwned := isOwned;
      this.bridge := bridge;
      this.inputManager := inputManager;
      cumulativeRotation := 0.0;
      firstPoseIndex := 0;
      throttleInput := 0.0;
      armLength := InitialArmLength;
      hasBone := false;
      wheelPos := Zero;
      wheelRot := IdentityRotation;
      containerAngle := 0.0;
    }

    /** A grab starts: look the bone up if needed, zero the angle and the
        throttle if it is known, and take as first grab point the one
        strictly nearer the right hand. `boneFound` is the result of the
        bone lookup. */
    method BeginTransform(boneFound: bool, grabPoints: seq<Vec3>, rightHand: Vec3)
      requires Valid() && (isOwned ==> |grabPoints| >= 2)
      modifies this`hasBone, this`cumulativeRotation, this`throttleInput, this`firstPoseIndex
      ensures Valid()
      ensures !isOwned ==>
        hasBone == old(hasBone) && cumulativeRotation == old(cumulativeRotation)
        && throttleInput == old(throttleInput) && firstPoseIndex == old(firstPoseIndex)
      ensures isOwned ==> hasBone == (old(hasBone) || boneFound)
      ensures isOwned && hasBone ==> cumulativeRotation == 0.0 && throttleInput == 0.0
      ensures isOwned && !hasBone ==>
        cumulativeRotation == old(cumulativeRotation) && throttleInput == old(throttleInput)
      ensures isOwned ==>
        (firstPoseIndex == 0 <==> SqDist(grabPoints[0], rightHand) < SqDist(grabPoints[1], rightHand))
    {
      if !isOwned {
        return;
      }
      if !hasBone {
        hasBone := boneFound;
      }
      if hasBone {
        cumulativeRotation := 0.0;
        throttleInput := 0.0;
      }
      firstPoseIndex := if SqDist(grabPoints[0], rightHand) < SqDist(grabPoints[1], rightHand) then 0 else 1;
    }

    /** CalculateSteeringInput, given the measured hand angle (Atan2 of the
        hands' direction in the wheel's frame, in degrees). */
    method CalculateSteeringInput(current: real)
      requires Valid()
      modifies this`cumulativeRotation, this`containerAngle
      ensures Valid()
      ensures cumulativeRotation == SteerStep(old(cumulativeRotation), current)
      ensures containerAngle == cumulativeRotation
    {
      if cumulativeRotation == 0.0 {
        cumulativeRotation := current;
      }
      var delta := Clamp(DeltaAngle(cumulativeRotation, current), -MaxDeltaPerStep, MaxDeltaPerStep);
      cumulativeRotation := Clamp(cumulativeRotation + delta, -MaxSteeringAngle, MaxSteeringAngle);
      containerAngle := cumulativeRotation;
    }

    /** CalculateThrottleInput, given the wheel-to-chest distance: the
        throttle is read off the curve at distance / armLength, and the arm
        length grows to the distance when it is exceeded. */
    method CalculateThrottleInput(distanceToChest: real)
      requires Valid() && distanceToChest >= 0.0
      modifies this`throttleInput, this`armLength
      ensures Valid()
      ensures throttleInput == Throttle(distanceToChest / old(armLength))
      ensures armLength == Max(old(armLength), distanceToChest)
    {
      var ratio := distanceToChest / armLength;
      throttleInput := Throttle(ratio);
      if distanceToChest > armLength {
        armLength := distanceToChest;
      }
    }

    /** One frame of a held wheel. The engine's measurements are inputs:
        `facing` is the look rotation towards the chest, `container` the
        steering container's world pose, `current` the hand angle and
        `distanceToChest` the distance from the new wheel position to the
        chest. `car` is the controlled car's vehicle controller, if any. */
    method UpdateTransform(grabPoints: seq<Vec3>, chest: Vec3, facing: Rotation, container: Pose,
                           current: real, distanceToChest: real, car: Vehicle.ArcadeVehicleController?)
      requires Valid() && |grabPoints| != 1
      requires distanceToChest >= 0.0
      requires |grabPoints| > 0 ==> distanceToChest * distanceToChest == SqDist(Centroid(grabPoints), chest)
      modifies this`wheelPos, this`wheelRot, this`cumulativeRotation, this`containerAngle,
        this`throttleInput, this`armLength
      modifies bridge`hasQueuedUpdate, bridge`queued
      modifies inputManager`queued, inputManager`hasQueuedUpdate, {car}`inputs
      ensures Valid()
      ensures !hasBone || |grabPoints| == 0 || !isOwned ==>
        wheelPos == old(wheelPos) && cumulativeRotation == old(cumulativeRotation)
        && throttleInput == old(throttleInput) && armLength == old(armLength)
        && bridge.Pending() == old(bridge.Pending()) && inputManager.Pending() == old(inputManager.Pending())
        && wheelRot == old(wheelRot) && containerAngle == old(containerAngle)
        && (car != null ==> car.inputs == old(car.inputs))
      ensures hasBone && |grabPoints| > 0 && isOwned ==>
        wheelPos == Centroid(grabPoints) && wheelRot == facing
        && cumulativeRotation == SteerStep(old(cumulativeRotation), current)
        && containerAngle == cumulativeRotation
        && throttleInput == Throttle(distanceToChest / old(armLength))
        && armLength == Max(old(armLength), distanceToChest)
        && (bridge.netController != null ==> bridge.Pending() == SyncQueue.Offer(old(bridge.Pending()), container))
        && (bridge.netController == null ==> bridge.Pending() == old(bridge.Pending()))
        && (inputManager.isOwned && inputManager.controlledCarNetId != 0 ==>
              inputManager.Pending() == SyncQueue.Offer(old(inputManager.Pending()),
                Vehicle.Inputs(cumulativeRotation / MaxSteeringAngle, throttleInput,
                  SteeringInput.Brake(cumulativeRotation / MaxSteeringAngle, throttleInput)))
              && -1.0 <= inputManager.queued.steering <= 1.0)
        && (!inputManager.isOwned || inputManager.controlledCarNetId == 0 ==>
              inputManager.Pending() == old(inputManager.Pending()))
        && (car != null && car.IAmDriver() && inputManager.isOwned && inputManager.controlledCarNetId != 0 ==>
              car.inputs == inputManager.queued)
        && (car != null && (!car.IAmDriver() || !inputManager.isOwned || inputManager.controlledCarNetId == 0) ==>
              car.inputs == old(car.inputs))
    {
      if !hasBone || |grabPoints| == 0 || !isOwned {
        return;
      }
      var grabPosition := GetCentroid(grabPoints);
      wheelPos := grabPosition;
      wheelRot := facing;
      bridge.UpdateTransformFromTransformer(container.pos, container.rot);
      CalculateSteeringInput(current);
      CalculateThrottleInput(distanceToChest);
      SteeringValueInRange(cumulativeRotation);
      inputManager.SetInput(cumulativeRotation / MaxSteeringAngle, throttleInput, car);
    }

    /** The grab ends: the wheel goes back to straight, throttle to zero and
        the arm length to its initial value, and a neutral input is sent. */
    method EndTransform(car: Vehicle.ArcadeVehicleController?)
      requires Valid()
      modifies this`containerAngle, this`cumulativeRotation, this`throttleInput, this`armLength
      modifies inputManager`queued, inputManager`hasQueuedUpdate, {car}`inputs
      ensures Valid()
      ensures !isOwned ==>
        containerAngle == old(containerAngle)
        && cumulativeRotation == old(cumulativeRotation) && throttleInput == old(throttleInput)
        && armLength == old(armLength) && inputManager.Pending() == old(inputManager.Pending())
        && (car != null ==> car.inputs == old(car.inputs))
      ensures isOwned ==>
        containerAngle == 0.0 && cumulativeRotation == 0.0 && throttleInput == 0.0
        && armLength == InitialArmLength
      ensures isOwned ==>
        inputManager.Pending()
          == if inputManager.isOwned && inputManager.controlledCarNetId != 0
             then SyncQueue.Offer(old(inputManager.Pending()), Vehicle.Parked)
             else old(inputManager.Pending())
      ensures var sent := isOwned && inputManager.isOwned && inputManager.controlledCarNetId != 0;
        car != null && sent && car.IAmDriver() ==> car.inputs == Vehicle.Parked
      ensures var sent := isOwned && inputManager.isOwned && inputManager.controlledCarNetId != 0;
        car != null && !(sent && car.IAmDriver()) ==> car.inputs == old(car.inputs)
    {
      if !isOwned {
        return;
      }
      containerAngle := 0.0;
      cumulativeRotation := 0.0;
      throttleInput := 0.0;
      armLength := InitialArmLength;
      inputManager.SetInput(cumulativeRotation / MaxSteeringAngle, throttleInput, car);
    }
  }
}
