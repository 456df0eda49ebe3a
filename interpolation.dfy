/** The receiver-side interpolation used by every synchronised object: a
    single start→target segment, a timer that restarts when a new target
    arrives, and the factor t = clamp01(timer / interval). */
module Interpolation {
  import opened Geometry

  /** Mathf.Clamp01. */
  function Clamp01(x: real): (r: real)
    ensures 0.0 <= r <= 1.0
    ensures 0.0 <= x <= 1.0 ==> r == x
  {
    if x < 0.0 then 0.0 else if x > 1.0 then 1.0 else x
  }

  /** Mathf.Clamp. */
  function Clamp(x: real, lo: real, hi: real): (r: real)
    requires lo <= hi
    ensures lo <= r <= hi
    ensures lo <= x <= hi ==> r == x
  {
    if x < lo then lo else if x > hi then hi else x
  }

  /** The interpolation factor after `timer` seconds of an `interval`-long segment. */
  function Factor(timer: real, interval: real): (t: real)
    requires interval > 0.0
  {
    Clamp01(timer / interval)
  }

  /** Mathf.Lerp (its factor is clamped to [0, 1]). */
  function Lerp(a: real, b: real, t: real): real {
    a + (b - a) * Clamp01(t)
  }

  /** Vector3.Lerp (its factor is clamped to [0, 1]). */
  function LerpVec(a: Vec3, b: Vec3, t: real): Vec3 {
    Vec3(Lerp(a.x, b.x, t), Lerp(a.y, b.y, t), Lerp(a.z, b.z, t))
  }

  function Min(a: real, b: real): real { if a <= b then a else b }

  function Max(a: real, b: real): real { if a <= b then b else a }

  /** The factor never leaves [0, 1], is 0 at the start of a segment and 1
      from the end of the interval on. */
  lemma FactorRange(timer: real, interval: real)
    requires interval > 0.0
    ensures 0.0 <= Factor(timer, interval) <= 1.0
    ensures timer <= 0.0 ==> Factor(timer, interval) == 0.0
    ensures timer >= interval ==> Factor(timer, interval) == 1.0
  {
    if timer >= interval {
      assert timer / interval >= interval / interval;
    }
    if timer <= 0.0 {
      assert timer / interval <= 0.0;
    }
  }

  /** A later timer never gives a smaller factor: the receiver only moves
      forward along its segment. */
  lemma FactorMonotonic(t1: real, t2: real, interval: real)
    requires interval > 0.0 && t1 <= t2
    ensures Factor(t1, interval) <= Factor(t2, interval)
  {
    assert t1 / interval <= t2 / interval;
  }

  /** No overshoot: an interpolated value lies between the segment's ends. */
  lemma LerpBetween(a: real, b: real, t: real)
    ensures Min(a, b) <= Lerp(a, b, t) <= Max(a, b)
  {
    var k := Clamp01(t);
    var d := b - a;
    assert Lerp(a, b, t) == a + d * k;
    if d >= 0.0 {
      MulNonneg(d, k);
      MulNonneg(d, 1.0 - k);
      assert d * (1.0 - k) == d - d * k;
    } else {
      MulNonneg(-d, k);
      MulNonneg(-d, 1.0 - k);
      assert (-d) * (1.0 - k) == d * k - d;
      assert (-d) * k == -(d * k);
    }
  }

  lemma MulNonneg(x: real, y: real)
    requires x >= 0.0 && y >= 0.0
    ensures x * y >= 0.0
  {
  }

  /** The ends of a segment are reached exactly. */
  lemma LerpEnds(a: Vec3, b: Vec3, t: real)
    ensures t <= 0.0 ==> LerpVec(a, b, t) == a
    ensures t >= 1.0 ==> LerpVec(a, b, t) == b
  {
  }

  /** Once the timer has run a whole interval the receiver sits exactly on
      the target (position and rotation), whatever the start was. */
  lemma SegmentCompletes(startPos: Vec3, targetPos: Vec3, startRot: Rotation, targetRot: Rotation,
                         timer: real, interval: real)
    requires interval > 0.0 && timer >= interval
    ensures LerpVec(startPos, targetPos, Factor(timer, interval)) == targetPos
    ensures Slerp(startRot, targetRot, Factor(timer, interval)) == targetRot
  {
    FactorRange(timer, interval);
  }
}
