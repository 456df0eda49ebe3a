/** Vectors, rotations and gravity-aligned rigid frames.

    Positions are exact real 3-vectors. General quaternions are kept abstract
    (`Rotation`): the model never looks inside one, it only tracks whether a
    value has been normalised and which two rotations a slerp lies between.
    Rotations about the up (y) axis, which is all the frame-alignment code
    ever applies to the rig, are modelled concretely as a `Yaw(c, s)` pair
    standing for (cos, sin) of the angle, so no trigonometry is needed. */
module Geometry {

  datatype Vec3 = Vec3(x: real, y: real, z: real)

  const Zero: Vec3 := Vec3(0.0, 0.0, 0.0)

  function Add(u: Vec3, v: Vec3): Vec3 { Vec3(u.x + v.x, u.y + v.y, u.z + v.z) }

  function Sub(u: Vec3, v: Vec3): Vec3 { Vec3(u.x - v.x, u.y - v.y, u.z - v.z) }

  function Neg(v: Vec3): Vec3 { Vec3(-v.x, -v.y, -v.z) }

  function Scale(v: Vec3, k: real): Vec3 { Vec3(v.x * k, v.y * k, v.z * k) }

  // ---------------------------------------------------------------------
  // Abstract quaternions
  // ---------------------------------------------------------------------

  /** A quaternion seen from outside: an orientation (identified by an id,
      with a flag saying whether its components have unit length) or the
      slerp of two rotations at a factor strictly between 0 and 1. */
  datatype Rotation =
    | Orientation(id: int, unit: bool)
    | Blend(from: Rotation, to: Rotation, t: real)

  const IdentityRotation: Rotation := Orientation(0, true)

  /** default(Quaternion): all four components zero, so not a unit rotation.
      A quaternion field that is never assigned holds this value. */
  const ZeroRotation: Rotation := Orientation(-1, false)

  predicate IsUnit(q: Rotation) {
    match q
    case Orientation(_, u) => u
    case Blend(a, b, _) => IsUnit(a) && IsUnit(b)
  }

  /** Quaternion.Normalize: the same orientation with unit length; the
      all-zero quaternion, which has no direction, becomes the identity. */
  function Normalize(q: Rotation): (r: Rotation)
    ensures IsUnit(r)
    ensures q == ZeroRotation ==> r == IdentityRotation
  {
    match q
    case Orientation(l, u) => if q == ZeroRotation then IdentityRotation else Orientation(l, true)
    case Blend(a, b, t) => Blend(Normalize(a), Normalize(b), t)
  }

  /** Normalising a unit rotation changes nothing, so normalising is idempotent. */
  lemma {:induction false} NormalizeUnit(q: Rotation)
    requires IsUnit(q)
    ensures Normalize(q) == q
  {
    match q
    case Orientation(_, _) =>
    case Blend(a, b, _) =>
      NormalizeUnit(a);
      NormalizeUnit(b);
  }

  lemma NormalizeIdempotent(q: Rotation)
    ensures Normalize(Normalize(q)) == Normalize(q)
  {
    NormalizeUnit(Normalize(q));
  }

  /** Quaternion.Slerp with its factor clamped to [0, 1]: the end points are
      returned exactly, anything in between is a blend of the two. */
  function Slerp(a: Rotation, b: Rotation, t: real): (r: Rotation)
    ensures t <= 0.0 ==> r == a
    ensures t >= 1.0 ==> r == b
    ensures IsUnit(a) && IsUnit(b) ==> IsUnit(r)
  {
    if t <= 0.0 then a else if t >= 1.0 then b else Blend(a, b, t)
  }

  /** A position and rotation, as a transform carries them. */
  datatype Pose = Pose(pos: Vec3, rot: Rotation)

  // ---------------------------------------------------------------------
  // Rotations about the up axis
  // ---------------------------------------------------------------------

  /** The rotation by angle θ about +y, as (cos θ, sin θ). */
  datatype Yaw = Yaw(c: real, s: real)

  const NoYaw: Yaw := Yaw(1.0, 0.0)

  predicate IsUnitYaw(r: Yaw) { r.c * r.c + r.s * r.s == 1.0 }

  /** Rotating a vector about +y (Unity's left-handed convention). */
  function Apply(r: Yaw, v: Vec3): (w: Vec3)
    ensures w.y == v.y
  {
    Vec3(r.c * v.x + r.s * v.z, v.y, r.c * v.z - r.s * v.x)
  }

  /** Rotation by -θ. */
  function Inverse(r: Yaw): Yaw { Yaw(r.c, -r.s) }

  /** Rotation a after rotation b (the quaternion product a * b). */
  function Compose(a: Yaw, b: Yaw): Yaw {
    Yaw(a.c * b.c - a.s * b.s, a.s * b.c + a.c * b.s)
  }

  lemma ApplyAdd(r: Yaw, u: Vec3, v: Vec3)
    ensures Apply(r, Add(u, v)) == Add(Apply(r, u), Apply(r, v))
  {
    assert r.c * (u.x + v.x) == r.c * u.x + r.c * v.x;
    assert r.s * (u.z + v.z) == r.s * u.z + r.s * v.z;
    assert r.c * (u.z + v.z) == r.c * u.z + r.c * v.z;
    assert r.s * (u.x + v.x) == r.s * u.x + r.s * v.x;
  }

  lemma ApplySub(r: Yaw, u: Vec3, v: Vec3)
    ensures Apply(r, Sub(u, v)) == Sub(Apply(r, u), Apply(r, v))
  {
    assert r.c * (u.x - v.x) == r.c * u.x - r.c * v.x;
    assert r.s * (u.z - v.z) == r.s * u.z - r.s * v.z;
    assert r.c * (u.z - v.z) == r.c * u.z - r.c * v.z;
    assert r.s * (u.x - v.x) == r.s * u.x - r.s * v.x;
  }

  /** Applying a composite rotation is applying its parts in turn. */
  lemma ApplyCompose(a: Yaw, b: Yaw, v: Vec3)
    ensures Apply(Compose(a, b), v) == Apply(a, Apply(b, v))
  {
    var w := Apply(b, v);
    assert a.c * w.x + a.s * w.z
        == (a.c * b.c - a.s * b.s) * v.x + (a.s * b.c + a.c * b.s) * v.z;
    assert a.c * w.z - a.s * w.x
        == (a.c * b.c - a.s * b.s) * v.z - (a.s * b.c + a.c * b.s) * v.x;
  }

  /** The inverse of a unit yaw undoes it, as a rotation and on vectors. */
  lemma InverseCancels(r: Yaw, v: Vec3)
    requires IsUnitYaw(r)
    ensures Compose(Inverse(r), r) == NoYaw
    ensures Apply(Inverse(r), Apply(r, v)) == v
  {
    ApplyCompose(Inverse(r), r, v);
    assert (r.c * r.c + r.s * r.s) * v.x == v.x;
    assert (r.c * r.c + r.s * r.s) * v.z == v.z;
  }

  lemma UnitCompose(a: Yaw, b: Yaw)
    requires IsUnitYaw(a) && IsUnitYaw(b)
    ensures IsUnitYaw(Compose(a, b))
  {
    var k := Compose(a, b);
    assert k.c * k.c + k.s * k.s
        == (a.c * a.c + a.s * a.s) * (b.c * b.c + b.s * b.s);
  }

  // ---------------------------------------------------------------------
  // Gravity-aligned rigid frames (a transform with yaw and translation)
  // ---------------------------------------------------------------------

  datatype Frame = Frame(position: Vec3, yaw: Yaw)

  const IdentityFrame: Frame := Frame(Zero, NoYaw)

  /** Transform.TransformPoint: a point given in the frame, in world space. */
  function ToWorld(f: Frame, q: Vec3): Vec3 { Add(Apply(f.yaw, q), f.position) }

  /** Transform.InverseTransformPoint for a unit-scale frame. */
  function ToLocal(f: Frame, p: Vec3): Vec3 { Apply(Inverse(f.yaw), Sub(p, f.position)) }

  /** Putting a child frame under a parent: the child's world pose. */
  function Nest(parent: Frame, child: Frame): Frame {
    Frame(ToWorld(parent, child.position), Compose(parent.yaw, child.yaw))
  }

  lemma {:induction false} ToLocalInvertsToWorld(f: Frame, q: Vec3)
    requires IsUnitYaw(f.yaw)
    ensures ToLocal(f, ToWorld(f, q)) == q
  {
    assert Sub(ToWorld(f, q), f.position) == Apply(f.yaw, q);
    InverseCancels(f.yaw, q);
  }
}
