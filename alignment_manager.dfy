/** Aligning the user's camera rig (AlignmentManager).

    The rig is the parent of everything the headset tracks: a spatial
    anchor's world pose is its tracked pose seen through the rig. Anchor
    alignment puts the rig where the anchor comes out at the world origin
    with no yaw, in two reset-then-apply passes. Map re-rooting moves the
    rig by the inverse yaw and translation of a marker so that the marker
    becomes the new origin. Rig, anchor and marker poses are gravity-aligned
    frames (a yaw and a translation). */
module Alignment {
  import opened Basics
  import opened Geometry

  /** A spatial anchor: whether it is localised, and its pose in the
      headset's tracking space. */
  datatype SpatialAnchor = SpatialAnchor(localized: bool, tracked: Frame)

  /** Where the rig is placed for an anchor tracked at `tracked`, with the rig
      reset first: at the anchor's inverse transform of the origin, turned by
      the negated anchor yaw. */
  function AlignedRig(tracked: Frame): (rig: Frame)
    ensures rig.yaw == Inverse(tracked.yaw)
  {
    var anchorWorld := Nest(IdentityFrame, tracked);
    Frame(ToLocal(anchorWorld, Zero), Inverse(anchorWorld.yaw))
  }

  /** After alignment the anchor's world pose is the origin with no yaw,
      whatever the rig's pose was before. */
  lemma AnchorLandsAtOrigin(tracked: Frame)
    requires IsUnitYaw(tracked.yaw)
    ensures Nest(AlignedRig(tracked), tracked) == IdentityFrame
    ensures IsUnitYaw(AlignedRig(tracked).yaw)
  {
    var r := tracked.yaw;
    var a := tracked.position;
    var rig := AlignedRig(tracked);
    assert Nest(IdentityFrame, tracked) == tracked by {
      assert Compose(NoYaw, r) == r;
    }
    assert rig.position == Apply(Inverse(r), Sub(Zero, a));
    ApplySub(Inverse(r), Zero, a);
    assert Apply(Inverse(r), Zero) == Zero;
    ApplyAdd(Inverse(r), a, Neg(a));
    InverseCancels(r, Zero);
    assert ToWorld(rig, a) == Add(Apply(Inverse(r), a), Sub(Zero, Apply(Inverse(r), a)));
    assert ToWorld(rig, a) == Zero;
  }

  /** A point fixed in tracking space ends up at the anchor-relative
      coordinates of that point: the anchor's frame becomes the world. */
  lemma AlignedPointsAreAnchorRelative(tracked: Frame, q: Vec3)
    ensures ToWorld(AlignedRig(tracked), q) == ToLocal(tracked, q)
  {
    var r := Inverse(tracked.yaw);
    var a := tracked.position;
    assert Nest(IdentityFrame, tracked) == tracked by {
      assert Compose(NoYaw, tracked.yaw) == tracked.yaw;
    }
    ApplySub(r, q, a);
    ApplySub(r, Zero, a);
    assert Apply(r, Zero) == Zero;
  }

  /** The rig after OffsetPlayerToMap for a marker at `markerPos` with yaw
      `markerYaw`: rotation R⁻¹·rot, position R⁻¹·pos − R⁻¹·marker. */
  function ReRooted(rig: Frame, markerPos: Vec3, markerYaw: Yaw): Frame {
    var rInv := Inverse(markerYaw);
    Frame(Add(Apply(rInv, rig.position), Neg(Apply(rInv, markerPos))), Compose(rInv, rig.yaw))
  }

  /** Every point of the play space moves to R⁻¹·(p − marker), so the marker
      becomes the origin, heights are only shifted by the marker's height,
      and a unit rig yaw stays unit. */
  lemma ReRootMovesEveryPoint(rig: Frame, markerPos: Vec3, markerYaw: Yaw, q: Vec3)
    ensures ToWorld(ReRooted(rig, markerPos, markerYaw), q)
         == Apply(Inverse(markerYaw), Sub(ToWorld(rig, q), markerPos))
    ensures ToWorld(ReRooted(rig, markerPos, markerYaw), q).y == ToWorld(rig, q).y - markerPos.y
    ensures IsUnitYaw(rig.yaw) && IsUnitYaw(markerYaw) ==> IsUnitYaw(ReRooted(rig, markerPos, markerYaw).yaw)
  {
    var rInv := Inverse(markerYaw);
    ApplyCompose(rInv, rig.yaw, q);
    ApplyAdd(rInv, Apply(rig.yaw, q), rig.position);
    ApplySub(rInv, ToWorld(rig, q), markerPos);
    if IsUnitYaw(rig.yaw) && IsUnitYaw(markerYaw) {
      UnitCompose(rInv, rig.yaw);
    }
  }

  /** The marker itself lands on the world origin. */
  lemma MarkerBecomesOrigin(rig: Frame, markerPos: Vec3, markerYaw: Yaw, q: Vec3)
    requires ToWorld(rig, q) == markerPos
    ensures ToWorld(ReRooted(rig, markerPos, markerYaw), q) == Zero
  {
    ReRootMovesEveryPoint(rig, markerPos, markerYaw, q);
    assert Sub(markerPos, markerPos) == Zero;
  }

  class AlignmentManager {
    var rig: Frame
    /** Whether a camera rig was found when the component woke up. */
    const hasRig: bool

    constructor (hasRig: bool, rig: Frame)
      ensures this.hasRig == hasRig && this.rig == rig
    {
      this.hasRig := hasRig;
      this.rig := rig;
    }

    /** Start aligning to an anchor; a missing or unlocalised anchor is
        rejected and the rig left alone. `observed` holds the anchor's
        tracked pose as read in each of the two passes. */
    method AlignUserToAnchor(anchor: Option<SpatialAnchor>, observed: seq<Frame>) returns (started: bool)
      requires |observed| == 2
      modifies this`rig
      ensures started <==> anchor.Some? && anchor.value.localized
      ensures !started ==> rig == old(rig)
      ensures started ==> rig == AlignedRig(observed[1])
    {
      if anchor.None? || !anchor.value.localized {
        return false;
      }
      var passes := AlignmentCoroutine(observed);
      started := true;
    }

    /** Two passes; each resets the rig to the origin with no rotation, lets a
        frame pass, then applies the pose computed from the anchor. */
    method AlignmentCoroutine(observed: seq<Frame>) returns (passes: seq<Frame>)
      requires |observed| == 2
      modifies this`rig
      ensures |passes| == 2
      ensures forall i :: 0 <= i < 2 ==> passes[i] == AlignedRig(observed[i])
      ensures rig == passes[1]
    {
      passes := [];
      var alignmentCount := 2;
      while alignmentCount > 0
        invariant 0 <= alignmentCount <= 2
        invariant |passes| == 2 - alignmentCount
        invariant forall i :: 0 <= i < |passes| ==> passes[i] == AlignedRig(observed[i])
        invariant passes != [] ==> rig == passes[|passes| - 1]
      {
        rig := IdentityFrame;
        var anchorWorld := Nest(rig, observed[2 - alignmentCount]);
        rig := Frame(ToLocal(anchorWorld, Zero), Inverse(anchorWorld.yaw));
        passes := passes + [rig];
        alignmentCount := alignmentCount - 1;
      }
    }

    /** Re-root the play space on a marker; nothing happens without a rig. */
    method OffsetPlayerToMap(markerPos: Vec3, markerYaw: Yaw)
      modifies this`rig
      ensures !hasRig ==> rig == old(rig)
      ensures hasRig ==> rig == ReRooted(old(rig), markerPos, markerYaw)
    {
      if !hasRig {
        return;
      }
      var rInv := Inverse(markerYaw);
      var tInv := Neg(Apply(rInv, markerPos));
      rig := rig.(yaw := Compose(rInv, rig.yaw));
      rig := rig.(position := Add(Apply(rInv, rig.position), tInv));
    }
  }
}
