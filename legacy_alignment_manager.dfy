/** The older generation's AlignmentManager: the same anchor guard and the
    same two-pass reset-then-apply alignment, without map re-rooting. */
module LegacyAlignment {
  import opened Basics
  import opened Geometry
  import opened Alignment

  class LegacyAlignmentManager {
    var rig: Frame

    constructor (rig: Frame)
      ensures this.rig == rig
    {
      this.rig := rig;
    }

    /** A missing or unlocalised anchor is rejected with no rig change. */
    method AlignUserToAnchor(anchor: Option<SpatialAnchor>, observed: seq<Frame>) returns (started: bool)
      requires |observed| == 2
      modifies this`rig
      ensures started <==> anchor.Some? && anchor.value.localized
      ensures !started ==> rig == old(rig)
      ensures started ==> rig == AlignedRig(observed[1])
    {
      if anchor.None? || !anchor.value.localized {
        return false;
      }
      var passes := AlignmentCoroutine(observed);
      started := true;
    }

    /** Two passes, each from a rig reset to the origin with no rotation. */
    method AlignmentCoroutine(observed: seq<Frame>) returns (passes: seq<Frame>)
      requires |observed| == 2
      modifies this`rig
      ensures |passes| == 2
      ensures forall i :: 0 <= i < 2 ==> passes[i] == AlignedRig(observed[i])
      ensures rig == passes[1]
    {
      passes := [];
      var alignmentCount := 2;
      while alignmentCount > 0
        invariant 0 <= alignmentCount <= 2
        invariant |passes| == 2 - alignmentCount
        invariant forall i :: 0 <= i < |passes| ==> passes[i] == AlignedRig(observed[i])
        invariant passes != [] ==> rig == passes[|passes| - 1]
      {
        rig := IdentityFrame;
        var anchorWorld := Nest(rig, observed[2 - alignmentCount]);
        rig := Frame(ToLocal(anchorWorld, Zero), Inverse(anchorWorld.yaw));
        passes := passes + [rig];
        alignmentCount := alignmentCount - 1;
      }
    }
  }
}
