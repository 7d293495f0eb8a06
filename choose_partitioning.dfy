// choose_partitioning: the variance-based partition classifier for one
// 64x64 superblock. The pixel kernels (block averages, 8x8 min/max, SADs)
// are inputs; the variance tree is computed from them by functions, and
// the force_split / variance4x4downsample bookkeeping and the top-down
// set_vt_partitioning cascade are methods.

module ChoosePartitioning {
  import opened Blocks
  import opened Variance
  import opened ModeInfoGrid
  import opened VtPartition

  /** The kernel results for one superblock, each a function of the pixel
      offset (x, y) of a sub-block inside it: vpx_avg_8x8 and vpx_avg_4x4
      of the source and of the prediction from the reference frame, and
      vpx_minmax_8x8. */
  datatype SbKernels = SbKernels(src8: (int, int) -> int, ref8: (int, int) -> int,
                                 src4: (int, int) -> int, ref4: (int, int) -> int,
                                 minmax: MinmaxKernel)

  /** Everything the tree depends on besides the kernels: frame type and
      how much of the superblock lies inside the frame, in pixels. */
  datatype TreeCtx = TreeCtx(k: SbKernels, isKeyFrame: bool, pixelsWide: int, pixelsHigh: int)

  /** The settings the classifier works with: the four split thresholds,
      vbp_bsize_min, vbp_threshold_minmax, vbp_threshold_sad, and the
      superblock's segment id, as SettleSb derives them. */
  datatype SbSettings = SbSettings(vt: VtFrame, thresholds: Thresholds, bsizeMin: BlockSize,
                                   thresholdMinmax: int, thresholdSad: int, segmentId: int)

  const CR_SEGMENT_ID_BASE: int := 0
  const CR_SEGMENT_ID_BOOST1: int := 1
  const CR_SEGMENT_ID_BOOST2: int := 2

  /** cyclic_refresh_segment_id_boosted */
  predicate Boosted(segmentId: int) { segmentId == CR_SEGMENT_ID_BOOST1 || segmentId == CR_SEGMENT_ID_BOOST2 }

  /** What choose_partitioning reads from the encoder before it settles its
      thresholds and segment: the frame's split thresholds
      (cpi->vbp_thresholds), whether cyclic-refresh AQ runs with
      segmentation enabled, the segment id the segmentation map gives the
      superblock, y_dequant[q][1] for that segment's qindex q, and the
      frame size and speed set_vbp_thresholds reads. */
  datatype SbConfig = SbConfig(vt: VtFrame, frameThresholds: Thresholds, bsizeMin: BlockSize,
                               thresholdMinmax: int, thresholdSad: int,
                               cyclicRefresh: bool, mapSegment: int, segmentDequant: nat,
                               width: int, height: int, speed: nat)

  /** The start of choose_partitioning: the segment id is the map's only
      under cyclic refresh, and a boosted segment gets the split thresholds
      of its own qindex instead of the frame's. */
  function SettleSb(c: SbConfig): (s: SbSettings)
    ensures s.segmentId == (if c.cyclicRefresh then c.mapSegment else CR_SEGMENT_ID_BASE)
    ensures Boosted(s.segmentId) ==>
      s.thresholds == SetVbpThresholds(c.vt.isKeyFrame, c.segmentDequant, c.width, c.height, c.speed,
                                       c.frameThresholds)
    ensures !Boosted(s.segmentId) ==> s.thresholds == c.frameThresholds
    ensures s.vt == c.vt && s.bsizeMin == c.bsizeMin && s.thresholdMinmax == c.thresholdMinmax
            && s.thresholdSad == c.thresholdSad
  {
    var segment := if c.cyclicRefresh then c.mapSegment else CR_SEGMENT_ID_BASE;
    var t := if Boosted(segment)
             then SetVbpThresholds(c.vt.isKeyFrame, c.segmentDequant, c.width, c.height, c.speed, c.frameThresholds)
             else c.frameThresholds;
    SbSettings(c.vt, t, c.bsizeMin, c.thresholdMinmax, c.thresholdSad, segment)
  }

  // ---------------------------------------------------------------------
  // Frame edge.

  /** mb_to_right_edge (or mb_to_bottom_edge) of a 64x64 block, in 1/8 pel. */
  function MbToFarEdge(miSize: int, mi: int): int
  {
    ((miSize - Num8x8Wide(BLOCK_64X64) - mi) * MI_SIZE) * 8
  }

  /** pixels_wide / pixels_high: 64, reduced by the part of the superblock
      beyond the frame edge (the right shift by 3 of a multiple of 8). */
  function PixelsInside(miSize: int, mi: int): int
  {
    var edge := MbToFarEdge(miSize, mi);
    if edge < 0 then 64 + edge / 8 else 64
  }

  lemma PixelsInsideIsClamped(miSize: int, mi: int)
    ensures PixelsInside(miSize, mi) == Min(64, 8 * (miSize - mi))
  {
  }

  // ---------------------------------------------------------------------
  // The variance tree (vt and vt2), as functions of the kernels.

  /** Pixel offset of quadrant q (raster order) of a block of `size` pixels. */
  function QX(q: int, size: int): int requires 0 <= q < 4 { SubX(q) * size }
  function QY(q: int, size: int): int requires 0 <= q < 4 { SubY(q) * size }

  /** One leaf: the difference of the leaf x leaf averages (4 or 8) at
      pixel offset (x, y). */
  function Leaf(c: TreeCtx, leaf: int, x: int, y: int): (v: Var)
    ensures v.log2Count == 0
  {
    var src := if leaf == 4 then c.k.src4(x, y) else c.k.src8(x, y);
    var ref := if leaf == 4 then c.k.ref4(x, y) else c.k.ref8(x, y);
    AvgLeaf(x < c.pixelsWide && y < c.pixelsHigh, c.isKeyFrame, src, ref)
  }

  /** The node of the block of leaf * 2^levels pixels at offset (x, y):
      fill_variance_4x4avg or fill_variance_8x8avg at the bottom, then
      fill_variance_tree at every level above. Quadrants are in raster
      order. */
  function Tree(c: TreeCtx, leaf: int, levels: nat, x: int, y: int): (pv: PartitionVariance)
    requires levels >= 1
    ensures Counted(pv) && pv.none.log2Count == 2 * levels
    decreases levels
  {
    var h := leaf * Pow2(levels - 1);
    if levels == 1 then
      FillVarianceTree([Leaf(c, leaf, x, y), Leaf(c, leaf, x + h, y),
                        Leaf(c, leaf, x, y + h), Leaf(c, leaf, x + h, y + h)])
    else
      FillVarianceTree([Tree(c, leaf, levels - 1, x, y).none, Tree(c, leaf, levels - 1, x + h, y).none,
                        Tree(c, leaf, levels - 1, x, y + h).none, Tree(c, leaf, levels - 1, x + h, y + h).none])
  }

  /** Pixel offset of 16x16 block j of 32x32 block i. */
  function X16(i: int, j: int): int requires 0 <= i < 4 && 0 <= j < 4 { QX(i, 32) + QX(j, 16) }
  function Y16(i: int, j: int): int requires 0 <= i < 4 && 0 <= j < 4 { QY(i, 32) + QY(j, 16) }

  /** A 16x16 node over four 8x8 averages (vt's 16x16 nodes on inter frames). */
  function Node16From8(c: TreeCtx, i: int, j: int): (pv: PartitionVariance)
    requires 0 <= i < 4 && 0 <= j < 4
    ensures Counted(pv)
  {
    Tree(c, 8, 1, X16(i, j), Y16(i, j))
  }

  /** A 16x16 node over sixteen 4x4 averages (vt's 16x16 nodes on key
      frames, vt2's on down-sampled inter blocks). */
  function Node16From4(c: TreeCtx, i: int, j: int): (pv: PartitionVariance)
    requires 0 <= i < 4 && 0 <= j < 4
    ensures Counted(pv)
  {
    Tree(c, 4, 2, X16(i, j), Y16(i, j))
  }

  /** 8x8 block k of 16x16 block j of 32x32 block i, over four 4x4 averages. */
  function Node8From4(c: TreeCtx, i: int, j: int, k: int): (pv: PartitionVariance)
    requires 0 <= i < 4 && 0 <= j < 4 && 0 <= k < 4
    ensures Counted(pv)
  {
    Tree(c, 4, 1, X16(i, j) + QX(k, 8), Y16(i, j) + QY(k, 8))
  }

  /** vt.split[i]: over 4x4 averages on key frames, 8x8 averages otherwise. */
  function Vt32(c: TreeCtx, i: int): (pv: PartitionVariance)
    requires 0 <= i < 4
    ensures Counted(pv)
  {
    if c.isKeyFrame then Tree(c, 4, 3, QX(i, 32), QY(i, 32)) else Tree(c, 8, 2, QX(i, 32), QY(i, 32))
  }

  /** vt. */
  function Vt64(c: TreeCtx): (pv: PartitionVariance)
    ensures Counted(pv)
  {
    if c.isKeyFrame then Tree(c, 4, 4, 0, 0) else Tree(c, 8, 3, 0, 0)
  }

  // ---------------------------------------------------------------------
  // force_split and variance4x4downsample.

  /** Variance of the 16x16 block over its 8x8 averages (inter frames). */
  function Var16(c: TreeCtx, i: int, j: int): int
    requires 0 <= i < 4 && 0 <= j < 4
  {
    GetVariance(Node16From8(c, i, j).none)
  }

  function Minmax16(c: TreeCtx, i: int, j: int): int
    requires 0 <= i < 4 && 0 <= j < 4
  {
    var rs := InFrameRanges(c.k.minmax, X16(i, j), Y16(i, j), c.pixelsWide, c.pixelsHigh, 4);
    MaxFrom0(rs) - MinFrom255(rs)
  }

  /** The node variances and 8x8 min/max spreads the force_split pass
      reads: var16[i][j] and spread16[i][j] for 16x16 block j of 32x32
      block i (over 8x8 averages), var32[i] for 32x32 block i. */
  datatype Measures = Measures(var16: seq<seq<int>>, spread16: seq<seq<int>>, var32: seq<int>)

  predicate Shaped(m: Measures)
  {
    |m.var16| == 4 && |m.spread16| == 4 && |m.var32| == 4
    && forall i :: 0 <= i < 4 ==> |m.var16[i]| == 4 && |m.spread16[i]| == 4
  }

  function MeasuresOf(c: TreeCtx): (m: Measures)
    ensures Shaped(m)
  {
    Measures(seq(4, i requires 0 <= i < 4 => seq(4, j requires 0 <= j < 4 => Var16(c, i, j))),
             seq(4, i requires 0 <= i < 4 => seq(4, j requires 0 <= j < 4 => Minmax16(c, i, j))),
             seq(4, i requires 0 <= i < 4 => GetVariance(Vt32(c, i).none)))
  }

  /** On inter frames a 16x16 block asks for a split when its variance is
      above the 16x16 threshold, or above the 32x32 one with a large 8x8
      min/max spread (outside boosted segments). */
  predicate SplitVote16(s: SbSettings, key: bool, m: Measures, i: int, j: int)
    requires Shaped(m) && 0 <= i < 4 && 0 <= j < 4
  {
    !key
    && (m.var16[i][j] > s.thresholds.t16
        || (m.var16[i][j] > s.thresholds.t32 && !Boosted(s.segmentId)
            && m.spread16[i][j] > s.thresholdMinmax))
  }

  /** The 16x16 block's variance is computed from 4x4 averages instead:
      always on key frames, and on low-resolution inter frames whose 8x8
      variance is above twice the 32x32 threshold. */
  predicate Downsampled(s: SbSettings, key: bool, m: Measures, i: int, j: int)
    requires Shaped(m) && 0 <= i < 4 && 0 <= j < 4
  {
    key || (s.vt.lowRes && m.var16[i][j] > s.thresholds.t32 * 2)
  }

  /** Index of 16x16 block j of 32x32 block i in force_split, and in
      variance4x4downsample. */
  function Idx16(i: int, j: int): int { 5 + 4 * i + j }
  function IdxDown(i: int, j: int): int { 4 * i + j }

  /** force_split[5 + 4i + j] after the first loop: the block voted, and
      was not sent to 4x4 down-sampling (which resets its flag). */
  predicate Flag16(s: SbSettings, key: bool, m: Measures, i: int, j: int)
    requires Shaped(m) && 0 <= i < 4 && 0 <= j < 4
  {
    SplitVote16(s, key, m, i, j) && !Downsampled(s, key, m, i, j)
  }

  /** Some of the first n 16x16 blocks of 32x32 block i voted to split. */
  predicate VotesAmong(s: SbSettings, key: bool, m: Measures, i: int, n: int)
    requires Shaped(m) && 0 <= i < 4 && 0 <= n <= 4
  {
    n > 0 && (VotesAmong(s, key, m, i, n - 1) || SplitVote16(s, key, m, i, n - 1))
  }

  /** force_split[1 + i]: a 16x16 block inside voted, or the 32x32
      variance is above its threshold. */
  predicate Forced32(s: SbSettings, key: bool, m: Measures, i: int)
    requires Shaped(m) && 0 <= i < 4
  {
    VotesAmong(s, key, m, i, 4) || m.var32[i] > s.thresholds.t32
  }

  /** Some 16x16 block of the first n 32x32 blocks voted to split. */
  predicate VotedBefore(s: SbSettings, key: bool, m: Measures, n: int)
    requires Shaped(m) && 0 <= n <= 4
  {
    n > 0 && (VotedBefore(s, key, m, n - 1) || VotesAmong(s, key, m, n - 1, 4))
  }

  /** One of the first n 32x32 blocks is forced to split. */
  predicate ForcedBefore(s: SbSettings, key: bool, m: Measures, n: int)
    requires Shaped(m) && 0 <= n <= 4
  {
    n > 0 && (ForcedBefore(s, key, m, n - 1) || Forced32(s, key, m, n - 1))
  }

  /** force_split[0]. */
  predicate Forced64(s: SbSettings, key: bool, m: Measures)
    requires Shaped(m)
  {
    ForcedBefore(s, key, m, 4)
  }

  lemma {:induction false} VoteReachesParent(s: SbSettings, key: bool, m: Measures, i: int, j: int, n: int)
    requires Shaped(m) && 0 <= i < 4 && 0 <= j < n <= 4 && SplitVote16(s, key, m, i, j)
    ensures VotesAmong(s, key, m, i, n)
  {
    if j < n - 1 {
      VoteReachesParent(s, key, m, i, j, n - 1);
    }
  }

  lemma {:induction false} ForcedReachesRoot(s: SbSettings, key: bool, m: Measures, i: int, n: int)
    requires Shaped(m) && 0 <= i < n <= 4 && Forced32(s, key, m, i)
    ensures ForcedBefore(s, key, m, n)
  {
    if i < n - 1 {
      ForcedReachesRoot(s, key, m, i, n - 1);
    }
  }

  lemma {:induction false} VotesReachRoot(s: SbSettings, key: bool, m: Measures, i: int, n: int)
    requires Shaped(m) && 0 <= i < n <= 4 && VotesAmong(s, key, m, i, 4)
    ensures VotedBefore(s, key, m, n)
  {
    if i < n - 1 {
      VotesReachRoot(s, key, m, i, n - 1);
    }
  }

  lemma {:induction false} VotedIsForced(s: SbSettings, key: bool, m: Measures, n: int)
    requires Shaped(m) && 0 <= n <= 4 && VotedBefore(s, key, m, n)
    ensures ForcedBefore(s, key, m, n)
  {
    if !VotesAmong(s, key, m, n - 1, 4) {
      VotedIsForced(s, key, m, n - 1);
    }
  }

  /** force_split is upward-closed: a 16x16 block that votes for a split
      (whether or not its own flag is later reset for down-sampling) forces
      its 32x32 block, and a forced 32x32 block forces the 64x64 one. */
  lemma ForceSplitUpwardClosed(s: SbSettings, key: bool, m: Measures)
    requires Shaped(m)
    ensures forall i, j :: 0 <= i < 4 && 0 <= j < 4 && SplitVote16(s, key, m, i, j) ==> Forced32(s, key, m, i)
    ensures forall i, j :: 0 <= i < 4 && 0 <= j < 4 && Flag16(s, key, m, i, j) ==> Forced32(s, key, m, i)
    ensures forall i :: 0 <= i < 4 && Forced32(s, key, m, i) ==> Forced64(s, key, m)
  {
    forall i, j | 0 <= i < 4 && 0 <= j < 4 && SplitVote16(s, key, m, i, j)
      ensures Forced32(s, key, m, i)
    {
      VoteReachesParent(s, key, m, i, j, 4);
    }
    forall i | 0 <= i < 4 && Forced32(s, key, m, i)
      ensures Forced64(s, key, m)
    {
      ForcedReachesRoot(s, key, m, i, 4);
    }
  }

  /** One turn of choose_partitioning's first pass: the flags of 16x16
      block j of 32x32 block i. */
  method Vote16(s: SbSettings, key: bool, m: Measures, i: int, j: int, forceSplit: array<bool>, downsample: array<bool>)
    requires Shaped(m) && 0 <= i < 4 && 0 <= j < 4 && forceSplit.Length == 21 && downsample.Length == 16
    requires forceSplit != downsample
    modifies forceSplit, downsample
    ensures forceSplit[Idx16(i, j)] == Flag16(s, key, m, i, j) && downsample[IdxDown(i, j)] == Downsampled(s, key, m, i, j)
    ensures forceSplit[1 + i] == (old(forceSplit[1 + i]) || SplitVote16(s, key, m, i, j))
    ensures forceSplit[0] == (old(forceSplit[0]) || SplitVote16(s, key, m, i, j))
    ensures forall k :: 0 < k < 21 && k != 1 + i && k != Idx16(i, j) ==> forceSplit[k] == old(forceSplit[k])
    ensures forall k :: 0 <= k < 16 && k != IdxDown(i, j) ==> downsample[k] == old(downsample[k])
  {
    var t := s.thresholds;
    var splitIndex := 5 + 4 * i + j;
    forceSplit[splitIndex] := false;
    downsample[4 * i + j] := false;
    var variance := 0;
    if !key {
      variance := m.var16[i][j];
      if variance > t.t16 {
        forceSplit[splitIndex] := true;
        forceSplit[i + 1] := true;
        forceSplit[0] := true;
      } else if variance > t.t32 && !Boosted(s.segmentId) {
        if m.spread16[i][j] > s.thresholdMinmax {
          forceSplit[splitIndex] := true;
          forceSplit[i + 1] := true;
          forceSplit[0] := true;
        }
      }
    }
    if key || (s.vt.lowRes && variance > t.t32 * 2) {
      forceSplit[splitIndex] := false;
      downsample[4 * i + j] := true;
    }
  }

  /** The inner loop of choose_partitioning's first pass, over the four
      16x16 blocks of 32x32 block i. */
  method Scan32(s: SbSettings, key: bool, m: Measures, i: int, forceSplit: array<bool>, downsample: array<bool>)
    requires Shaped(m) && 0 <= i < 4 && forceSplit.Length == 21 && downsample.Length == 16 && forceSplit != downsample
    modifies forceSplit, downsample
    ensures forceSplit[1 + i] == VotesAmong(s, key, m, i, 4)
    ensures forceSplit[0] == (old(forceSplit[0]) || VotesAmong(s, key, m, i, 4))
    ensures forall j :: 0 <= j < 4 ==>
              forceSplit[Idx16(i, j)] == Flag16(s, key, m, i, j) && downsample[IdxDown(i, j)] == Downsampled(s, key, m, i, j)
    ensures forall k :: 0 < k < 21 && k != 1 + i && !(Idx16(i, 0) <= k < Idx16(i, 4)) ==>
              forceSplit[k] == old(forceSplit[k])
    ensures forall k :: 0 <= k < 16 && !(IdxDown(i, 0) <= k < IdxDown(i, 4)) ==> downsample[k] == old(downsample[k])
  {
    forceSplit[i + 1] := false;
    var j := 0;
    while j < 4
      invariant 0 <= j <= 4
      invariant forceSplit[1 + i] == VotesAmong(s, key, m, i, j)
      invariant forceSplit[0] == (old(forceSplit[0]) || VotesAmong(s, key, m, i, j))
      invariant forall j' :: 0 <= j' < j ==>
                  forceSplit[Idx16(i, j')] == Flag16(s, key, m, i, j') && downsample[IdxDown(i, j')] == Downsampled(s, key, m, i, j')
      invariant forall k :: 0 < k < 21 && k != 1 + i && !(Idx16(i, 0) <= k < Idx16(i, j)) ==>
                  forceSplit[k] == old(forceSplit[k])
      invariant forall k :: 0 <= k < 16 && !(IdxDown(i, 0) <= k < IdxDown(i, j)) ==> downsample[k] == old(downsample[k])
    {
      Vote16(s, key, m, i, j, forceSplit, downsample);
      j := j + 1;
    }
  }

  /** The first loop of choose_partitioning over the four 32x32 blocks:
      the 16x16 votes and the down-sampling flags. */
  method FirstPass(s: SbSettings, key: bool, m: Measures, forceSplit: array<bool>, downsample: array<bool>)
    requires Shaped(m) && forceSplit.Length == 21 && downsample.Length == 16 && forceSplit != downsample
    requires !forceSplit[0]
    modifies forceSplit, downsample
    ensures forall i, j :: 0 <= i < 4 && 0 <= j < 4 ==>
              downsample[IdxDown(i, j)] == Downsampled(s, key, m, i, j) && forceSplit[Idx16(i, j)] == Flag16(s, key, m, i, j)
    ensures forall i :: 0 <= i < 4 ==> forceSplit[1 + i] == VotesAmong(s, key, m, i, 4)
    ensures forceSplit[0] == VotedBefore(s, key, m, 4)
  {
    var i := 0;
    while i < 4
      invariant 0 <= i <= 4
      invariant forall i', j' :: 0 <= i' < i && 0 <= j' < 4 ==>
                  downsample[IdxDown(i', j')] == Downsampled(s, key, m, i', j') && forceSplit[Idx16(i', j')] == Flag16(s, key, m, i', j')
      invariant forall i' :: 0 <= i' < i ==> forceSplit[1 + i'] == VotesAmong(s, key, m, i', 4)
      invariant forceSplit[0] == VotedBefore(s, key, m, i)
    {
      Scan32(s, key, m, i, forceSplit, downsample);
      i := i + 1;
    }
  }

  /** The second loop: a 32x32 block not already forced is forced when its
      own variance is above the 32x32 threshold, and any forced 32x32 block
      forces the 64x64 one. */
  method SecondPass(s: SbSettings, key: bool, m: Measures, forceSplit: array<bool>)
    requires Shaped(m) && forceSplit.Length == 21
    requires forall i :: 0 <= i < 4 ==> forceSplit[1 + i] == VotesAmong(s, key, m, i, 4)
    requires forceSplit[0] == VotedBefore(s, key, m, 4)
    modifies forceSplit
    ensures forall i :: 0 <= i < 4 ==> forceSplit[1 + i] == Forced32(s, key, m, i)
    ensures forceSplit[0] == Forced64(s, key, m)
    ensures forall x :: 5 <= x < 21 ==> forceSplit[x] == old(forceSplit[x])
  {
    var i := 0;
    while i < 4
      invariant 0 <= i <= 4
      invariant forall x :: 5 <= x < 21 ==> forceSplit[x] == old(forceSplit[x])
      invariant forall i' :: 0 <= i' < i ==> forceSplit[1 + i'] == Forced32(s, key, m, i')
      invariant forall i' :: i <= i' < 4 ==> forceSplit[1 + i'] == VotesAmong(s, key, m, i', 4)
      invariant forceSplit[0] == (VotedBefore(s, key, m, 4) || ForcedBefore(s, key, m, i))
    {
      if forceSplit[i + 1] {
        VotesReachRoot(s, key, m, i, 4);
      } else {
        if m.var32[i] > s.thresholds.t32 {
          forceSplit[i + 1] := true;
          forceSplit[0] := true;
        }
      }
      i := i + 1;
    }
    if VotedBefore(s, key, m, 4) {
      VotedIsForced(s, key, m, 4);
    }
  }

  /** The two loops of choose_partitioning that fill force_split[21]
      (0 for 64x64, 1 + i for 32x32 block i, 5 + 4i + j for its 16x16
      block j) and variance4x4downsample[16]. */
  method ForceSplitFlags(s: SbSettings, key: bool, m: Measures) returns (forceSplit: array<bool>, downsample: array<bool>)
    requires Shaped(m)
    ensures fresh(forceSplit) && fresh(downsample)
    ensures forceSplit.Length == 21 && downsample.Length == 16
    ensures forall i, j :: 0 <= i < 4 && 0 <= j < 4 ==>
              downsample[IdxDown(i, j)] == Downsampled(s, key, m, i, j) && forceSplit[Idx16(i, j)] == Flag16(s, key, m, i, j)
    ensures forall i :: 0 <= i < 4 ==> forceSplit[1 + i] == Forced32(s, key, m, i)
    ensures forceSplit[0] == Forced64(s, key, m)
    ensures forceSplit[..] == ForceSplitOf(s, key, m)
  {
    forceSplit := new bool[21](_ => false);
    downsample := new bool[16](_ => false);
    forceSplit[0] := false;
    FirstPass(s, key, m, forceSplit, downsample);
    SecondPass(s, key, m, forceSplit);
    forall i, j | 0 <= i < 4 && 0 <= j < 4
      ensures forceSplit[Idx16(i, j)] == Flag16(s, key, m, i, j)
    {
      assert 5 <= Idx16(i, j) < 21;
    }
    ForceSplitAsSeq(forceSplit[..], s, key, m);
  }

  /** The whole force_split array the two loops leave, as a sequence. */
  function ForceSplitOf(s: SbSettings, key: bool, m: Measures): (fs: seq<bool>)
    requires Shaped(m)
    ensures |fs| == 21
  {
    seq(21, x requires 0 <= x < 21 =>
      if x == 0 then Forced64(s, key, m)
      else if x < 5 then Forced32(s, key, m, x - 1)
      else Flag16(s, key, m, (x - 5) / 4, (x - 5) % 4))
  }

  /** The entries of ForceSplitOf the cascade reads. */
  lemma ForceSplitAt(s: SbSettings, key: bool, m: Measures, i: int, j: int)
    requires Shaped(m) && 0 <= i < 4 && 0 <= j < 4
    ensures ForceSplitOf(s, key, m)[0] == Forced64(s, key, m)
    ensures ForceSplitOf(s, key, m)[1 + i] == Forced32(s, key, m, i)
    ensures ForceSplitOf(s, key, m)[Idx16(i, j)] == Flag16(s, key, m, i, j)
  {
    var x := Idx16(i, j);
    assert (x - 5) / 4 == i && (x - 5) % 4 == j;
  }

  /** An array holding the flags entry by entry holds ForceSplitOf. */
  lemma ForceSplitAsSeq(a: seq<bool>, s: SbSettings, key: bool, m: Measures)
    requires Shaped(m) && |a| == 21 && a[0] == Forced64(s, key, m)
    requires forall i :: 0 <= i < 4 ==> a[1 + i] == Forced32(s, key, m, i)
    requires forall i, j :: 0 <= i < 4 && 0 <= j < 4 ==> a[Idx16(i, j)] == Flag16(s, key, m, i, j)
    ensures a == ForceSplitOf(s, key, m)
  {
    forall x | 0 <= x < 21
      ensures a[x] == ForceSplitOf(s, key, m)[x]
    {
      if x >= 5 {
        var i, j := (x - 5) / 4, (x - 5) % 4;
        assert x == Idx16(i, j);
      } else if x >= 1 {
        assert x == 1 + (x - 1);
      }
    }
  }


  // ---------------------------------------------------------------------
  // The top-down cascade.

  /** The variance nodes the cascade consults: vt, vt.split[i], the node
      of 16x16 block j of 32x32 block i (vtemp: the 4x4-average node when
      the block was down-sampled, else vt.split[i].split[j]) and that
      node's four 8x8 children (consulted on key frames only). */
  datatype VtNodes = VtNodes(n64: PartitionVariance, n32: seq<PartitionVariance>,
                             n16: seq<seq<PartitionVariance>>, n8: seq<seq<seq<PartitionVariance>>>)

  predicate NodesShaped(n: VtNodes)
  {
    Counted(n.n64) && |n.n32| == 4 && |n.n16| == 4 && |n.n8| == 4
    && (forall i :: 0 <= i < 4 ==> Counted(n.n32[i]) && |n.n16[i]| == 4 && |n.n8[i]| == 4)
    && (forall i, j :: 0 <= i < 4 && 0 <= j < 4 ==> Counted(n.n16[i][j]) && |n.n8[i][j]| == 4)
    && (forall i, j, k :: 0 <= i < 4 && 0 <= j < 4 && 0 <= k < 4 ==> Counted(n.n8[i][j][k]))
  }

  function Node16(c: TreeCtx, s: SbSettings, m: Measures, i: int, j: int): (pv: PartitionVariance)
    requires Shaped(m) && 0 <= i < 4 && 0 <= j < 4
    ensures Counted(pv)
  {
    if Downsampled(s, c.isKeyFrame, m, i, j) then Node16From4(c, i, j) else Node16From8(c, i, j)
  }

  function Nodes32(c: TreeCtx): (ns: seq<PartitionVariance>)
    ensures |ns| == 4 && forall i :: 0 <= i < 4 ==> Counted(ns[i])
  {
    seq(4, i requires 0 <= i < 4 => Vt32(c, i))
  }

  function Nodes16Row(c: TreeCtx, s: SbSettings, m: Measures, i: int): (ns: seq<PartitionVariance>)
    requires Shaped(m) && 0 <= i < 4
    ensures |ns| == 4 && forall j :: 0 <= j < 4 ==> Counted(ns[j])
  {
    seq(4, j requires 0 <= j < 4 => Node16(c, s, m, i, j))
  }

  function Nodes16(c: TreeCtx, s: SbSettings, m: Measures): (ns: seq<seq<PartitionVariance>>)
    requires Shaped(m)
    ensures |ns| == 4 && forall i, j :: 0 <= i < 4 && 0 <= j < 4 ==> |ns[i]| == 4 && Counted(ns[i][j])
  {
    seq(4, i requires 0 <= i < 4 => Nodes16Row(c, s, m, i))
  }

  /** The four 8x8 nodes over 4x4 averages inside 16x16 block j of 32x32
      block i. */
  function Nodes8Of(c: TreeCtx, i: int, j: int): (ns: seq<PartitionVariance>)
    requires 0 <= i < 4 && 0 <= j < 4
    ensures |ns| == 4 && forall k :: 0 <= k < 4 ==> Counted(ns[k])
  {
    seq(4, k requires 0 <= k < 4 => Node8From4(c, i, j, k))
  }

  function Nodes8Row(c: TreeCtx, i: int): (ns: seq<seq<PartitionVariance>>)
    requires 0 <= i < 4
    ensures |ns| == 4 && forall j, k :: 0 <= j < 4 && 0 <= k < 4 ==> |ns[j]| == 4 && Counted(ns[j][k])
  {
    seq(4, j requires 0 <= j < 4 => Nodes8Of(c, i, j))
  }

  function Nodes8(c: TreeCtx): (ns: seq<seq<seq<PartitionVariance>>>)
    ensures |ns| == 4
    ensures forall i, j, k :: 0 <= i < 4 && 0 <= j < 4 && 0 <= k < 4 ==>
              |ns[i]| == 4 && |ns[i][j]| == 4 && Counted(ns[i][j][k])
  {
    seq(4, i requires 0 <= i < 4 => Nodes8Row(c, i))
  }

  function NodesOf(c: TreeCtx, s: SbSettings, m: Measures): (n: VtNodes)
    requires Shaped(m)
    ensures NodesShaped(n)
  {
    VtNodes(Vt64(c), Nodes32(c), Nodes16(c, s, m), Nodes8(c))
  }

  /** The smallest size the cascade can place: sub-8x8 blocks only on key
      frames. */
  function Lo(key: bool): int { if key then BLOCK_4X4 else BLOCK_8X8 }

  /** The largest size the cascade can place at a level (3 for the 64x64
      block down to 0 for 8x8 blocks): on key frames nothing above 32X32 is
      kept whole. */
  function Hi(key: bool, level: int): int { if key && level == 3 then BLOCK_32X32 else 3 * (level + 1) }

  /** Side, in 8x8 cells, of a block at a level. */
  function Span(level: nat): nat { Pow2(level) }

  /** A superblock is 8 cells on a side. */
  lemma SuperblockSpan()
    ensures Span(3) == 8
  {
  }

  /** The block of a level: 8X8, 16X16, 32X32, 64X64. */
  function LevelSize(level: int): BlockSize requires 0 <= level <= 3 { 3 * (level + 1) }

  /** The threshold and minimum size set_vt_partitioning is given at a level. */
  function LevelThreshold(t: Thresholds, level: int): int
  {
    if level == 3 then t.t64 else if level == 2 then t.t32 else if level == 1 then t.t16 else t.t8
  }

  function LevelMin(s: SbSettings, level: int): BlockSize
  {
    if level >= 2 then BLOCK_16X16 else if level == 1 then s.bsizeMin else BLOCK_8X8
  }

  /** The variance node of block (i, j, k) at a level. */
  function LevelNode(n: VtNodes, level: int, i: int, j: int, k: int): (pv: PartitionVariance)
    requires NodesShaped(n) && 0 <= level <= 3 && 0 <= i < 4 && 0 <= j < 4 && 0 <= k < 4
    ensures Counted(pv)
  {
    if level == 3 then n.n64 else if level == 2 then n.n32[i] else if level == 1 then n.n16[i][j] else n.n8[i][j][k]
  }

  /** The force_split entry set_vt_partitioning is given at a level: entry
      0 for the 64x64 block, 1 + i for 32x32 block i, 5 + 4i + j for its
      16x16 block j; the 8x8 calls are never forced. */
  predicate LevelForced(fs: seq<bool>, level: int, i: int, j: int)
    requires |fs| == 21 && 0 <= i < 4 && 0 <= j < 4
  {
    if level == 3 then fs[0] else if level == 2 then fs[1 + i] else if level == 1 then fs[Idx16(i, j)] else false
  }

  /** The set_block_size calls of the cascade below block (i, j, k) of a
      level, whose top-left cell is (r, c): index i names the 32x32 block,
      j the 16x16 block inside it and k the 8x8 block inside that (those
      below the level are 0). */
  function Cascade(d: Dims, s: SbSettings, fs: seq<bool>, n: VtNodes, level: nat, i: int, j: int, k: int,
                   r: int, c: int): (ps: seq<Placement>)
    requires |fs| == 21 && NodesShaped(n) && level <= 3 && 0 <= i < 4 && 0 <= j < 4 && 0 <= k < 4
    decreases level, 3
  {
    var key := s.vt.isKeyFrame;
    var b := LevelSize(level);
    var ch := VtChoice(d, s.vt, LevelNode(n, level, i, j, k), b, r, c, LevelThreshold(s.thresholds, level),
                       LevelMin(s, level), LevelForced(fs, level, i, j));
    if level == 3 && (c + 8 > d.miCols || r + 8 > d.miRows) then
      Below(d, s, fs, n, level, i, j, k, r, c)
    else if level == 0 && !key then [Placement(r, c, BLOCK_8X8)]
    else if ch.Some? then ShapePlacements(b, r, c, ch.value)
    else if level == 0 then [Placement(r, c, BLOCK_4X4)]
    else Below(d, s, fs, n, level, i, j, k, r, c)
  }

  /** The four sub-blocks of a block that was not kept, one after another. */
  function Below(d: Dims, s: SbSettings, fs: seq<bool>, n: VtNodes, level: nat, i: int, j: int, k: int,
                 r: int, c: int): (ps: seq<Placement>)
    requires |fs| == 21 && NodesShaped(n) && 1 <= level <= 3 && 0 <= i < 4 && 0 <= j < 4 && 0 <= k < 4
    decreases level, 2
  {
    Flatten(Children(d, s, fs, n, level, i, j, k, r, c))
  }

  /** Sub-block q (raster order) of block (i, j, k) of a level, as the
      indices of the level below. */
  function ChildIndex(level: int, i: int, j: int, k: int, q: int): (ijk: (int, int, int))
    requires 0 <= i < 4 && 0 <= j < 4 && 0 <= k < 4 && 0 <= q < 4
    ensures 0 <= ijk.0 < 4 && 0 <= ijk.1 < 4 && 0 <= ijk.2 < 4
  {
    if level == 3 then (q, 0, 0) else if level == 2 then (i, q, 0) else (i, j, q)
  }

  /** The top-left cell of sub-block q (raster order) of a block of a
      level whose top-left cell is (r, c). */
  function ChildRow(level: nat, r: int, q: int): int
    requires 1 <= level && 0 <= q < 4
  {
    r + Span(level - 1) * SubY(q)
  }

  function ChildCol(level: nat, c: int, q: int): int
    requires 1 <= level && 0 <= q < 4
  {
    c + Span(level - 1) * SubX(q)
  }

  /** Sub-block q lies inside its parent block. */
  lemma ChildInside(level: nat, r: int, c: int, q: int)
    requires 1 <= level && 0 <= q < 4
    ensures Span(level) == 2 * Span(level - 1)
    ensures r <= ChildRow(level, r, q) && ChildRow(level, r, q) + Span(level - 1) <= r + Span(level)
    ensures c <= ChildCol(level, c, q) && ChildCol(level, c, q) + Span(level - 1) <= c + Span(level)
  {
    assert SubY(q) == 0 || SubY(q) == 1;
    assert SubX(q) == 0 || SubX(q) == 1;
  }

  /** Sub-block q of block (i, j, k) of a level, placed by the cascade of
      the level below. */
  function Child(d: Dims, s: SbSettings, fs: seq<bool>, n: VtNodes, level: nat, i: int, j: int, k: int,
                 r: int, c: int, q: int): (ps: seq<Placement>)
    requires |fs| == 21 && NodesShaped(n) && 1 <= level <= 3 && 0 <= i < 4 && 0 <= j < 4 && 0 <= k < 4
    requires 0 <= q < 4
    decreases level, 0
  {
    var x := ChildIndex(level, i, j, k, q);
    Cascade(d, s, fs, n, level - 1, x.0, x.1, x.2, ChildRow(level, r, q), ChildCol(level, c, q))
  }

  function Children(d: Dims, s: SbSettings, fs: seq<bool>, n: VtNodes, level: nat, i: int, j: int, k: int,
                    r: int, c: int): (xs: seq<seq<Placement>>)
    requires |fs| == 21 && NodesShaped(n) && 1 <= level <= 3 && 0 <= i < 4 && 0 <= j < 4 && 0 <= k < 4
    ensures |xs| == 4
    decreases level, 1
  {
    seq(4, q requires 0 <= q < 4 => Child(d, s, fs, n, level, i, j, k, r, c, q))
  }

  /** What the cascade places lies inside its block, is never above
      32X32 on a key frame and never below 8X8 on an inter frame. */
  lemma {:induction false} CascadeGood(d: Dims, s: SbSettings, fs: seq<bool>, n: VtNodes, level: nat,
                                       i: int, j: int, k: int, r: int, c: int)
    requires |fs| == 21 && NodesShaped(n) && level <= 3 && 0 <= i < 4 && 0 <= j < 4 && 0 <= k < 4
    ensures AllGood(Cascade(d, s, fs, n, level, i, j, k, r, c), r, c, Span(level),
                    Lo(s.vt.isKeyFrame), Hi(s.vt.isKeyFrame, level))
    decreases level, 1
  {
    var key := s.vt.isKeyFrame;
    var b := LevelSize(level);
    var ch := VtChoice(d, s.vt, LevelNode(n, level, i, j, k), b, r, c, LevelThreshold(s.thresholds, level),
                       LevelMin(s, level), LevelForced(fs, level, i, j));
    if level == 3 && (c + 8 > d.miCols || r + 8 > d.miRows) {
      BelowGood(d, s, fs, n, level, i, j, k, r, c);
    } else if level == 0 && !key {
    } else if ch.Some? {
      assert Span(level) == Num8x8Wide(b) == Num8x8High(b) by { assert Span(0) == 1; }
    } else if level > 0 {
      BelowGood(d, s, fs, n, level, i, j, k, r, c);
    }
  }

  lemma {:induction false} BelowGood(d: Dims, s: SbSettings, fs: seq<bool>, n: VtNodes, level: nat,
                                     i: int, j: int, k: int, r: int, c: int)
    requires |fs| == 21 && NodesShaped(n) && 1 <= level <= 3 && 0 <= i < 4 && 0 <= j < 4 && 0 <= k < 4
    ensures AllGood(Below(d, s, fs, n, level, i, j, k, r, c), r, c, Span(level),
                    Lo(s.vt.isKeyFrame), Hi(s.vt.isKeyFrame, level))
    decreases level, 0
  {
    var key := s.vt.isKeyFrame;
    var xs := Children(d, s, fs, n, level, i, j, k, r, c);
    forall q | 0 <= q < 4
      ensures AllGood(xs[q], r, c, Span(level), Lo(key), Hi(key, level))
    {
      var x := ChildIndex(level, i, j, k, q);
      var rq, cq := ChildRow(level, r, q), ChildCol(level, c, q);
      ChildAt(d, s, fs, n, level, i, j, k, r, c, xs, q, level - 1, x.0, x.1, x.2, rq, cq);
      CascadeGood(d, s, fs, n, level - 1, x.0, x.1, x.2, rq, cq);
      ChildInside(level, r, c, q);
      GoodWithin(xs[q], rq, cq, Span(level - 1), r, c, Span(level), Lo(key), Hi(key, level - 1), Hi(key, level));
    }
    FlattenGood(xs, r, c, Span(level), Lo(key), Hi(key, level));
  }

  /** Every block choose_partitioning sets lies inside the superblock. */
  lemma SbPlacementsGood(d: Dims, k: SbKernels, s: SbSettings, ySad: int, row: int, col: int)
    ensures AllGood(SbPlacements(d, k, s, ySad, row, col), row, col, 8, Lo(s.vt.isKeyFrame), Hi(s.vt.isKeyFrame, 3))
  {
    if !LowSad(d, s, ySad, row, col) {
      var fs, n := SbForceSplit(d, k, s, row, col), SbNodes(d, k, s, row, col);
      CascadeGood(d, s, fs, n, 3, 0, 0, 0, row, col);
      SuperblockSpan();
      assert SbPlacements(d, k, s, ySad, row, col) == Cascade(d, s, fs, n, 3, 0, 0, 0, row, col);
    }
  }

  /** The inter-frame shortcut: a superblock of the base segment whose SAD
      against the reference is below vbp_threshold_sad, and which reaches
      past the middle of the frame's last rows and columns, is kept whole. */
  predicate LowSad(d: Dims, s: SbSettings, ySad: int, row: int, col: int)
  {
    !s.vt.isKeyFrame && s.segmentId == CR_SEGMENT_ID_BASE && ySad < s.thresholdSad
    && col + Num8x8Wide(BLOCK_64X64) / 2 < d.miCols && row + Num8x8High(BLOCK_64X64) / 2 < d.miRows
  }

  /** The tree context of the superblock at (row, col). */
  function CtxAt(d: Dims, k: SbKernels, s: SbSettings, row: int, col: int): TreeCtx
  {
    TreeCtx(k, s.vt.isKeyFrame, PixelsInside(d.miCols, col), PixelsInside(d.miRows, row))
  }

  /** force_split and the tree nodes of the superblock at (row, col). */
  function SbForceSplit(d: Dims, k: SbKernels, s: SbSettings, row: int, col: int): (fs: seq<bool>)
    ensures |fs| == 21
  {
    ForceSplitOf(s, s.vt.isKeyFrame, MeasuresOf(CtxAt(d, k, s, row, col)))
  }

  function SbNodes(d: Dims, k: SbKernels, s: SbSettings, row: int, col: int): (n: VtNodes)
    ensures NodesShaped(n)
  {
    var c := CtxAt(d, k, s, row, col);
    NodesOf(c, s, MeasuresOf(c))
  }

  /** The cascade over the superblock's variance tree. */
  function VarianceCascade(d: Dims, k: SbKernels, s: SbSettings, row: int, col: int): seq<Placement>
  {
    Cascade(d, s, SbForceSplit(d, k, s, row, col), SbNodes(d, k, s, row, col), 3, 0, 0, 0, row, col)
  }

  /** Every set_block_size call choose_partitioning makes for the
      superblock at (row, col), in order. */
  function SbPlacements(d: Dims, k: SbKernels, s: SbSettings, ySad: int, row: int, col: int): seq<Placement>
  {
    if LowSad(d, s, ySad, row, col) then [Placement(row, col, BLOCK_64X64)] else VarianceCascade(d, k, s, row, col)
  }

  /** What a boosted cyclic-refresh segment changes: the superblock is
      never kept whole by the low-SAD shortcut, its 16x16 blocks vote on
      their own 16x16 threshold alone, with the threshold of the segment's
      qindex; an inter frame keeps the frame's 8x8 threshold. Outside
      cyclic refresh the frame's thresholds and the base segment apply. */
  lemma BoostedSegmentRules(d: Dims, k: SbKernels, c: SbConfig, ySad: int, row: int, col: int,
                            m: Measures, i: int, j: int)
    requires Shaped(m) && 0 <= i < 4 && 0 <= j < 4
    ensures var s := SettleSb(c);
      (Boosted(s.segmentId) ==>
         SbPlacements(d, k, s, ySad, row, col) == VarianceCascade(d, k, s, row, col)
         && (SplitVote16(s, s.vt.isKeyFrame, m, i, j) <==> !c.vt.isKeyFrame && m.var16[i][j] > s.thresholds.t16)
         && (!c.vt.isKeyFrame ==> s.thresholds.t8 == c.frameThresholds.t8))
      && (!c.cyclicRefresh ==> s.segmentId == CR_SEGMENT_ID_BASE && s.thresholds == c.frameThresholds)
  {
  }

  // ---------------------------------------------------------------------
  // The inter-frame seed.

  /** What the reference search of an inter frame reports: the SAD of the
      integral-projection motion search against LAST and the motion vector
      it found, and the zero-motion SAD against GOLDEN (UINT_MAX when there
      is no distinct GOLDEN buffer). */
  datatype SeedSearch = SeedSearch(ySadLast: int, lastMv: Mv, ySadGolden: int)

  /** GOLDEN is taken only when strictly better. */
  predicate UsesGolden(q: SeedSearch) { q.ySadGolden < q.ySadLast }

  /** y_sad after the choice. */
  function SeedSad(q: SeedSearch): (y: int)
    ensures y == Min(q.ySadLast, q.ySadGolden)
  {
    if UsesGolden(q) then q.ySadGolden else q.ySadLast
  }

  /** The superblock's record as choose_partitioning leaves it before the
      cascade on inter frames: a 64X64 single-reference block predicted
      with BILINEAR, from GOLDEN with a zero vector or from LAST with the
      searched vector. */
  function SeedRecord(m: ModeInfo, q: SeedSearch): ModeInfo
  {
    var golden := UsesGolden(q);
    m.(refFrame0 := if golden then GOLDEN_FRAME else LAST_FRAME, refFrame1 := NONE_FRAME,
       sbType := BLOCK_64X64, mv0 := if golden then Mv(0, 0) else q.lastMv, interpFilter := BILINEAR)
  }

  /** The seed is an inter block on the reference with the smaller SAD
      (LAST on a tie), whose SAD is the y_sad the shortcut tests; its
      other fields are untouched. */
  lemma SeedRecordChoosesReference(m: ModeInfo, q: SeedSearch)
    ensures var r := SeedRecord(m, q);
      IsInter(r) && r.refFrame1 == NONE_FRAME && r.sbType == BLOCK_64X64 && r.interpFilter == BILINEAR
      && (r.refFrame0 == GOLDEN_FRAME <==> q.ySadGolden < q.ySadLast)
      && (r.refFrame0 == LAST_FRAME ==> r.mv0 == q.lastMv && SeedSad(q) == q.ySadLast)
      && (r.refFrame0 == GOLDEN_FRAME ==> r.mv0 == Mv(0, 0) && SeedSad(q) == q.ySadGolden)
      && r.txSize == m.txSize && r.skip == m.skip && r.segmentId == m.segmentId && r.mv1 == m.mv1
  {
  }

  /** The grid after set_offsets and, on inter frames, the seed. */
  function Prepared(d: Dims, s: GridState, key: bool, segment: Option<int>, q: SeedSearch,
                    row: int, col: int): (r: GridState)
    requires WellFormed(d, s) && InFrame(d, row, col)
    ensures WellFormed(d, r)
  {
    var o := Offsets(d, s, row, col, segment);
    if key then o else Seeded(d, o, q, row, col)
  }

  /** The grid with the superblock's own record seeded. */
  function Seeded(d: Dims, s: GridState, q: SeedSearch, row: int, col: int): (r: GridState)
    requires WellFormed(d, s) && InFrame(d, row, col)
    ensures WellFormed(d, r)
  {
    IndexInRange(d, row, col);
    var i := Index(d, row, col);
    GridState(s.cells, s.recs[i := SeedRecord(s.recs[i], q)])
  }

  /** Whatever the cascade then sets, the superblock's cell still points at
      its own record, and on inter frames that record keeps the seed in
      everything but its size. */
  lemma SeedSurvivesCascade(d: Dims, s: GridState, key: bool, segment: Option<int>, q: SeedSearch,
                            row: int, col: int, ps: seq<Placement>)
    requires WellFormed(d, s) && InFrame(d, row, col)
    ensures var p := Prepared(d, s, key, segment, q, row, col);
      var r := PlaceAll(d, p, ps);
      CellOf(d, r, row, col) == Index(d, row, col)
      && (!key ==> RecordAt(d, r, row, col).(sbType := BLOCK_4X4)
                   == SeedRecord(RecordAt(d, Offsets(d, s, row, col, segment), row, col), q).(sbType := BLOCK_4X4))
  {
    IndexInRange(d, row, col);
    OffsetsLocal(d, s, row, col, segment);
    PlaceAllPointsHome(d, Prepared(d, s, key, segment, q, row, col), ps, Index(d, row, col));
    PlaceAllOnlySizes(d, Prepared(d, s, key, segment, q, row, col), ps, Index(d, row, col));
  }

  /** The seed writes of choose_partitioning. */
  method SeedSb(g: Grid, row: int, col: int, q: SeedSearch)
    requires g.Valid() && InFrame(g.dims, row, col)
    modifies g.records
    ensures g.State() == Seeded(g.dims, old(g.State()), q, row, col)
  {
    IndexInRange(g.dims, row, col);
    var idx := Index(g.dims, row, col);
    g.records[idx] := SeedRecord(g.records[idx], q);
  }

  method Place8(g: Grid, s: SbSettings, ghost fs: seq<bool>, n: VtNodes, i: int, j: int, k: int, r8: int, c8: int,
                ghost ps: seq<Placement>)
    requires g.Valid() && |fs| == 21 && NodesShaped(n) && 0 <= i < 4 && 0 <= j < 4 && 0 <= k < 4 && r8 >= 0 && c8 >= 0
    requires ps == Cascade(g.dims, s, fs, n, 0, i, j, k, r8, c8)
    modifies g.cells, g.records
    ensures g.State() == PlaceAll(g.dims, old(g.State()), ps)
  {
    ghost var s0 := g.State();
    if s.vt.isKeyFrame {
      var kept := SetVtPartitioning(g, s.vt, n.n8[i][j][k], BLOCK_8X8, r8, c8, s.thresholds.t8, BLOCK_8X8, false);
      if !kept {
        SetBlockSize(g, r8, c8, BLOCK_4X4);
        PlaceOne(g.dims, s0, Placement(r8, c8, BLOCK_4X4));
      }
    } else {
      SetBlockSize(g, r8, c8, BLOCK_8X8);
      PlaceOne(g.dims, s0, Placement(r8, c8, BLOCK_8X8));
    }
  }

  /** One unfolding of Cascade, for the methods below. */
  lemma CascadeStep(d: Dims, s: SbSettings, fs: seq<bool>, n: VtNodes, level: nat, i: int, j: int, k: int,
                    r: int, c: int)
    requires |fs| == 21 && NodesShaped(n) && level <= 3 && 0 <= i < 4 && 0 <= j < 4 && 0 <= k < 4
    requires !(level == 3 && (c + 8 > d.miCols || r + 8 > d.miRows)) && !(level == 0 && !s.vt.isKeyFrame)
    ensures var ch := VtChoice(d, s.vt, LevelNode(n, level, i, j, k), LevelSize(level), r, c,
                               LevelThreshold(s.thresholds, level), LevelMin(s, level), LevelForced(fs, level, i, j));
      Cascade(d, s, fs, n, level, i, j, k, r, c)
        == if ch.Some? then ShapePlacements(LevelSize(level), r, c, ch.value)
           else if level == 0 then [Placement(r, c, BLOCK_4X4)]
           else Below(d, s, fs, n, level, i, j, k, r, c)
  {
  }

  /** Entry q of the children of block (i, j, k), at the coordinates and
      indices of the level below. */
  lemma ChildAt(d: Dims, s: SbSettings, fs: seq<bool>, n: VtNodes, level: nat, i: int, j: int, k: int,
                r: int, c: int, xs: seq<seq<Placement>>, q: int, lv: nat, ci: int, cj: int, ck: int, cr: int, cc: int)
    requires |fs| == 21 && NodesShaped(n) && 1 <= level <= 3 && 0 <= i < 4 && 0 <= j < 4 && 0 <= k < 4
    requires xs == Children(d, s, fs, n, level, i, j, k, r, c) && lv == level - 1
    requires 0 <= q < 4 && ChildIndex(level, i, j, k, q) == (ci, cj, ck)
    requires cr == ChildRow(level, r, q) && cc == ChildCol(level, c, q)
    ensures 0 <= ci < 4 && 0 <= cj < 4 && 0 <= ck < 4
    ensures xs[q] == Cascade(d, s, fs, n, lv, ci, cj, ck, cr, cc)
  {
    assert xs[q] == Child(d, s, fs, n, level, i, j, k, r, c, q);
  }


  /** One turn of the loop over the four 8x8 blocks of a 16x16 block. */
  method Split16Step(g: Grid, s: SbSettings, ghost fs: seq<bool>, n: VtNodes, i: int, j: int, r16: int, c16: int, k: int,
                     ghost s0: GridState, ghost xs: seq<seq<Placement>>)
    requires g.Valid() && |fs| == 21 && NodesShaped(n) && 0 <= i < 4 && 0 <= j < 4 && r16 >= 0 && c16 >= 0
    requires 0 <= k < 4 && xs == Children(g.dims, s, fs, n, 1, i, j, 0, r16, c16) && WellFormed(g.dims, s0)
    requires g.State() == PlaceAll(g.dims, s0, Flatten(xs[..k]))
    modifies g.cells, g.records
    ensures g.State() == PlaceAll(g.dims, s0, Flatten(xs[..k + 1]))
  {
    var r8, c8 := ChildRow(1, r16, k), ChildCol(1, c16, k);
    ChildInside(1, r16, c16, k);
    ChildAt(g.dims, s, fs, n, 1, i, j, 0, r16, c16, xs, k, 0, i, j, k, r8, c8);
    ghost var mid := g.State();
    Place8(g, s, fs, n, i, j, k, r8, c8, xs[k]);
    PlacePrefixStep(g.dims, s0, xs, k, mid);
  }

  /** The four 8x8 blocks of a 16x16 block that was not kept. */
  method Split16(g: Grid, s: SbSettings, ghost fs: seq<bool>, n: VtNodes, i: int, j: int, r16: int, c16: int)
    requires g.Valid() && |fs| == 21 && NodesShaped(n) && 0 <= i < 4 && 0 <= j < 4 && r16 >= 0 && c16 >= 0
    modifies g.cells, g.records
    ensures g.State() == PlaceAll(g.dims, old(g.State()), Below(g.dims, s, fs, n, 1, i, j, 0, r16, c16))
  {
    ghost var s0 := g.State();
    ghost var xs := Children(g.dims, s, fs, n, 1, i, j, 0, r16, c16);
    var k := 0;
    while k < 4
      invariant 0 <= k <= 4
      invariant g.State() == PlaceAll(g.dims, s0, Flatten(xs[..k]))
    {
      Split16Step(g, s, fs, n, i, j, r16, c16, k, s0, xs);
      k := k + 1;
    }
    assert xs[..4] == xs;
  }

  method Place16(g: Grid, s: SbSettings, ghost fs: seq<bool>, n: VtNodes, forceSplit: array<bool>,
                 i: int, j: int, r16: int, c16: int, ghost ps: seq<Placement>)
    requires g.Valid() && |fs| == 21 && NodesShaped(n) && 0 <= i < 4 && 0 <= j < 4 && r16 >= 0 && c16 >= 0
    requires forceSplit.Length == 21 && forceSplit[..] == fs
    requires ps == Cascade(g.dims, s, fs, n, 1, i, j, 0, r16, c16)
    modifies g.cells, g.records
    ensures g.State() == PlaceAll(g.dims, old(g.State()), ps)
  {
    var kept := SetVtPartitioning(g, s.vt, n.n16[i][j], BLOCK_16X16, r16, c16, s.thresholds.t16, s.bsizeMin,
                                  forceSplit[5 + 4 * i + j]);
    if !kept {
      Split16(g, s, fs, n, i, j, r16, c16);
    }
    CascadeStep(g.dims, s, fs, n, 1, i, j, 0, r16, c16);
  }

  /** One turn of the loop over the four 16x16 blocks of a 32x32 block. */
  method Split32Step(g: Grid, s: SbSettings, ghost fs: seq<bool>, n: VtNodes, forceSplit: array<bool>, i: int,
                     r32: int, c32: int, j: int, ghost s0: GridState, ghost xs: seq<seq<Placement>>)
    requires g.Valid() && |fs| == 21 && NodesShaped(n) && 0 <= i < 4 && r32 >= 0 && c32 >= 0
    requires forceSplit.Length == 21 && forceSplit[..] == fs
    requires 0 <= j < 4 && xs == Children(g.dims, s, fs, n, 2, i, 0, 0, r32, c32) && WellFormed(g.dims, s0)
    requires g.State() == PlaceAll(g.dims, s0, Flatten(xs[..j]))
    modifies g.cells, g.records
    ensures g.State() == PlaceAll(g.dims, s0, Flatten(xs[..j + 1]))
  {
    var r16, c16 := ChildRow(2, r32, j), ChildCol(2, c32, j);
    ChildInside(2, r32, c32, j);
    ChildAt(g.dims, s, fs, n, 2, i, 0, 0, r32, c32, xs, j, 1, i, j, 0, r16, c16);
    ghost var mid := g.State();
    Place16(g, s, fs, n, forceSplit, i, j, r16, c16, xs[j]);
    PlacePrefixStep(g.dims, s0, xs, j, mid);
  }

  /** The four 16x16 blocks of a 32x32 block that was not kept. */
  method Split32(g: Grid, s: SbSettings, ghost fs: seq<bool>, n: VtNodes, forceSplit: array<bool>, i: int, r32: int, c32: int)
    requires g.Valid() && |fs| == 21 && NodesShaped(n) && 0 <= i < 4 && r32 >= 0 && c32 >= 0
    requires forceSplit.Length == 21 && forceSplit[..] == fs
    modifies g.cells, g.records
    ensures g.State() == PlaceAll(g.dims, old(g.State()), Below(g.dims, s, fs, n, 2, i, 0, 0, r32, c32))
  {
    ghost var s0 := g.State();
    ghost var xs := Children(g.dims, s, fs, n, 2, i, 0, 0, r32, c32);
    var j := 0;
    while j < 4
      invariant 0 <= j <= 4
      invariant g.State() == PlaceAll(g.dims, s0, Flatten(xs[..j]))
    {
      Split32Step(g, s, fs, n, forceSplit, i, r32, c32, j, s0, xs);
      j := j + 1;
    }
    assert xs[..4] == xs;
  }

  method Place32(g: Grid, s: SbSettings, ghost fs: seq<bool>, n: VtNodes, forceSplit: array<bool>,
                 i: int, r32: int, c32: int, ghost ps: seq<Placement>)
    requires g.Valid() && |fs| == 21 && NodesShaped(n) && 0 <= i < 4 && r32 >= 0 && c32 >= 0
    requires forceSplit.Length == 21 && forceSplit[..] == fs
    requires ps == Cascade(g.dims, s, fs, n, 2, i, 0, 0, r32, c32)
    modifies g.cells, g.records
    ensures g.State() == PlaceAll(g.dims, old(g.State()), ps)
  {
    var kept := SetVtPartitioning(g, s.vt, n.n32[i], BLOCK_32X32, r32, c32, s.thresholds.t32, BLOCK_16X16,
                                  forceSplit[i + 1]);
    if !kept {
      Split32(g, s, fs, n, forceSplit, i, r32, c32);
    }
    CascadeStep(g.dims, s, fs, n, 2, i, 0, 0, r32, c32);
  }

  /** One turn of the loop over the four 32x32 blocks of a superblock. */
  method Split64Step(g: Grid, s: SbSettings, ghost fs: seq<bool>, n: VtNodes, forceSplit: array<bool>,
                     row: int, col: int, i: int, ghost s0: GridState, ghost xs: seq<seq<Placement>>)
    requires g.Valid() && |fs| == 21 && NodesShaped(n) && row >= 0 && col >= 0
    requires forceSplit.Length == 21 && forceSplit[..] == fs
    requires 0 <= i < 4 && xs == Children(g.dims, s, fs, n, 3, 0, 0, 0, row, col) && WellFormed(g.dims, s0)
    requires g.State() == PlaceAll(g.dims, s0, Flatten(xs[..i]))
    modifies g.cells, g.records
    ensures g.State() == PlaceAll(g.dims, s0, Flatten(xs[..i + 1]))
  {
    var r32, c32 := ChildRow(3, row, i), ChildCol(3, col, i);
    ChildInside(3, row, col, i);
    ChildAt(g.dims, s, fs, n, 3, 0, 0, 0, row, col, xs, i, 2, i, 0, 0, r32, c32);
    ghost var mid := g.State();
    Place32(g, s, fs, n, forceSplit, i, r32, c32, xs[i]);
    PlacePrefixStep(g.dims, s0, xs, i, mid);
  }

  /** The four 32x32 blocks of a superblock that was not kept. */
  method Split64(g: Grid, s: SbSettings, ghost fs: seq<bool>, n: VtNodes, forceSplit: array<bool>, row: int, col: int)
    requires g.Valid() && |fs| == 21 && NodesShaped(n) && row >= 0 && col >= 0
    requires forceSplit.Length == 21 && forceSplit[..] == fs
    modifies g.cells, g.records
    ensures g.State() == PlaceAll(g.dims, old(g.State()), Below(g.dims, s, fs, n, 3, 0, 0, 0, row, col))
  {
    ghost var s0 := g.State();
    ghost var xs := Children(g.dims, s, fs, n, 3, 0, 0, 0, row, col);
    var i := 0;
    while i < 4
      invariant 0 <= i <= 4
      invariant g.State() == PlaceAll(g.dims, s0, Flatten(xs[..i]))
    {
      Split64Step(g, s, fs, n, forceSplit, row, col, i, s0, xs);
      i := i + 1;
    }
    assert xs[..4] == xs;
  }

  method Place64(g: Grid, s: SbSettings, ghost fs: seq<bool>, n: VtNodes, forceSplit: array<bool>, row: int, col: int)
    requires g.Valid() && |fs| == 21 && NodesShaped(n) && row >= 0 && col >= 0
    requires forceSplit.Length == 21 && forceSplit[..] == fs
    modifies g.cells, g.records
    ensures g.State() == PlaceAll(g.dims, old(g.State()), Cascade(g.dims, s, fs, n, 3, 0, 0, 0, row, col))
  {
    var d := g.dims;
    if col + 8 > d.miCols || row + 8 > d.miRows {
      Split64(g, s, fs, n, forceSplit, row, col);
    } else {
      var kept := SetVtPartitioning(g, s.vt, n.n64, BLOCK_64X64, row, col, s.thresholds.t64, BLOCK_16X16,
                                    forceSplit[0]);
      if !kept {
        Split64(g, s, fs, n, forceSplit, row, col);
      }
      CascadeStep(d, s, fs, n, 3, 0, 0, 0, row, col);
    }
  }

  /** force_split of the superblock at (row, col), filled by the two loops. */
  method SbForceSplitArray(d: Dims, k: SbKernels, s: SbSettings, row: int, col: int) returns (forceSplit: array<bool>)
    ensures fresh(forceSplit) && forceSplit.Length == 21 && forceSplit[..] == SbForceSplit(d, k, s, row, col)
  {
    var m := MeasuresOf(CtxAt(d, k, s, row, col));
    var downsample;
    forceSplit, downsample := ForceSplitFlags(s, s.vt.isKeyFrame, m);
  }

  /** The variance-tree part of choose_partitioning, after set_offsets and
      the seed: build the tree, fill force_split, then run the cascade from
      the 64x64 block down. */
  method PartitionByVariance(g: Grid, k: SbKernels, s: SbSettings, row: int, col: int)
    requires g.Valid() && row >= 0 && col >= 0
    modifies g.cells, g.records
    ensures g.State() == PlaceAll(g.dims, old(g.State()), VarianceCascade(g.dims, k, s, row, col))
  {
    var forceSplit := SbForceSplitArray(g.dims, k, s, row, col);
    Place64(g, s, SbForceSplit(g.dims, k, s, row, col), SbNodes(g.dims, k, s, row, col), forceSplit, row, col);
  }

  /** choose_partitioning for the superblock at (row, col): with the
      settings SettleSb derives, after set_offsets and, on inter frames,
      the seed, the grid takes exactly the sizes of SbPlacements. */
  method ChoosePartitioningSb(g: Grid, k: SbKernels, cfg: SbConfig, segment: Option<int>, q: SeedSearch,
                              row: int, col: int)
    requires g.Valid() && InFrame(g.dims, row, col)
    modifies g.cells, g.records
    ensures g.State() == PlaceAll(g.dims, Prepared(g.dims, old(g.State()), cfg.vt.isKeyFrame, segment, q, row, col),
                                  SbPlacements(g.dims, k, SettleSb(cfg), SeedSad(q), row, col))
  {
    var d := g.dims;
    var s := SettleSb(cfg);
    SetOffsets(g, row, col, segment);
    if !s.vt.isKeyFrame {
      SeedSb(g, row, col, q);
      var ySad := SeedSad(q);
      if s.segmentId == CR_SEGMENT_ID_BASE && ySad < s.thresholdSad {
        if col + Num8x8Wide(BLOCK_64X64) / 2 < d.miCols && row + Num8x8High(BLOCK_64X64) / 2 < d.miRows {
          ghost var s0 := g.State();
          SetBlockSize(g, row, col, BLOCK_64X64);
          PlaceOne(d, s0, Placement(row, col, BLOCK_64X64));
          return;
        }
      }
    }
    PartitionByVariance(g, k, s, row, col);
  }
}
