// The variance quad-tree used by the variance-based partition classifier:
// leaf sums built from down-sampled block averages, the node fill that adds
// them up, get_variance's integer formula, and the split thresholds.

module Variance {
  import opened Blocks

  /** var: sum of squared leaf values, sum of leaf values and log2 of the
      number of leaves. The C struct's `variance` field is always read
      right after get_variance recomputes it from these three, so the model
      computes it on demand with GetVariance. */
  datatype Var = Var(sse: int, se: int, log2Count: int)

  /** partition_variance: the whole block and its two halves each way. */
  datatype PartitionVariance = PartitionVariance(none: Var, horz0: Var, horz1: Var, vert0: Var, vert1: Var)

  /** get_variance: 256 * (sse - se^2 / n) / n with both divisions done by
      arithmetic right shifts, i.e. rounding toward minus infinity, which is
      what Dafny's division by a positive divisor does. */
  function GetVariance(v: Var): int
    requires v.log2Count >= 0
  {
    var n := Pow2(v.log2Count);
    (256 * (v.sse - (v.se * v.se) / n)) / n
  }

  /** sum_2_variances (the C code asserts the equal counts). */
  function Sum2Variances(a: Var, b: Var): Var
    requires a.log2Count == b.log2Count
  {
    Var(a.sse + b.sse, a.se + b.se, a.log2Count + 1)
  }

  /** Every variance of the node has a non-negative count. */
  predicate Counted(pv: PartitionVariance)
  {
    pv.none.log2Count >= 0 && pv.horz0.log2Count >= 0 && pv.horz1.log2Count >= 0
    && pv.vert0.log2Count >= 0 && pv.vert1.log2Count >= 0
  }

  predicate SameCount(split: seq<Var>)
  {
    |split| == 4 && forall i :: 0 <= i < 4 ==> split[i].log2Count == split[0].log2Count
  }

  /** fill_variance_tree: the four quadrants are numbered in raster order
      (0 top-left, 1 top-right, 2 bottom-left, 3 bottom-right). */
  function FillVarianceTree(split: seq<Var>): (pv: PartitionVariance)
    requires SameCount(split)
    ensures pv.none.log2Count == split[0].log2Count + 2
    ensures pv.horz0.log2Count == pv.horz1.log2Count == pv.vert0.log2Count == pv.vert1.log2Count
            == split[0].log2Count + 1
  {
    var h0 := Sum2Variances(split[0], split[1]);
    var h1 := Sum2Variances(split[2], split[3]);
    var v0 := Sum2Variances(split[0], split[2]);
    var v1 := Sum2Variances(split[1], split[3]);
    PartitionVariance(Sum2Variances(v0, v1), h0, h1, v0, v1)
  }

  /** fill_variance_4x4avg / fill_variance_8x8avg, one leaf: the difference
      of the source and reference averages (the reference average is the
      constant 128 on key frames), or an empty leaf outside the frame. */
  function AvgLeaf(inFrame: bool, isKeyFrame: bool, srcAvg: int, refAvg: int): Var
  {
    if inFrame then
      var sum := srcAvg - (if isKeyFrame then 128 else refAvg);
      Var(sum * sum, sum, 0)
    else Var(0, 0, 0)
  }

  /** The leaf value AvgLeaf is built from. */
  function LeafValue(inFrame: bool, isKeyFrame: bool, srcAvg: int, refAvg: int): int
  {
    if inFrame then srcAvg - (if isKeyFrame then 128 else refAvg) else 0
  }

  // ---------------------------------------------------------------------
  // What the sums mean: a Var built from a list of leaf values.

  function Sum(xs: seq<int>): int
  {
    if |xs| == 0 then 0 else xs[0] + Sum(xs[1..])
  }

  function SumSq(xs: seq<int>): int
  {
    if |xs| == 0 then 0 else xs[0] * xs[0] + SumSq(xs[1..])
  }

  /** Sum of squared deviations of xs from y. */
  function SqDev(xs: seq<int>, y: int): (r: int)
    ensures r >= 0
  {
    if |xs| == 0 then 0
    else
      var d := xs[0] - y;
      SquareBound(d, if d < 0 then -d else d);
      d * d + SqDev(xs[1..], y)
  }

  predicate AllEqual(xs: seq<int>)
  {
    forall i :: 0 <= i < |xs| ==> xs[i] == xs[0]
  }

  /** v holds the sums of the leaf values xs, whose number is 2^log2Count. */
  predicate BuiltFrom(v: Var, xs: seq<int>)
  {
    v.log2Count >= 0 && |xs| == Pow2(v.log2Count) && v.sse == SumSq(xs) && v.se == Sum(xs)
  }

  lemma {:induction false} SumsConcat(xs: seq<int>, ys: seq<int>)
    ensures Sum(xs + ys) == Sum(xs) + Sum(ys)
    ensures SumSq(xs + ys) == SumSq(xs) + SumSq(ys)
  {
    if |xs| == 0 {
      assert xs + ys == ys;
    } else {
      assert (xs + ys)[1..] == xs[1..] + ys;
      SumsConcat(xs[1..], ys);
    }
  }

  /** A leaf as the fill functions build it holds one value. */
  lemma AvgLeafBuilt(inFrame: bool, isKeyFrame: bool, srcAvg: int, refAvg: int)
    ensures BuiltFrom(AvgLeaf(inFrame, isKeyFrame, srcAvg, refAvg), [LeafValue(inFrame, isKeyFrame, srcAvg, refAvg)])
  {
    var x := LeafValue(inFrame, isKeyFrame, srcAvg, refAvg);
    assert Sum([x]) == x + Sum([]);
    assert SumSq([x]) == x * x + SumSq([]);
  }

  /** sum_2_variances of two nodes is the node of the concatenated leaves,
      with one more level of count. */
  lemma Sum2Built(a: Var, b: Var, xs: seq<int>, ys: seq<int>)
    requires BuiltFrom(a, xs) && BuiltFrom(b, ys) && a.log2Count == b.log2Count
    ensures BuiltFrom(Sum2Variances(a, b), xs + ys)
    ensures Sum2Variances(a, b).log2Count == a.log2Count + 1
  {
    SumsConcat(xs, ys);
  }

  /** fill_variance_tree: every partition variance is the node of the
      leaves it covers, and the whole block counts four times the leaves of
      a quadrant (log2 count + 2). */
  lemma FillTreeBuilt(split: seq<Var>, xs: seq<seq<int>>)
    requires SameCount(split) && |xs| == 4
    requires forall i :: 0 <= i < 4 ==> BuiltFrom(split[i], xs[i])
    ensures var pv := FillVarianceTree(split);
      && BuiltFrom(pv.horz0, xs[0] + xs[1]) && BuiltFrom(pv.horz1, xs[2] + xs[3])
      && BuiltFrom(pv.vert0, xs[0] + xs[2]) && BuiltFrom(pv.vert1, xs[1] + xs[3])
      && BuiltFrom(pv.none, (xs[0] + xs[2]) + (xs[1] + xs[3]))
      && pv.none.log2Count == split[0].log2Count + 2
  {
    Sum2Built(split[0], split[1], xs[0], xs[1]);
    Sum2Built(split[2], split[3], xs[2], xs[3]);
    Sum2Built(split[0], split[2], xs[0], xs[2]);
    Sum2Built(split[1], split[3], xs[1], xs[3]);
    var v0 := Sum2Variances(split[0], split[2]);
    var v1 := Sum2Variances(split[1], split[3]);
    Sum2Built(v0, v1, xs[0] + xs[2], xs[1] + xs[3]);
  }

  // ---------------------------------------------------------------------
  // get_variance is the (scaled, floored) population variance of the leaves.

  lemma SquareOfDifference(a: int, y: int)
    ensures (a - y) * (a - y) == a * a - 2 * a * y + y * y
  {
  }

  lemma ScaleSum(y: int, a: int, s: int, n: int)
    ensures 2 * y * (a + s) == 2 * y * a + 2 * y * s
    ensures (n + 1) * y * y == n * y * y + y * y
  {
  }

  lemma ExpandStep(a: int, y: int, q: int, s: int, n: int, d: int)
    requires d == q - 2 * y * s + n * y * y
    ensures (a - y) * (a - y) + d == (a * a + q) - 2 * y * (a + s) + (n + 1) * y * y
  {
  }

  lemma {:induction false} SqDevExpand(xs: seq<int>, y: int)
    ensures SqDev(xs, y) == SumSq(xs) - 2 * y * Sum(xs) + |xs| * y * y
  {
    if |xs| > 0 {
      var a, t := xs[0], xs[1..];
      SqDevExpand(t, y);
      ExpandStep(a, y, SumSq(t), Sum(t), |t|, SqDev(t, y));
    }
  }

  lemma SquarePositive(d: int)
    requires d != 0
    ensures d * d > 0
  {
  }

  lemma {:induction false} SqDevPositive(xs: seq<int>, y: int, i: int)
    requires 0 <= i < |xs| && xs[i] != y
    ensures SqDev(xs, y) > 0
  {
    var d := xs[0] - y;
    assert SqDev(xs, y) == d * d + SqDev(xs[1..], y);
    if i == 0 {
      SquarePositive(d);
    } else {
      SquareBound(d, if d < 0 then -d else d);
      SqDevPositive(xs[1..], y, i - 1);
    }
  }

  /** n * sum of squares - (sum)^2, which is n^2 times the variance. */
  function Defect(xs: seq<int>): int
  {
    |xs| * SumSq(xs) - Sum(xs) * Sum(xs)
  }

  /** The defect of a + t is the defect of t plus t's squared deviation
      from a, written on plain integers. */
  lemma DefectStep(n: int, a: int, q: int, s: int, dev: int)
    requires dev == q - 2 * a * s + n * a * a
    ensures (n + 1) * (a * a + q) - (a + s) * (a + s) == (n * q - s * s) + dev
  {
  }

  /** Cauchy-Schwarz for leaf sums: the defect is never negative, and it is
      positive as soon as two leaves differ. */
  lemma {:induction false} CauchySchwarz(xs: seq<int>)
    ensures Defect(xs) >= 0
    ensures !AllEqual(xs) ==> Defect(xs) > 0
  {
    if |xs| > 0 {
      var a, t := xs[0], xs[1..];
      CauchySchwarz(t);
      SqDevExpand(t, a);
      DefectStep(|t|, a, SumSq(t), Sum(t), SqDev(t, a));
      assert Defect(xs) == Defect(t) + SqDev(t, a);
      if forall k :: 0 <= k < |t| ==> t[k] == a {
        assert AllEqual(xs) by {
          forall k | 0 <= k < |xs|
            ensures xs[k] == xs[0]
          {
            if k > 0 { assert xs[k] == t[k - 1]; }
          }
        }
      } else {
        var k :| 0 <= k < |t| && t[k] != a;
        SqDevPositive(t, a, k);
      }
    }
  }

  lemma {:induction false} SumsOfFlat(xs: seq<int>, c: int)
    requires forall i :: 0 <= i < |xs| ==> xs[i] == c
    ensures Sum(xs) == |xs| * c
    ensures SumSq(xs) == |xs| * (c * c)
  {
    if |xs| > 0 {
      SumsOfFlat(xs[1..], c);
      ScaleSum(c, 0, 0, |xs| - 1);
    }
  }

  lemma FloorBelow(m: int, n: int, b: int)
    requires n > 0 && m <= n * b
    ensures m / n <= b
  {
  }

  lemma FloorStrictlyBelow(m: int, n: int, b: int)
    requires n > 0 && m < n * b
    ensures m / n < b
  {
  }

  lemma FloorAtLeastOne(m: int, n: int)
    requires n > 0 && m >= n
    ensures m / n >= 1
  {
  }

  lemma CancelFactor(n: int, b: int, c: int)
    requires n > 0 && n * b < n * c
    ensures b < c
  {
  }

  lemma FloorAbove(m: int, n: int, b: int)
    requires n > 0 && n * b <= m
    ensures b <= m / n
  {
    var qt := m / n;
    assert m == n * qt + m % n && m % n < n;
    assert n * (qt + 1) == n * qt + n;
    CancelFactor(n, b, qt + 1);
  }

  lemma ExactQuotient(n: int, c: int)
    requires n > 0
    ensures (n * c) / n == c
  {
    FloorBelow(n * c, n, c);
    FloorAbove(n * c, n, c);
  }

  lemma {:induction false} Pow2Monotone(j: nat, k: nat)
    requires j <= k
    ensures Pow2(j) <= Pow2(k)
  {
    if j < k {
      Pow2Monotone(j, k - 1);
    }
  }

  lemma ScaledQuotientNonNeg(q: int, f: int, n: int)
    requires n > 0 && f <= q
    ensures (256 * (q - f)) / n >= 0
  {
  }

  /** get_variance never goes negative on a node built from leaves. */
  lemma VarianceNonNegative(v: Var, xs: seq<int>)
    requires BuiltFrom(v, xs)
    ensures GetVariance(v) >= 0
  {
    var n := Pow2(v.log2Count);
    CauchySchwarz(xs);
    assert v.se * v.se <= n * v.sse;
    FloorBelow(v.se * v.se, n, v.sse);
    ScaledQuotientNonNeg(v.sse, (v.se * v.se) / n, n);
  }

  /** Up to 256 leaves (a 64x64 block of 4x4 averages), get_variance is
      zero exactly when all leaf values are equal. */
  lemma VarianceZeroIffFlat(v: Var, xs: seq<int>)
    requires BuiltFrom(v, xs) && v.log2Count <= 8
    ensures GetVariance(v) == 0 <==> AllEqual(xs)
  {
    if AllEqual(xs) {
      VarianceOfFlat(v, xs);
    } else {
      VarianceOfUneven(v, xs);
    }
  }

  /** Equal leaves make the integer variance exactly zero. */
  lemma VarianceOfFlat(v: Var, xs: seq<int>)
    requires BuiltFrom(v, xs) && AllEqual(xs)
    ensures GetVariance(v) == 0
  {
    var c := xs[0];
    SumsOfFlat(xs, c);
    FlatFormulaZero(Pow2(v.log2Count), c, v.se, v.sse);
  }

  lemma FlatFormulaZero(n: int, c: int, se: int, sse: int)
    requires n > 0 && se == n * c && sse == n * (c * c)
    ensures (256 * (sse - (se * se) / n)) / n == 0
  {
    FlatSquare(n, c, se);
    ExactQuotient(n, n * (c * c));
    assert (se * se) / n == sse;
  }

  /** Unequal leaves leave a positive variance, as long as the scale 256 is at least the count. */
  lemma VarianceOfUneven(v: Var, xs: seq<int>)
    requires BuiltFrom(v, xs) && v.log2Count <= 8 && !AllEqual(xs)
    ensures GetVariance(v) > 0
  {
    var n := Pow2(v.log2Count);
    var s2 := v.se * v.se;
    CauchySchwarz(xs);
    FloorStrictlyBelow(s2, n, v.sse);
    Pow2Monotone(v.log2Count, 8);
    assert Pow2(8) == 256;
    FloorAtLeastOne(256 * (v.sse - s2 / n), n);
  }

  lemma FlatSquare(n: int, c: int, se: int)
    requires se == n * c
    ensures se * se == n * (n * (c * c))
  {
  }

  lemma SquareBound(a: int, b: int)
    requires b >= 0 && -b <= a <= b
    ensures 0 <= a * a <= b * b
  {
  }

  lemma {:induction false} SumSqBound(xs: seq<int>, b: int)
    requires b >= 0 && forall i :: 0 <= i < |xs| ==> -b <= xs[i] <= b
    ensures 0 <= SumSq(xs) <= |xs| * (b * b)
  {
    if |xs| > 0 {
      SumSqBound(xs[1..], b);
      SquareBound(xs[0], b);
      ScaleSum(b, 0, 0, |xs| - 1);
    }
  }

  lemma ScaledBound(q: int, f: int, n: int, b: int)
    requires n > 0 && 0 <= f && q <= n * b
    ensures 256 * (q - f) <= n * (256 * b)
  {
  }

  /** Leaves are differences of 8-bit averages, so within [-255, 255]; then
      get_variance stays at most 256 * 255^2, well inside the int the C
      code casts the result to. */
  lemma VarianceFitsInt(v: Var, xs: seq<int>)
    requires BuiltFrom(v, xs)
    requires forall i :: 0 <= i < |xs| ==> -255 <= xs[i] <= 255
    ensures 0 <= GetVariance(v) <= 256 * 255 * 255 < 0x8000_0000
  {
    var n := Pow2(v.log2Count);
    VarianceNonNegative(v, xs);
    SumSqBound(xs, 255);
    SquareBound(0, 0);
    var f := (v.se * v.se) / n;
    NonNegQuotient(v.se, n);
    ScaledBound(v.sse, f, n, 255 * 255);
    FloorBelow(256 * (v.sse - f), n, 256 * (255 * 255));
  }

  lemma NonNegQuotient(s: int, n: int)
    requires n > 0
    ensures (s * s) / n >= 0
  {
  }

  // ---------------------------------------------------------------------
  // Split thresholds.

  /** The four split thresholds: index 0 for 64x64, 1 for 32x32, 2 for
      16x16 and 3 for 8x8 (used on key frames only). */
  datatype Thresholds = Thresholds(t64: int, t32: int, t16: int, t8: int)

  predicate LowRes(width: int, height: int) { width <= 352 && height <= 288 }

  /** set_vbp_thresholds. `dequant` is y_dequant[q][1], the AC dequantiser
      of the luma plane (a positive table value). `prev` is what the
      thresholds array held before: a non-key frame leaves index 3 as it
      was. The shifts of a non-negative base are exact divisions and
      multiplications by powers of two. */
  function SetVbpThresholds(isKeyFrame: bool, dequant: nat, width: int, height: int, speed: nat,
                            prev: Thresholds): (t: Thresholds)
    ensures !isKeyFrame ==> t.t8 == prev.t8
  {
    var base := (if isKeyFrame then 20 else 1) * dequant;
    if isKeyFrame then
      Thresholds(base, base / 4, base / 4, base * 4)
    else if LowRes(width, height) then
      Thresholds(base / 4, base, base * 8, prev.t8)
    else
      var t32 := if width >= 1920 && height >= 1080 then (7 * base) / 4 else (5 * base) / 4;
      Thresholds(base, t32, base * Pow2(speed), prev.t8)
  }

  /** The thresholds grow toward the smaller blocks, except that a key
      frame uses the same one for 32x32 and 16x16, and a non-key frame
      above CIF size at speed 0 puts the 16x16 one below the 32x32 one. */
  lemma ThresholdsOrdered(isKeyFrame: bool, dequant: nat, width: int, height: int, speed: nat,
                          prev: Thresholds)
    ensures var t := SetVbpThresholds(isKeyFrame, dequant, width, height, speed, prev);
      && 0 <= t.t64 && 0 <= t.t32 && 0 <= t.t16
      && (isKeyFrame ==> t.t32 == t.t16 <= t.t64 <= t.t8)
      && (!isKeyFrame ==> t.t64 <= t.t32)
      && (!isKeyFrame && (LowRes(width, height) || speed >= 1) ==> t.t32 <= t.t16)
  {
    var base := (if isKeyFrame then 20 else 1) * dequant;
    if !isKeyFrame && !LowRes(width, height) && speed >= 1 {
      Pow2Monotone(1, speed);
      assert base * Pow2(speed) >= base * 2;
    }
  }

  datatype PartitionSearchType = SearchPartition | FixedPartition | ReferencePartition | VarBasedPartition | SourceVarBasedPartition

  /** The encoder fields vp10_set_variance_partition_thresholds sets. */
  datatype VbpState = VbpState(thresholds: Thresholds, thresholdSad: int, bsizeMin: BlockSize, thresholdMinmax: int)

  /** vp10_set_variance_partition_thresholds for quantiser index q. */
  function SetVariancePartitionThresholds(searchType: PartitionSearchType, isKeyFrame: bool, q: nat,
                                          dequant: nat, width: int, height: int, speed: nat,
                                          st: VbpState): (r: VbpState)
    ensures searchType !in {VarBasedPartition, ReferencePartition} ==> r == st
  {
    if searchType != VarBasedPartition && searchType != ReferencePartition then st
    else
      var t := SetVbpThresholds(isKeyFrame, dequant, width, height, speed, st.thresholds);
      var sad := if isKeyFrame then 0
                 else if LowRes(width, height) then 100
                 else if dequant * 2 > 1000 then dequant * 2 else 1000;
      VbpState(t, sad, if isKeyFrame then BLOCK_8X8 else BLOCK_16X16, 15 + q / 8)
  }

  /** The classifier's minimum size is 8X8 on key frames and 16X16 otherwise;
      the SAD early-exit threshold is zero on key frames (so it never
      fires there) and at least 1000, and at least twice the dequantiser,
      above CIF size; the min/max threshold grows with q. */
  lemma VariancePartitionThresholdsProps(searchType: PartitionSearchType, isKeyFrame: bool, q: nat,
                                         dequant: nat, width: int, height: int, speed: nat,
                                         st: VbpState)
    requires searchType in {VarBasedPartition, ReferencePartition}
    ensures var r := SetVariancePartitionThresholds(searchType, isKeyFrame, q, dequant, width, height, speed, st);
      && r.thresholds == SetVbpThresholds(isKeyFrame, dequant, width, height, speed, st.thresholds)
      && (isKeyFrame <==> r.bsizeMin == BLOCK_8X8)
      && (isKeyFrame ==> r.thresholdSad == 0)
      && (!isKeyFrame && !LowRes(width, height) ==> r.thresholdSad >= 1000 && r.thresholdSad >= 2 * dequant)
      && 15 <= r.thresholdMinmax <= 15 + q
      && (forall q' :: 0 <= q' <= q ==>
            SetVariancePartitionThresholds(searchType, isKeyFrame, q', dequant, width, height, speed, st).thresholdMinmax
              <= r.thresholdMinmax)
  {
  }

  // ---------------------------------------------------------------------
  // compute_minmax_8x8.

  /** Offset of sub-block k (raster order) inside its parent, in units of
      the sub-block size: ((k & 1), (k >> 1)). */
  function SubX(k: int): int requires 0 <= k < 4 { k % 2 }
  function SubY(k: int): int requires 0 <= k < 4 { k / 2 }

  /** The (min, max) pixel-difference pair vpx_minmax_8x8 returns for the
      8x8 block at a pixel offset inside the superblock. */
  type MinmaxKernel = (int, int) -> (int, int)

  /** The ranges (max - min) of the in-frame 8x8 sub-blocks among the first
      k of the 16x16 block at (x16, y16), in loop order. */
  function InFrameRanges(minmax: MinmaxKernel, x16: int, y16: int, pixelsWide: int, pixelsHigh: int, k: int): seq<int>
    requires 0 <= k <= 4
  {
    if k == 0 then []
    else
      var x8, y8 := x16 + SubX(k - 1) * 8, y16 + SubY(k - 1) * 8;
      InFrameRanges(minmax, x16, y16, pixelsWide, pixelsHigh, k - 1)
        + (if x8 < pixelsWide && y8 < pixelsHigh then [minmax(x8, y8).1 - minmax(x8, y8).0] else [])
  }

  /** Largest element, or 0 if there is none or all are negative. */
  function MaxFrom0(rs: seq<int>): int
  {
    if |rs| == 0 then 0 else Max(MaxFrom0(rs[..|rs| - 1]), rs[|rs| - 1])
  }

  /** Smallest element, or 255 if there is none or all are larger. */
  function MinFrom255(rs: seq<int>): int
  {
    if |rs| == 0 then 255 else Min(MinFrom255(rs[..|rs| - 1]), rs[|rs| - 1])
  }

  lemma MaxMinAppend(rs: seq<int>, x: int)
    ensures MaxFrom0(rs + [x]) == Max(MaxFrom0(rs), x)
    ensures MinFrom255(rs + [x]) == Min(MinFrom255(rs), x)
  {
    assert (rs + [x])[..|rs|] == rs;
  }

  /** One step of compute_minmax_8x8's loop, on the running maximum and
      minimum. */
  lemma MinmaxStep(minmax: MinmaxKernel, x16: int, y16: int, pixelsWide: int, pixelsHigh: int, k: int)
    requires 0 <= k < 4
    ensures var rs, rs' := InFrameRanges(minmax, x16, y16, pixelsWide, pixelsHigh, k),
                           InFrameRanges(minmax, x16, y16, pixelsWide, pixelsHigh, k + 1);
      var x8, y8 := x16 + SubX(k) * 8, y16 + SubY(k) * 8;
      var range := minmax(x8, y8).1 - minmax(x8, y8).0;
      if x8 < pixelsWide && y8 < pixelsHigh then
        MaxFrom0(rs') == Max(MaxFrom0(rs), range) && MinFrom255(rs') == Min(MinFrom255(rs), range)
      else
        rs' == rs
  {
    var rs := InFrameRanges(minmax, x16, y16, pixelsWide, pixelsHigh, k);
    var x8, y8 := x16 + SubX(k) * 8, y16 + SubY(k) * 8;
    if x8 < pixelsWide && y8 < pixelsHigh {
      MaxMinAppend(rs, minmax(x8, y8).1 - minmax(x8, y8).0);
    } else {
      assert rs + [] == rs;
    }
  }

  /** compute_minmax_8x8: the spread between the largest and the smallest
      8x8 range of the in-frame quadrants of a 16x16 block. */
  method ComputeMinmax8x8(minmax: MinmaxKernel, x16: int, y16: int, pixelsWide: int, pixelsHigh: int)
    returns (r: int)
    ensures var rs := InFrameRanges(minmax, x16, y16, pixelsWide, pixelsHigh, 4);
      r == MaxFrom0(rs) - MinFrom255(rs)
  {
    var minmaxMax := 0;
    var minmaxMin := 255;
    var k := 0;
    while k < 4
      invariant 0 <= k <= 4
      invariant minmaxMax == MaxFrom0(InFrameRanges(minmax, x16, y16, pixelsWide, pixelsHigh, k))
      invariant minmaxMin == MinFrom255(InFrameRanges(minmax, x16, y16, pixelsWide, pixelsHigh, k))
    {
      var x8 := x16 + SubX(k) * 8;
      var y8 := y16 + SubY(k) * 8;
      MinmaxStep(minmax, x16, y16, pixelsWide, pixelsHigh, k);
      if x8 < pixelsWide && y8 < pixelsHigh {
        var (mn, mx) := minmax(x8, y8);
        if mx - mn > minmaxMax {
          minmaxMax := mx - mn;
        }
        if mx - mn < minmaxMin {
          minmaxMin := mx - mn;
        }
      }
      k := k + 1;
    }
    return minmaxMax - minmaxMin;
  }

  lemma {:induction false} MaxMinBounds(rs: seq<int>)
    requires |rs| > 0 && forall i :: 0 <= i < |rs| ==> 0 <= rs[i] <= 255
    ensures exists i :: 0 <= i < |rs| && MaxFrom0(rs) == rs[i]
    ensures exists i :: 0 <= i < |rs| && MinFrom255(rs) == rs[i]
    ensures forall i :: 0 <= i < |rs| ==> MinFrom255(rs) <= rs[i] <= MaxFrom0(rs)
  {
    var init := rs[..|rs| - 1];
    var last := rs[|rs| - 1];
    if |init| == 0 {
      assert MaxFrom0(rs) == last;
      assert MinFrom255(rs) == last;
    } else {
      MaxMinBounds(init);
      var i :| 0 <= i < |init| && MaxFrom0(init) == init[i];
      var j :| 0 <= j < |init| && MinFrom255(init) == init[j];
      assert init[i] == rs[i] && init[j] == rs[j];
      forall k | 0 <= k < |rs|
        ensures MinFrom255(rs) <= rs[k] <= MaxFrom0(rs)
      {
        if k < |init| { assert rs[k] == init[k]; }
      }
    }
  }

  /** When the kernel's ranges are 8-bit, the spread is the largest minus
      the smallest in-frame range, between 0 and 255; with no quadrant in
      the frame it is 0 - 255. */
  lemma MinmaxSpread(minmax: MinmaxKernel, x16: int, y16: int, pixelsWide: int, pixelsHigh: int)
    ensures var rs := InFrameRanges(minmax, x16, y16, pixelsWide, pixelsHigh, 4);
      && (|rs| == 0 ==> MaxFrom0(rs) - MinFrom255(rs) == -255)
      && ((|rs| > 0 && forall i :: 0 <= i < |rs| ==> 0 <= rs[i] <= 255) ==>
            0 <= MaxFrom0(rs) - MinFrom255(rs) <= 255
            && (exists i, j :: 0 <= i < |rs| && 0 <= j < |rs| && MaxFrom0(rs) - MinFrom255(rs) == rs[i] - rs[j])
            && (forall i, j :: 0 <= i < |rs| && 0 <= j < |rs| ==> rs[i] - rs[j] <= MaxFrom0(rs) - MinFrom255(rs)))
  {
    Spread(InFrameRanges(minmax, x16, y16, pixelsWide, pixelsHigh, 4));
  }

  /** The spread of any list of 8-bit ranges, folded from the C initial values 0 and 255. */
  lemma Spread(rs: seq<int>)
    ensures |rs| == 0 ==> MaxFrom0(rs) - MinFrom255(rs) == -255
    ensures (|rs| > 0 && forall i :: 0 <= i < |rs| ==> 0 <= rs[i] <= 255) ==>
            0 <= MaxFrom0(rs) - MinFrom255(rs) <= 255
            && (exists i, j :: 0 <= i < |rs| && 0 <= j < |rs| && MaxFrom0(rs) - MinFrom255(rs) == rs[i] - rs[j])
            && (forall i, j :: 0 <= i < |rs| && 0 <= j < |rs| ==> rs[i] - rs[j] <= MaxFrom0(rs) - MinFrom255(rs))
  {
    if |rs| > 0 && forall i :: 0 <= i < |rs| ==> 0 <= rs[i] <= 255 {
      MaxMinBounds(rs);
      var i :| 0 <= i < |rs| && MaxFrom0(rs) == rs[i];
      var j :| 0 <= j < |rs| && MinFrom255(rs) == rs[j];
      assert MaxFrom0(rs) - MinFrom255(rs) == rs[i] - rs[j];
    }
  }
}
