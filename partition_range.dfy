// Partition-size search ranges: the min/max sizes seen in neighbouring and
// previous-frame superblocks (get_sb_partition_size_range,
// rd_auto_partition_range, set_partition_range) and the tables that relax
// them.
//
// The MODE_INFO pointer grids are read through views: a view is the block of
// pointers a function visits, row by row, with None for a null pointer. The
// pointer arithmetic that locates the block (mi_stride steps, negative
// offsets for the left and above neighbours) is left to the caller.

module PartitionRange {
  import opened Blocks
  import opened PartitionSize

  type View = seq<seq<Option<BlockSize>>>

  const minPartitionSize: seq<BlockSize> := [0, 0, 0, 0, 0, 0, 3, 3, 3, 6, 6, 6, 6]
  const maxPartitionSize: seq<BlockSize> := [3, 6, 6, 6, 9, 9, 9, 12, 12, 12, 12, 12, 12]
  const nextSquareSize: seq<BlockSize> := [0, 0, 0, 3, 3, 3, 6, 6, 6, 9, 9, 9, 12]

  function MinPartitionSize(b: BlockSize): BlockSize { minPartitionSize[b] }
  function MaxPartitionSize(b: BlockSize): BlockSize { maxPartitionSize[b] }
  function NextSquareSize(b: BlockSize): BlockSize { nextSquareSize[b] }

  /** Relaxing a size gives a square range around it: min_partition_size
      never lies above the size and max_partition_size never below it. */
  lemma RelaxBrackets(b: BlockSize)
    ensures MinPartitionSize(b) <= b <= MaxPartitionSize(b)
    ensures IsSquare(MinPartitionSize(b)) && IsSquare(MaxPartitionSize(b))
  {
  }

  /** next_square_size is the largest square size not above its argument. */
  lemma NextSquareLargest(b: BlockSize, c: BlockSize)
    ensures IsSquare(NextSquareSize(b)) && NextSquareSize(b) <= b
    ensures IsSquare(c) && c <= b ==> c <= NextSquareSize(b)
  {
  }

  /** VPXMIN and VPXMAX on block sizes. */
  function BlockMin(a: BlockSize, b: BlockSize): BlockSize { if a < b then a else b }
  function BlockMax(a: BlockSize, b: BlockSize): BlockSize { if a > b then a else b }

  /** The sb_type a pointer yields; a null pointer yields dflt. */
  function TypeOr(o: Option<BlockSize>, dflt: BlockSize): BlockSize
  {
    if o.Some? then o.value else dflt
  }

  // ---------------------------------------------------------------------
  // Folds over a row of pointers and over a view, in visiting order.

  function RowMin(row: seq<Option<BlockSize>>, dflt: BlockSize, m: BlockSize): BlockSize
  {
    if |row| == 0 then m else BlockMin(RowMin(row[..|row| - 1], dflt, m), TypeOr(row[|row| - 1], dflt))
  }

  function RowMax(row: seq<Option<BlockSize>>, dflt: BlockSize, m: BlockSize): BlockSize
  {
    if |row| == 0 then m else BlockMax(RowMax(row[..|row| - 1], dflt, m), TypeOr(row[|row| - 1], dflt))
  }

  function RowCount(row: seq<Option<BlockSize>>, dflt: BlockSize, b: BlockSize): nat
  {
    if |row| == 0 then 0
    else RowCount(row[..|row| - 1], dflt, b) + (if TypeOr(row[|row| - 1], dflt) == b then 1 else 0)
  }

  function ViewMin(v: View, dflt: BlockSize, m: BlockSize): BlockSize
  {
    if |v| == 0 then m else RowMin(v[|v| - 1], dflt, ViewMin(v[..|v| - 1], dflt, m))
  }

  function ViewMax(v: View, dflt: BlockSize, m: BlockSize): BlockSize
  {
    if |v| == 0 then m else RowMax(v[|v| - 1], dflt, ViewMax(v[..|v| - 1], dflt, m))
  }

  function ViewCount(v: View, dflt: BlockSize, b: BlockSize): nat
  {
    if |v| == 0 then 0 else ViewCount(v[..|v| - 1], dflt, b) + RowCount(v[|v| - 1], dflt, b)
  }

  /** The running minimum of a row is at most its start and every entry, and
      it is the start or one of the entries. */
  lemma {:induction false} RowMinIsMin(row: seq<Option<BlockSize>>, dflt: BlockSize, m: BlockSize)
    ensures RowMin(row, dflt, m) <= m
    ensures forall j :: 0 <= j < |row| ==> RowMin(row, dflt, m) <= TypeOr(row[j], dflt)
    ensures RowMin(row, dflt, m) == m || exists j :: 0 <= j < |row| && RowMin(row, dflt, m) == TypeOr(row[j], dflt)
    decreases |row|
  {
    if |row| > 0 {
      var init := row[..|row| - 1];
      RowMinIsMin(init, dflt, m);
      assert forall j :: 0 <= j < |init| ==> init[j] == row[j];
    }
  }

  lemma {:induction false} RowMaxIsMax(row: seq<Option<BlockSize>>, dflt: BlockSize, m: BlockSize)
    ensures m <= RowMax(row, dflt, m)
    ensures forall j :: 0 <= j < |row| ==> TypeOr(row[j], dflt) <= RowMax(row, dflt, m)
    ensures RowMax(row, dflt, m) == m || exists j :: 0 <= j < |row| && RowMax(row, dflt, m) == TypeOr(row[j], dflt)
    decreases |row|
  {
    if |row| > 0 {
      var init := row[..|row| - 1];
      RowMaxIsMax(init, dflt, m);
      assert forall j :: 0 <= j < |init| ==> init[j] == row[j];
    }
  }

  /** The minimum over a view is at most the start and every visited entry,
      and it is the start or one of them. */
  lemma {:induction false} ViewMinIsMin(v: View, dflt: BlockSize, m: BlockSize)
    ensures ViewMin(v, dflt, m) <= m
    ensures forall i, j :: 0 <= i < |v| && 0 <= j < |v[i]| ==> ViewMin(v, dflt, m) <= TypeOr(v[i][j], dflt)
    ensures ViewMin(v, dflt, m) == m
            || exists i, j :: 0 <= i < |v| && 0 <= j < |v[i]| && ViewMin(v, dflt, m) == TypeOr(v[i][j], dflt)
    decreases |v|
  {
    if |v| > 0 {
      var init := v[..|v| - 1];
      var last := v[|v| - 1];
      ViewMinIsMin(init, dflt, m);
      RowMinIsMin(last, dflt, ViewMin(init, dflt, m));
      assert forall i :: 0 <= i < |init| ==> init[i] == v[i];
    }
  }

  lemma {:induction false} ViewMaxIsMax(v: View, dflt: BlockSize, m: BlockSize)
    ensures m <= ViewMax(v, dflt, m)
    ensures forall i, j :: 0 <= i < |v| && 0 <= j < |v[i]| ==> TypeOr(v[i][j], dflt) <= ViewMax(v, dflt, m)
    ensures ViewMax(v, dflt, m) == m
            || exists i, j :: 0 <= i < |v| && 0 <= j < |v[i]| && ViewMax(v, dflt, m) == TypeOr(v[i][j], dflt)
    decreases |v|
  {
    if |v| > 0 {
      var init := v[..|v| - 1];
      var last := v[|v| - 1];
      ViewMaxIsMax(init, dflt, m);
      RowMaxIsMax(last, dflt, ViewMax(init, dflt, m));
      assert forall i :: 0 <= i < |init| ==> init[i] == v[i];
    }
  }

  /** A view with at least one entry has its minimum at or below its
      maximum, whatever the starting values. */
  lemma ViewMinBelowMax(v: View, dflt: BlockSize, lo: BlockSize, hi: BlockSize, i: int, j: int)
    requires 0 <= i < |v| && 0 <= j < |v[i]|
    ensures ViewMin(v, dflt, lo) <= ViewMax(v, dflt, hi)
  {
    ViewMinIsMin(v, dflt, lo);
    ViewMaxIsMax(v, dflt, hi);
  }

  // ---------------------------------------------------------------------
  // get_sb_partition_size_range

  /** An 8x8 superblock view. */
  predicate SbView(v: View)
  {
    |v| == MI_BLOCK_SIZE && forall i :: 0 <= i < |v| ==> |v[i]| == MI_BLOCK_SIZE
  }

  /** One row of the scan: fold the row into the running min and max and
      count each size in the histogram. */
  method ScanRow(row: seq<Option<BlockSize>>, minIn: BlockSize, maxIn: BlockSize, hist: array<int>)
    returns (minSize: BlockSize, maxSize: BlockSize)
    requires hist.Length == BLOCK_SIZES
    modifies hist
    ensures minSize == RowMin(row, 0, minIn) && maxSize == RowMax(row, 0, maxIn)
    ensures forall b: BlockSize :: hist[b] == old(hist[b]) + RowCount(row, 0, b)
  {
    minSize, maxSize := minIn, maxIn;
    var j := 0;
    while j < |row|
      invariant 0 <= j <= |row|
      invariant minSize == RowMin(row[..j], 0, minIn) && maxSize == RowMax(row[..j], 0, maxIn)
      invariant forall b: BlockSize :: hist[b] == old(hist[b]) + RowCount(row[..j], 0, b)
    {
      assert row[..j + 1][..j] == row[..j];
      var sbType := TypeOr(row[j], 0);
      hist[sbType] := hist[sbType] + 1;
      minSize := BlockMin(minSize, sbType);
      maxSize := BlockMax(maxSize, sbType);
      j := j + 1;
    }
    assert row[..j] == row;
  }

  /** get_sb_partition_size_range: fold the sizes of the 8x8 superblock view
      into the running min and max (a null pointer counts as BLOCK_4X4) and
      count each in bs_hist. */
  method GetSbPartitionSizeRange(v: View, minIn: BlockSize, maxIn: BlockSize, hist: array<int>)
    returns (minSize: BlockSize, maxSize: BlockSize)
    requires SbView(v) && hist.Length == BLOCK_SIZES
    modifies hist
    ensures minSize == ViewMin(v, 0, minIn) && maxSize == ViewMax(v, 0, maxIn)
    ensures forall b: BlockSize :: hist[b] == old(hist[b]) + ViewCount(v, 0, b)
  {
    minSize, maxSize := minIn, maxIn;
    var i := 0;
    while i < MI_BLOCK_SIZE
      invariant 0 <= i <= MI_BLOCK_SIZE
      invariant minSize == ViewMin(v[..i], 0, minIn) && maxSize == ViewMax(v[..i], 0, maxIn)
      invariant forall b: BlockSize :: hist[b] == old(hist[b]) + ViewCount(v[..i], 0, b)
    {
      assert v[..i + 1][..i] == v[..i];
      minSize, maxSize := ScanRow(v[i], minSize, maxSize, hist);
      i := i + 1;
    }
    assert v[..i] == v;
  }

  // ---------------------------------------------------------------------
  // rd_auto_partition_range

  /** What rd_auto_partition_range reads besides the tile: whether the left
      and above superblocks are in the image (available and non-null), the
      views of the previous frame's, the left and the above superblock, and
      the speed features it consults. activeEdge is vp10_active_edge_sb's
      answer for this superblock. */
  datatype AutoInputs = AutoInputs(
    leftInImage: bool, aboveInImage: bool, isKeyFrame: bool,
    prev: View, left: View, above: View,
    relaxed: bool, activeEdge: bool, minLimit: BlockSize, squareOnly: bool)

  predicate AutoViews(a: AutoInputs)
  {
    SbView(a.prev) && SbView(a.left) && SbView(a.above)
  }

  /** The min and max the neighbours give before the border checks: 4X4 and
      64X64 when there is nothing to predict from; otherwise the folds over
      the previous frame (inter frames), then the left and the above
      superblock, started from 64X64 and 4X4, relaxed on request. */
  function ObservedRange(a: AutoInputs): (BlockSize, BlockSize)
  {
    if a.leftInImage || a.aboveInImage || !a.isKeyFrame then
      var lo0, hi0 := BLOCK_64X64, BLOCK_4X4;
      var lo1 := if !a.isKeyFrame then ViewMin(a.prev, 0, lo0) else lo0;
      var hi1 := if !a.isKeyFrame then ViewMax(a.prev, 0, hi0) else hi0;
      var lo2 := if a.leftInImage then ViewMin(a.left, 0, lo1) else lo1;
      var hi2 := if a.leftInImage then ViewMax(a.left, 0, hi1) else hi1;
      var lo3 := if a.aboveInImage then ViewMin(a.above, 0, lo2) else lo2;
      var hi3 := if a.aboveInImage then ViewMax(a.above, 0, hi2) else hi2;
      if a.relaxed then (MinPartitionSize(lo3), MaxPartitionSize(hi3)) else (lo3, hi3)
    else (BLOCK_4X4, BLOCK_64X64)
  }

  /** The range rd_auto_partition_range sets: the observed max made legal
      for the rows and columns left in the tile, the min clamped to it and
      to the speed feature's limit (4X4 at an active edge), and lowered to
      the next square size when only square partitions are searched. */
  function AutoRange(a: AutoInputs, rowsLeft: int, colsLeft: int): (BlockSize, BlockSize)
  {
    var maxSize := PartitionSizeFor(ObservedRange(a).1, rowsLeft, colsLeft, 0, 0).size;
    var minSize := if a.activeEdge then BLOCK_4X4 else BlockMin(a.minLimit, BlockMin(ObservedRange(a).0, maxSize));
    if a.squareOnly && NextSquareSize(maxSize) < minSize then (NextSquareSize(maxSize), maxSize)
    else (minSize, maxSize)
  }

  /** rd_auto_partition_range ends with min <= max, with a max no larger
      than the observed one, and with a max that fits the rows and columns
      left in the tile whenever some are left. */
  lemma AutoRangeOrdered(a: AutoInputs, rowsLeft: int, colsLeft: int)
    ensures AutoRange(a, rowsLeft, colsLeft).0 <= AutoRange(a, rowsLeft, colsLeft).1
    ensures AutoRange(a, rowsLeft, colsLeft).1 <= ObservedRange(a).1
    ensures rowsLeft > 0 && colsLeft > 0 ==> Fits(AutoRange(a, rowsLeft, colsLeft).1, rowsLeft, colsLeft)
  {
    var maxSize := PartitionSizeFor(ObservedRange(a).1, rowsLeft, colsLeft, 0, 0).size;
    FindPartitionSizeProps(ObservedRange(a).1, rowsLeft, colsLeft, 0, 0);
    NextSquareLargest(maxSize, maxSize);
  }

  /** An inter frame without neighbours takes its range from the previous
      frame alone: before relaxing, the min is at most the max. */
  lemma ObservedFromPrevious(a: AutoInputs)
    requires AutoViews(a) && !a.isKeyFrame && !a.leftInImage && !a.aboveInImage && !a.relaxed
    ensures ObservedRange(a) == (ViewMin(a.prev, 0, BLOCK_64X64), ViewMax(a.prev, 0, BLOCK_4X4))
    ensures ObservedRange(a).0 <= ObservedRange(a).1
  {
    ViewMinBelowMax(a.prev, 0, BLOCK_64X64, BLOCK_4X4, 0, 0);
  }

  /** rd_auto_partition_range. *bh and *bw, which find_partition_size may
      leave unset, are not read afterwards; they start at 0 here. */
  method RdAutoPartitionRange(a: AutoInputs, rowsLeft: int, colsLeft: int)
    returns (minSize: BlockSize, maxSize: BlockSize)
    requires AutoViews(a)
    ensures (minSize, maxSize) == AutoRange(a, rowsLeft, colsLeft)
  {
    minSize := BLOCK_4X4;
    maxSize := BLOCK_64X64;
    var hist := new int[BLOCK_SIZES];
    if a.leftInImage || a.aboveInImage || !a.isKeyFrame {
      minSize := BLOCK_64X64;
      maxSize := BLOCK_4X4;
      if !a.isKeyFrame {
        minSize, maxSize := GetSbPartitionSizeRange(a.prev, minSize, maxSize, hist);
      }
      if a.leftInImage {
        minSize, maxSize := GetSbPartitionSizeRange(a.left, minSize, maxSize, hist);
      }
      if a.aboveInImage {
        minSize, maxSize := GetSbPartitionSizeRange(a.above, minSize, maxSize, hist);
      }
      if a.relaxed {
        minSize := MinPartitionSize(minSize);
        maxSize := MaxPartitionSize(maxSize);
      }
    }
    assert (minSize, maxSize) == ObservedRange(a);
    var bh, bw;
    maxSize, bh, bw := FindPartitionSize(maxSize, rowsLeft, colsLeft, 0, 0);
    if a.activeEdge {
      minSize := BLOCK_4X4;
    } else {
      minSize := BlockMin(a.minLimit, BlockMin(minSize, maxSize));
    }
    if a.squareOnly && NextSquareSize(maxSize) < minSize {
      minSize := NextSquareSize(maxSize);
    }
  }

  // ---------------------------------------------------------------------
  // set_partition_range

  /** What set_partition_range reads around a block of size bsize: the
      previous frame's co-located pointers (None when that grid is absent),
      the column to the left and the row above when available. A null
      pointer counts as bsize. */
  datatype RangeInputs = RangeInputs(prev: Option<View>, leftAvailable: bool, left: seq<Option<BlockSize>>,
                                     upAvailable: bool, above: seq<Option<BlockSize>>)

  /** The views have the block's shape: mi_height rows of mi_width, a left
      column of mi_height and an above row of mi_width. */
  predicate RangeShaped(r: RangeInputs, bsize: BlockSize)
  {
    (r.prev.Some? ==> |r.prev.value| == Num8x8High(bsize)
                      && forall i :: 0 <= i < |r.prev.value| ==> |r.prev.value[i]| == Num8x8Wide(bsize))
    && |r.left| == Num8x8High(bsize) && |r.above| == Num8x8Wide(bsize)
  }

  /** The folds of set_partition_range, before relaxing: from 64X64 and 4X4
      over the previous frame, the left column and the above row. */
  function RangeFolds(r: RangeInputs, bsize: BlockSize): (BlockSize, BlockSize)
  {
    var lo1 := if r.prev.Some? then ViewMin(r.prev.value, bsize, BLOCK_64X64) else BLOCK_64X64;
    var hi1 := if r.prev.Some? then ViewMax(r.prev.value, bsize, BLOCK_4X4) else BLOCK_4X4;
    var lo2 := if r.leftAvailable then RowMin(r.left, bsize, lo1) else lo1;
    var hi2 := if r.leftAvailable then RowMax(r.left, bsize, hi1) else hi1;
    var lo3 := if r.upAvailable then RowMin(r.above, bsize, lo2) else lo2;
    var hi3 := if r.upAvailable then RowMax(r.above, bsize, hi2) else hi2;
    (lo3, hi3)
  }

  /** set_partition_range's result: the folds, widened to the relaxed range
      of their common size when min and max coincide. */
  function PartitionRangeOf(r: RangeInputs, bsize: BlockSize): (BlockSize, BlockSize)
  {
    var f := RangeFolds(r, bsize);
    if f.0 == f.1 then (MinPartitionSize(f.0), MaxPartitionSize(f.1)) else f
  }

  /** Whenever set_partition_range has anything to look at, its min is at
      most its max. With nothing to look at it returns 64X64 and 4X4. */
  lemma PartitionRangeOrdered(r: RangeInputs, bsize: BlockSize)
    requires RangeShaped(r, bsize)
    ensures r.prev.Some? || r.leftAvailable || r.upAvailable ==> PartitionRangeOf(r, bsize).0 <= PartitionRangeOf(r, bsize).1
    ensures r.prev.None? && !r.leftAvailable && !r.upAvailable ==> PartitionRangeOf(r, bsize) == (BLOCK_64X64, BLOCK_4X4)
  {
    SizeDimsPositive(bsize);
    var f := RangeFolds(r, bsize);
    if f.0 == f.1 {
      RelaxBrackets(f.0);
    } else if r.prev.Some? || r.leftAvailable || r.upAvailable {
      RangeFoldsOrdered(r, bsize);
    }
  }

  /** With at least one source the folded min is at most the folded max. */
  lemma RangeFoldsOrdered(r: RangeInputs, bsize: BlockSize)
    requires RangeShaped(r, bsize) && (r.prev.Some? || r.leftAvailable || r.upAvailable)
    ensures RangeFolds(r, bsize).0 <= RangeFolds(r, bsize).1
  {
    SizeDimsPositive(bsize);
    var lo1 := if r.prev.Some? then ViewMin(r.prev.value, bsize, BLOCK_64X64) else BLOCK_64X64;
    var hi1 := if r.prev.Some? then ViewMax(r.prev.value, bsize, BLOCK_4X4) else BLOCK_4X4;
    var lo2 := if r.leftAvailable then RowMin(r.left, bsize, lo1) else lo1;
    var hi2 := if r.leftAvailable then RowMax(r.left, bsize, hi1) else hi1;
    if r.prev.Some? {
      ViewMinBelowMax(r.prev.value, bsize, BLOCK_64X64, BLOCK_4X4, 0, 0);
    }
    if r.leftAvailable {
      RowMinIsMin(r.left, bsize, lo1);
      RowMaxIsMax(r.left, bsize, hi1);
      assert RowMin(r.left, bsize, lo1) <= TypeOr(r.left[0], bsize) <= RowMax(r.left, bsize, hi1);
    }
    if r.upAvailable {
      RowMinIsMin(r.above, bsize, lo2);
      RowMaxIsMax(r.above, bsize, hi2);
      assert RowMin(r.above, bsize, lo2) <= TypeOr(r.above[0], bsize) <= RowMax(r.above, bsize, hi2);
    }
  }

  /** One of set_partition_range's scans along a row or column of
      pointers: fold it into the running min and max. */
  method FoldLine(line: seq<Option<BlockSize>>, dflt: BlockSize, lo: BlockSize, hi: BlockSize)
    returns (minSize: BlockSize, maxSize: BlockSize)
    ensures minSize == RowMin(line, dflt, lo) && maxSize == RowMax(line, dflt, hi)
  {
    minSize, maxSize := lo, hi;
    var k := 0;
    while k < |line|
      invariant 0 <= k <= |line|
      invariant minSize == RowMin(line[..k], dflt, lo) && maxSize == RowMax(line[..k], dflt, hi)
    {
      assert line[..k + 1][..k] == line[..k];
      var bs := TypeOr(line[k], dflt);
      minSize := BlockMin(minSize, bs);
      maxSize := BlockMax(maxSize, bs);
      k := k + 1;
    }
    assert line[..k] == line;
  }

  /** set_partition_range's scan of the previous frame's block, row by row. */
  method FoldView(v: View, dflt: BlockSize, lo: BlockSize, hi: BlockSize)
    returns (minSize: BlockSize, maxSize: BlockSize)
    ensures minSize == ViewMin(v, dflt, lo) && maxSize == ViewMax(v, dflt, hi)
  {
    minSize, maxSize := lo, hi;
    var idy := 0;
    while idy < |v|
      invariant 0 <= idy <= |v|
      invariant minSize == ViewMin(v[..idy], dflt, lo) && maxSize == ViewMax(v[..idy], dflt, hi)
    {
      assert v[..idy + 1][..idy] == v[..idy];
      minSize, maxSize := FoldLine(v[idy], dflt, minSize, maxSize);
      idy := idy + 1;
    }
    assert v[..idy] == v;
  }

  /** set_partition_range. */
  method SetPartitionRange(r: RangeInputs, bsize: BlockSize) returns (minBs: BlockSize, maxBs: BlockSize)
    requires RangeShaped(r, bsize)
    ensures (minBs, maxBs) == PartitionRangeOf(r, bsize)
  {
    var minSize := BLOCK_64X64;
    var maxSize := BLOCK_4X4;
    if r.prev.Some? {
      minSize, maxSize := FoldView(r.prev.value, bsize, minSize, maxSize);
    }
    if r.leftAvailable {
      minSize, maxSize := FoldLine(r.left, bsize, minSize, maxSize);
    }
    if r.upAvailable {
      minSize, maxSize := FoldLine(r.above, bsize, minSize, maxSize);
    }
    if minSize == maxSize {
      minSize := MinPartitionSize(minSize);
      maxSize := MaxPartitionSize(maxSize);
    }
    minBs, maxBs := minSize, maxSize;
  }
}
