// Committing a chosen block to the frame: update_state (the picked mode
// info copied into the block's record, every in-frame cell of the block
// pointed at it, the frame's motion-vector field filled), the transform
// size fill of encode_superblock, and the frame-wide reset_skip_tx_size.

module Commit {
  import opened Blocks
  import opened ModeInfoGrid

  // ---------------------------------------------------------------------
  // Cells of a block.

  /** Cell (r, c) belongs to the block of size bsize at (row, col) and lies
      inside the frame. */
  predicate InBlock(d: Dims, row: int, col: int, bsize: BlockSize, r: int, c: int)
  {
    row <= r < row + Num8x8High(bsize) && col <= c < col + Num8x8Wide(bsize) && r < d.miRows && c < d.miCols
  }

  /** Row and column of a position in a row-major array of the given stride. */
  lemma Decode(stride: int, r: int, c: int)
    requires stride > 0 && 0 <= c < stride
    ensures (r * stride + c) / stride == r && (r * stride + c) % stride == c
  {
    var j := r * stride + c;
    RowsEqual(j / stride, r, j % stride, c, stride);
  }

  /** mb_to_right_edge >> (3 + MI_SIZE_LOG2) (and the bottom one): the edge
      distance in 1/8 pel, shifted back to 8x8 units. An arithmetic right
      shift rounds toward minus infinity, as Dafny's division by a
      positive divisor does. */
  function EdgeCells(miSize: int, span: int, mi: int): int
  {
    (((miSize - span - mi) * MI_SIZE) * 8) / 64
  }

  lemma EdgeCellsExact(miSize: int, span: int, mi: int)
    ensures EdgeCells(miSize, span, mi) == miSize - span - mi
  {
    var k := miSize - span - mi;
    assert (k * MI_SIZE) * 8 == k * 64;
    Decode(64, k, 0);
  }

  /** The array s with the cells of the block visited by the first y rows
      and x further columns of the row-major walk set to v; the array has
      the given stride (mi_stride for the grid, mi_cols for the motion
      vector field). */
  function Filled<T>(s: seq<T>, stride: int, d: Dims, row: int, col: int, bsize: BlockSize, v: T,
                     y: int, x: int): (r: seq<T>)
    requires stride > 0
    ensures |r| == |s|
  {
    seq(|s|, j requires 0 <= j < |s| =>
      if InBlock(d, row, col, bsize, j / stride, j % stride)
         && (j / stride < row + y || (j / stride == row + y && j % stride < col + x))
      then v else s[j])
  }

  /** The array with every in-frame cell of the block set to v. */
  function FillBlock<T>(s: seq<T>, stride: int, d: Dims, row: int, col: int, bsize: BlockSize, v: T): (r: seq<T>)
    requires stride > 0
    ensures |r| == |s|
  {
    seq(|s|, j requires 0 <= j < |s| => if InBlock(d, row, col, bsize, j / stride, j % stride) then v else s[j])
  }

  /** The cell at row r, column c of a filled array. */
  lemma FillBlockAt<T>(s: seq<T>, stride: int, d: Dims, row: int, col: int, bsize: BlockSize, v: T, r: int, c: int)
    requires stride > 0 && 0 <= c < stride && 0 <= r * stride + c < |s|
    ensures FillBlock(s, stride, d, row, col, bsize, v)[r * stride + c]
            == if InBlock(d, row, col, bsize, r, c) then v else s[r * stride + c]
  {
    Decode(stride, r, c);
  }

  lemma FilledStart<T>(s: seq<T>, stride: int, d: Dims, row: int, col: int, bsize: BlockSize, v: T)
    requires stride > 0
    ensures Filled(s, stride, d, row, col, bsize, v, 0, 0) == s
  {
  }

  lemma FilledRow<T>(s: seq<T>, stride: int, d: Dims, row: int, col: int, bsize: BlockSize, v: T, y: int)
    requires stride > 0
    ensures Filled(s, stride, d, row, col, bsize, v, y, Num8x8Wide(bsize))
            == Filled(s, stride, d, row, col, bsize, v, y + 1, 0)
  {
  }

  lemma FilledEnd<T>(s: seq<T>, stride: int, d: Dims, row: int, col: int, bsize: BlockSize, v: T)
    requires stride > 0
    ensures Filled(s, stride, d, row, col, bsize, v, Num8x8High(bsize), 0) == FillBlock(s, stride, d, row, col, bsize, v)
  {
  }

  /** One step of the walk: cell (row + y, col + x) is set when it is in the
      frame, and nothing happens otherwise. */
  lemma FilledStep<T>(s: seq<T>, stride: int, d: Dims, row: int, col: int, bsize: BlockSize, v: T,
                      y: int, x: int)
    requires stride > 0 && 0 <= row && 0 <= col && 0 <= y < Num8x8High(bsize) && 0 <= x < Num8x8Wide(bsize)
    requires d.miCols <= stride
    ensures var j := (row + y) * stride + col + x;
      var before := Filled(s, stride, d, row, col, bsize, v, y, x);
      var after := Filled(s, stride, d, row, col, bsize, v, y, x + 1);
      if row + y < d.miRows && col + x < d.miCols && 0 <= j < |s| then after == before[j := v]
      else after == before
  {
    var j0 := (row + y) * stride + col + x;
    var before := Filled(s, stride, d, row, col, bsize, v, y, x);
    var after := Filled(s, stride, d, row, col, bsize, v, y, x + 1);
    forall j | 0 <= j < |s|
      ensures after[j] == (if row + y < d.miRows && col + x < d.miCols && j == j0 then v else before[j])
    {
      assert j == (j / stride) * stride + j % stride;
      if j / stride == row + y && j % stride == col + x {
        assert j == j0;
      } else if j == j0 && col + x < d.miCols {
        Decode(stride, row + y, col + x);
      }
    }
  }

  // ---------------------------------------------------------------------
  // update_state

  /** The record update_state leaves: the picked mode info, with the
      segment id the adaptive-quantisation mode sets (the map's id under
      COMPLEXITY_AQ, the cyclic-refresh id under CYCLIC_REFRESH_AQ; None
      keeps the picked one), and for an inter block below 8X8 the motion
      vectors of its last 4x4 sub-block. */
  function CommittedRecord(picked: ModeInfo, segment: Option<int>): (m: ModeInfo)
  {
    var s := if segment.Some? then picked.(segmentId := segment.value) else picked;
    if IsInter(s) && s.sbType < BLOCK_8X8 then s.(mv0 := s.subMv0, mv1 := s.subMv1) else s
  }

  /** The MV_REF entry of the picked mode info (taken before the sub-8x8
      motion vector fix). */
  function MvRefOf(picked: ModeInfo): MvRef
  {
    MvRef(picked.refFrame0, picked.refFrame1, picked.mv0, picked.mv1)
  }

  /** The grid after update_state for the block at (row, col), whose cell
      already points at its own record (set_offsets). */
  function Committed(d: Dims, s: GridState, picked: ModeInfo, segment: Option<int>,
                     row: int, col: int, bsize: BlockSize): (r: GridState)
    requires WellFormed(d, s) && InFrame(d, row, col)
    ensures WellFormed(d, r)
  {
    IndexInRange(d, row, col);
    var idx := Index(d, row, col);
    GridState(FillBlock(s.cells, d.miStride, d, row, col, bsize, idx),
              s.recs[idx := CommittedRecord(picked, segment)])
  }

  /** The motion-vector field after update_state: unchanged unless output
      is enabled, otherwise every in-frame cell of the block holds the
      picked references and vectors. */
  function CommittedMvs(d: Dims, mvs: seq<MvRef>, picked: ModeInfo, row: int, col: int, bsize: BlockSize,
                        outputEnabled: bool): (r: seq<MvRef>)
    requires ValidDims(d)
    ensures |r| == |mvs|
  {
    if outputEnabled then FillBlock(mvs, d.miCols, d, row, col, bsize, MvRefOf(picked)) else mvs
  }

  /** Every in-frame cell of the block points at record idx. */
  ghost predicate PointsAt(d: Dims, s: GridState, row: int, col: int, bsize: BlockSize, idx: int)
    requires WellFormed(d, s)
  {
    forall r, c :: 0 <= r && 0 <= c && InBlock(d, row, col, bsize, r, c) ==> CellOf(d, s, r, c) == idx
  }

  /** Where a cell of the frame points after update_state. */
  lemma CommittedCell(d: Dims, s: GridState, picked: ModeInfo, segment: Option<int>,
                      row: int, col: int, bsize: BlockSize, r: int, c: int)
    requires WellFormed(d, s) && InFrame(d, row, col) && InFrame(d, r, c)
    ensures CellOf(d, Committed(d, s, picked, segment, row, col, bsize), r, c)
            == if InBlock(d, row, col, bsize, r, c) then Index(d, row, col) else CellOf(d, s, r, c)
  {
    IndexInRange(d, r, c);
    FillBlockAt(s.cells, d.miStride, d, row, col, bsize, Index(d, row, col), r, c);
  }

  /** After update_state every in-frame cell of the block reads the
      committed mode info through its pointer, and every other cell points
      where it did. */
  lemma CommittedReadsBack(d: Dims, s: GridState, picked: ModeInfo, segment: Option<int>,
                           row: int, col: int, bsize: BlockSize)
    requires WellFormed(d, s) && InFrame(d, row, col)
    ensures var t := Committed(d, s, picked, segment, row, col, bsize);
      PointsAt(d, t, row, col, bsize, Index(d, row, col))
      && t.recs[Index(d, row, col)] == CommittedRecord(picked, segment)
      && forall r, c :: InFrame(d, r, c) && !InBlock(d, row, col, bsize, r, c) ==> CellOf(d, t, r, c) == CellOf(d, s, r, c)
  {
    var t := Committed(d, s, picked, segment, row, col, bsize);
    forall r, c | 0 <= r && 0 <= c && InBlock(d, row, col, bsize, r, c)
      ensures CellOf(d, t, r, c) == Index(d, row, col)
    {
      CommittedCell(d, s, picked, segment, row, col, bsize, r, c);
    }
    forall r, c | InFrame(d, r, c) && !InBlock(d, row, col, bsize, r, c)
      ensures CellOf(d, t, r, c) == CellOf(d, s, r, c)
    {
      CommittedCell(d, s, picked, segment, row, col, bsize, r, c);
    }
  }

  /** The committed record keeps the picked block's size, references and
      transform size; only the segment id and, below 8X8, the motion
      vectors can differ. */
  lemma CommittedRecordKeepsMode(picked: ModeInfo, segment: Option<int>)
    ensures var m := CommittedRecord(picked, segment);
      m.sbType == picked.sbType && m.refFrame0 == picked.refFrame0 && m.refFrame1 == picked.refFrame1
      && m.txSize == picked.txSize && m.skip == picked.skip && m.interpFilter == picked.interpFilter
      && (segment.None? ==> m.segmentId == picked.segmentId)
      && (segment.Some? ==> m.segmentId == segment.value)
      && (IsInter(picked) && picked.sbType < BLOCK_8X8 ==> m.mv0 == picked.subMv0 && m.mv1 == picked.subMv1)
      && (!(IsInter(picked) && picked.sbType < BLOCK_8X8) ==> m.mv0 == picked.mv0 && m.mv1 == picked.mv1)
  {
  }

  /** The pointer-sanity invariant of the grid: every in-frame cell holds
      NULL or points at the record of an in-frame cell at or above and to
      the left of it (the top-left cell of the block it belongs to). */
  ghost predicate Anchored(d: Dims, s: GridState)
    requires WellFormed(d, s)
  {
    forall r, c :: InFrame(d, r, c) ==>
      var p := CellOf(d, s, r, c);
      p == -1 || (0 <= p && p / d.miStride <= r && p % d.miStride <= c && InFrame(d, p / d.miStride, p % d.miStride))
  }

  /** update_state keeps the grid anchored. */
  lemma CommittedAnchored(d: Dims, s: GridState, picked: ModeInfo, segment: Option<int>,
                          row: int, col: int, bsize: BlockSize)
    requires WellFormed(d, s) && InFrame(d, row, col) && Anchored(d, s)
    ensures Anchored(d, Committed(d, s, picked, segment, row, col, bsize))
  {
    var t := Committed(d, s, picked, segment, row, col, bsize);
    Decode(d.miStride, row, col);
    forall r, c | InFrame(d, r, c)
      ensures var p := CellOf(d, t, r, c);
        p == -1 || (0 <= p && p / d.miStride <= r && p % d.miStride <= c && InFrame(d, p / d.miStride, p % d.miStride))
    {
      CommittedCell(d, s, picked, segment, row, col, bsize, r, c);
      if !InBlock(d, row, col, bsize, r, c) {
        assert CellOf(d, t, r, c) == CellOf(d, s, r, c);
      }
    }
  }

  /** set_offsets keeps the grid anchored. */
  lemma OffsetsAnchored(d: Dims, s: GridState, row: int, col: int, segment: Option<int>)
    requires WellFormed(d, s) && InFrame(d, row, col) && Anchored(d, s)
    ensures Anchored(d, Offsets(d, s, row, col, segment))
  {
    var t := Offsets(d, s, row, col, segment);
    forall r, c | InFrame(d, r, c)
      ensures var p := CellOf(d, t, r, c);
        p == -1 || (0 <= p && p / d.miStride <= r && p % d.miStride <= c && InFrame(d, p / d.miStride, p % d.miStride))
    {
      IndexInRange(d, r, c);
      if Index(d, r, c) == Index(d, row, col) {
        IndexInjective(d, r, c, row, col);
        Decode(d.miStride, r, c);
      } else {
        assert CellOf(d, t, r, c) == CellOf(d, s, r, c);
      }
    }
  }

  /** A set_block_size call keeps the grid anchored. */
  lemma SetSizeAnchored(d: Dims, s: GridState, p: Placement)
    requires WellFormed(d, s) && Anchored(d, s)
    ensures Anchored(d, SetSize(d, s, p))
  {
    var t := SetSize(d, s, p);
    forall r, c | InFrame(d, r, c)
      ensures var q := CellOf(d, t, r, c);
        q == -1 || (0 <= q && q / d.miStride <= r && q % d.miStride <= c && InFrame(d, q / d.miStride, q % d.miStride))
    {
      IndexInRange(d, r, c);
      if InFrame(d, p.row, p.col) && Index(d, r, c) == Index(d, p.row, p.col) {
        IndexInjective(d, r, c, p.row, p.col);
        Decode(d.miStride, r, c);
      } else {
        assert CellOf(d, t, r, c) == CellOf(d, s, r, c);
      }
    }
  }

  /** The restore loop of update_state: every cell of the block that the
      edge test keeps is pointed at record idx. */
  method AliasBlock(g: Grid, row: int, col: int, bsize: BlockSize, idx: int)
    requires g.Valid() && InFrame(g.dims, row, col)
    modifies g.cells
    ensures g.cells[..] == FillBlock(old(g.cells[..]), g.dims.miStride, g.dims, row, col, bsize, idx)
  {
    var d := g.dims;
    var miHeight, miWidth := Num8x8High(bsize), Num8x8Wide(bsize);
    var toRight, toBottom := EdgeCells(d.miCols, miWidth, col), EdgeCells(d.miRows, miHeight, row);
    EdgeCellsExact(d.miCols, miWidth, col);
    EdgeCellsExact(d.miRows, miHeight, row);
    ghost var c0 := g.cells[..];
    FilledStart(c0, d.miStride, d, row, col, bsize, idx);
    var y := 0;
    while y < miHeight
      invariant 0 <= y <= miHeight
      invariant g.cells[..] == Filled(c0, d.miStride, d, row, col, bsize, idx, y, 0)
    {
      var x := 0;
      while x < miWidth
        invariant 0 <= x <= miWidth
        invariant g.cells[..] == Filled(c0, d.miStride, d, row, col, bsize, idx, y, x)
      {
        FilledStep(c0, d.miStride, d, row, col, bsize, idx, y, x);
        if toRight + miWidth > x && toBottom + miHeight > y {
          IndexInRange(d, row + y, col + x);
          g.cells[(row + y) * d.miStride + col + x] := idx;
        }
        x := x + 1;
      }
      FilledRow(c0, d.miStride, d, row, col, bsize, idx, y);
      y := y + 1;
    }
    FilledEnd(c0, d.miStride, d, row, col, bsize, idx);
  }

  /** A cell of the frame has a place in the motion-vector field. */
  lemma FieldIndex(d: Dims, r: int, c: int)
    requires ValidDims(d) && InFrame(d, r, c)
    ensures 0 <= r * d.miCols + c < d.miRows * d.miCols
  {
    RowBelow(r, d.miRows, d.miCols);
    MulMonotone(0, r, d.miCols);
  }

  /** The frame_mvs loop of update_state over the x_mis by y_mis cells of
      the block inside the frame. */
  method FillFrameMvs(g: Grid, row: int, col: int, bsize: BlockSize, v: MvRef)
    requires g.Valid() && InFrame(g.dims, row, col)
    modifies g.frameMvs
    ensures g.frameMvs[..] == FillBlock(old(g.frameMvs[..]), g.dims.miCols, g.dims, row, col, bsize, v)
  {
    var d := g.dims;
    var xMis, yMis := Min(Num8x8Wide(bsize), d.miCols - col), Min(Num8x8High(bsize), d.miRows - row);
    ghost var m0 := g.frameMvs[..];
    FilledStart(m0, d.miCols, d, row, col, bsize, v);
    var h := 0;
    while h < Num8x8High(bsize)
      invariant 0 <= h <= Num8x8High(bsize)
      invariant g.frameMvs[..] == Filled(m0, d.miCols, d, row, col, bsize, v, h, 0)
    {
      var w := 0;
      while w < Num8x8Wide(bsize)
        invariant 0 <= w <= Num8x8Wide(bsize)
        invariant g.frameMvs[..] == Filled(m0, d.miCols, d, row, col, bsize, v, h, w)
      {
        FilledStep(m0, d.miCols, d, row, col, bsize, v, h, w);
        if h < yMis && w < xMis {
          FieldIndex(d, row + h, col + w);
          g.frameMvs[(row + h) * d.miCols + col + w] := v;
        } else {
          assert !(row + h < d.miRows && col + w < d.miCols);
        }
        w := w + 1;
      }
      FilledRow(m0, d.miCols, d, row, col, bsize, v, h);
      h := h + 1;
    }
    FilledEnd(m0, d.miCols, d, row, col, bsize, v);
  }

  /** update_state for the block at (row, col) of size bsize, whose cell
      set_offsets pointed at its own record: copy the picked mode info
      there, set its segment id, alias the block's cells to it, fix the
      motion vectors of a sub-8x8 inter block, and, when output is
      enabled, fill the frame's motion-vector field. */
  method UpdateState(g: Grid, picked: ModeInfo, segment: Option<int>, row: int, col: int, bsize: BlockSize,
                     outputEnabled: bool)
    requires g.Valid() && InFrame(g.dims, row, col) && picked.sbType == bsize
    requires CellOf(g.dims, g.State(), row, col) == Index(g.dims, row, col)
    modifies g.cells, g.records, g.frameMvs
    ensures g.State() == Committed(g.dims, old(g.State()), picked, segment, row, col, bsize)
    ensures g.frameMvs[..] == CommittedMvs(g.dims, old(g.frameMvs[..]), picked, row, col, bsize, outputEnabled)
  {
    var d := g.dims;
    IndexInRange(d, row, col);
    var idx := g.cells[Index(d, row, col)];
    g.records[idx] := picked;
    if segment.Some? {
      g.records[idx] := g.records[idx].(segmentId := segment.value);
    }
    AliasBlock(g, row, col, bsize, idx);
    var m := g.records[idx];
    if IsInter(m) && m.sbType < BLOCK_8X8 {
      g.records[idx] := m.(mv0 := picked.subMv0, mv1 := picked.subMv1);
    }
    if outputEnabled {
      FillFrameMvs(g, row, col, bsize, MvRefOf(picked));
    }
  }

  // ---------------------------------------------------------------------
  // The transform size fill of encode_superblock.

  /** The transform size encode_superblock writes into the block's cells
      when output is enabled, or None when it only counts the coded one:
      with TX_MODE_SELECT a block of at least 8X8 keeps its size unless it
      is an inter block that is skipped (by its flag or its segment);
      otherwise an inter block takes the largest size its block and the
      frame's mode allow, an intra block keeps its own size, or TX_4X4
      below 8X8. */
  function FillTxSize(txMode: TxMode, bsize: BlockSize, m: ModeInfo, segSkip: bool): Option<TxSize>
  {
    if txMode == TX_MODE_SELECT && m.sbType >= BLOCK_8X8 && !(IsInter(m) && (m.skip || segSkip)) then None
    else if IsInter(m) then Some(Min(BiggestTxSize(txMode), MaxTxsize(bsize)))
    else if bsize >= BLOCK_8X8 then Some(m.txSize)
    else Some(TX_4X4)
  }

  /** The filled size of an inter block fits both the block and the frame's
      transform mode, and is the largest that does; an intra block at least
      8X8 keeps its size. */
  lemma FillTxSizeFits(txMode: TxMode, bsize: BlockSize, m: ModeInfo, segSkip: bool)
    ensures var t := FillTxSize(txMode, bsize, m, segSkip);
      (t.None? <==> txMode == TX_MODE_SELECT && m.sbType >= BLOCK_8X8 && !(IsInter(m) && (m.skip || segSkip)))
      && (t.Some? && IsInter(m) ==>
            t.value <= MaxTxsize(bsize) && t.value <= BiggestTxSize(txMode)
            && (t.value == MaxTxsize(bsize) || t.value == BiggestTxSize(txMode)))
      && (t.Some? && !IsInter(m) && bsize >= BLOCK_8X8 ==> t.value == m.txSize)
      && (t.Some? && bsize < BLOCK_8X8 ==> t.value == TX_4X4)
  {
  }

  /** The grid after the fill: the block's record takes the size. */
  function TxFilled(d: Dims, s: GridState, idx: int, t: Option<TxSize>): (r: GridState)
    requires WellFormed(d, s) && 0 <= idx < |s.recs|
    ensures WellFormed(d, r)
  {
    if t.None? then s else GridState(s.cells, s.recs[idx := s.recs[idx].(txSize := t.value)])
  }

  /** After the fill every in-frame cell of the aliased block reads the
      filled size, and the mode info is otherwise as update_state left it. */
  lemma TxFilledReadsBack(d: Dims, s: GridState, row: int, col: int, bsize: BlockSize, idx: int, t: TxSize)
    requires WellFormed(d, s) && 0 <= idx < |s.recs| && PointsAt(d, s, row, col, bsize, idx)
    ensures var r := TxFilled(d, s, idx, Some(t));
      PointsAt(d, r, row, col, bsize, idx)
      && (forall rr, cc :: 0 <= rr && 0 <= cc && InBlock(d, row, col, bsize, rr, cc) ==>
            r.recs[CellOf(d, r, rr, cc)].txSize == t)
      && r.recs[idx].(txSize := TX_4X4) == s.recs[idx].(txSize := TX_4X4)
  {
    var r := TxFilled(d, s, idx, Some(t));
    forall rr, cc | 0 <= rr && 0 <= cc && InBlock(d, row, col, bsize, rr, cc)
      ensures r.recs[CellOf(d, r, rr, cc)].txSize == t
    {
      IndexInRange(d, rr, cc);
      assert r.cells[Index(d, rr, cc)] == idx;
    }
  }

  /** The fill loop of encode_superblock, run when output is enabled:
      every in-frame cell of the block has its record's transform size set;
      after update_state all of them point at the block's record. */
  method TxSizeFill(g: Grid, row: int, col: int, bsize: BlockSize, txMode: TxMode, segSkip: bool, idx: int)
    requires g.Valid() && InFrame(g.dims, row, col) && 0 <= idx < g.records.Length
    requires PointsAt(g.dims, g.State(), row, col, bsize, idx)
    modifies g.records
    ensures g.State() == TxFilled(g.dims, old(g.State()), idx, FillTxSize(txMode, bsize, old(g.records[idx]), segSkip))
  {
    var d := g.dims;
    var m := g.records[idx];
    var t := FillTxSize(txMode, bsize, m, segSkip);
    if t.Some? {
      ghost var r0 := g.records[..];
      var y := 0;
      while y < Num8x8High(bsize)
        invariant 0 <= y <= Num8x8High(bsize)
        invariant g.cells[..] == old(g.cells[..])
        invariant y == 0 ==> g.records[..] == r0
        invariant y > 0 ==> g.records[..] == r0[idx := m.(txSize := t.value)]
      {
        var x := 0;
        while x < Num8x8Wide(bsize)
          invariant 0 <= x <= Num8x8Wide(bsize)
          invariant g.cells[..] == old(g.cells[..])
          invariant y == 0 && x == 0 ==> g.records[..] == r0
          invariant y > 0 || x > 0 ==> g.records[..] == r0[idx := m.(txSize := t.value)]
        {
          if col + x < d.miCols && row + y < d.miRows {
            IndexInRange(d, row + y, col + x);
            assert CellOf(d, old(g.State()), row + y, col + x) == idx;
            var p := g.cells[(row + y) * d.miStride + col + x];
            g.records[p] := g.records[p].(txSize := t.value);
          }
          x := x + 1;
        }
        y := y + 1;
      }
    }
  }

  // ---------------------------------------------------------------------
  // reset_skip_tx_size

  /** The k-th cell of the frame in raster order. */
  function FrameCell(d: Dims, k: int): int
    requires ValidDims(d)
  {
    Index(d, k / d.miCols, k % d.miCols)
  }

  /** Some cell among the first n in raster order points at record p. */
  ghost predicate PointedBefore(d: Dims, cells: seq<int>, p: int, n: int)
    requires ValidDims(d)
  {
    exists k :: 0 <= k < n && 0 <= FrameCell(d, k) < |cells| && cells[FrameCell(d, k)] == p
  }

  function Capped(m: ModeInfo, maxTx: TxSize): ModeInfo
  {
    if m.txSize > maxTx then m.(txSize := maxTx) else m
  }

  /** The records after the first n cells of the walk have been capped. */
  ghost function CappedBefore(d: Dims, s: GridState, maxTx: TxSize, n: int): (r: seq<ModeInfo>)
    requires WellFormed(d, s)
    ensures |r| == |s.recs|
  {
    seq(|s.recs|, p requires 0 <= p < |s.recs| =>
      if PointedBefore(d, s.cells, p, n) then Capped(s.recs[p], maxTx) else s.recs[p])
  }

  /** reset_skip_tx_size on values: every record some in-frame cell points
      at has its transform size capped at maxTx. */
  ghost function ResetSkipTx(d: Dims, s: GridState, maxTx: TxSize): (r: GridState)
    requires WellFormed(d, s)
    ensures WellFormed(d, r)
  {
    GridState(s.cells, CappedBefore(d, s, maxTx, d.miRows * d.miCols))
  }

  /** Every in-frame cell points at a record. */
  ghost predicate NoNullCells(d: Dims, s: GridState)
    requires WellFormed(d, s)
  {
    forall r, c :: InFrame(d, r, c) ==> 0 <= CellOf(d, s, r, c) < |s.recs|
  }

  lemma FrameCellAt(d: Dims, r: int, c: int)
    requires ValidDims(d) && InFrame(d, r, c)
    ensures 0 <= r * d.miCols + c < d.miRows * d.miCols && FrameCell(d, r * d.miCols + c) == Index(d, r, c)
  {
    Decode(d.miCols, r, c);
    RowBelow(r, d.miRows, d.miCols);
  }

  lemma FrameCellInFrame(d: Dims, k: int)
    requires ValidDims(d) && 0 <= k < d.miRows * d.miCols
    ensures InFrame(d, k / d.miCols, k % d.miCols)
  {
    if k / d.miCols >= d.miRows {
      MulMonotone(d.miRows, k / d.miCols, d.miCols);
    }
  }

  /** Visiting the n-th cell caps the record it points at. */
  lemma CappedStep(d: Dims, s: GridState, maxTx: TxSize, n: int, recs: seq<ModeInfo>)
    requires WellFormed(d, s) && 0 <= n && 0 <= FrameCell(d, n) < |s.cells|
    requires 0 <= s.cells[FrameCell(d, n)] < |s.recs|
    requires recs == CappedBefore(d, s, maxTx, n)
    ensures var p := s.cells[FrameCell(d, n)];
      CappedBefore(d, s, maxTx, n + 1) == recs[p := Capped(recs[p], maxTx)]
  {
    var p := s.cells[FrameCell(d, n)];
    var after, stepped := CappedBefore(d, s, maxTx, n + 1), recs[p := Capped(recs[p], maxTx)];
    forall q | 0 <= q < |after|
      ensures after[q] == stepped[q]
    {
      if q == p {
        assert PointedBefore(d, s.cells, p, n + 1);
      } else if PointedBefore(d, s.cells, q, n + 1) {
        var k :| 0 <= k < n + 1 && 0 <= FrameCell(d, k) < |s.cells| && s.cells[FrameCell(d, k)] == q;
        assert k != n;
      }
    }
  }

  /** reset_skip_tx_size: cap the transform size of every block in the
      frame at max_tx_size, walking the cells row by row. */
  method ResetSkipTxSize(g: Grid, maxTx: TxSize)
    requires g.Valid() && NoNullCells(g.dims, g.State())
    modifies g.records
    ensures g.State() == ResetSkipTx(g.dims, old(g.State()), maxTx)
  {
    var d := g.dims;
    ghost var s0 := g.State();
    assert g.records[..] == CappedBefore(d, s0, maxTx, 0);
    var row := 0;
    while row < d.miRows
      invariant 0 <= row <= d.miRows
      invariant g.cells[..] == s0.cells
      invariant g.records[..] == CappedBefore(d, s0, maxTx, row * d.miCols)
    {
      var col := 0;
      while col < d.miCols
        invariant 0 <= col <= d.miCols
        invariant g.cells[..] == s0.cells
        invariant g.records[..] == CappedBefore(d, s0, maxTx, row * d.miCols + col)
      {
        FrameCellAt(d, row, col);
        IndexInRange(d, row, col);
        assert InFrame(d, row, col);
        CappedStep(d, s0, maxTx, row * d.miCols + col, g.records[..]);
        var p := g.cells[row * d.miStride + col];
        if g.records[p].txSize > maxTx {
          g.records[p] := g.records[p].(txSize := maxTx);
        }
        col := col + 1;
      }
      assert row * d.miCols + d.miCols == (row + 1) * d.miCols;
      row := row + 1;
    }
  }

  /** After the reset every in-frame cell reads a transform size of at most
      maxTx, which is its old size when that already fitted; nothing
      besides transform sizes changes. */
  lemma ResetSkipTxCaps(d: Dims, s: GridState, maxTx: TxSize, r: int, c: int)
    requires WellFormed(d, s) && NoNullCells(d, s) && InFrame(d, r, c)
    ensures var t := ResetSkipTx(d, s, maxTx);
      var p := CellOf(d, s, r, c);
      CellOf(d, t, r, c) == p
      && t.recs[p].txSize == Min(s.recs[p].txSize, maxTx)
      && t.recs[p].(txSize := TX_4X4) == s.recs[p].(txSize := TX_4X4)
  {
    IndexInRange(d, r, c);
    FrameCellAt(d, r, c);
    assert PointedBefore(d, s.cells, CellOf(d, s, r, c), d.miRows * d.miCols);
  }

  /** reset_skip_tx_size never raises a transform size, and a second reset
      with the same cap changes nothing. */
  lemma ResetSkipTxIdempotent(d: Dims, s: GridState, maxTx: TxSize)
    requires WellFormed(d, s)
    ensures var t := ResetSkipTx(d, s, maxTx);
      (forall p :: 0 <= p < |s.recs| ==> t.recs[p].txSize <= s.recs[p].txSize)
      && ResetSkipTx(d, t, maxTx) == t
  {
    var t := ResetSkipTx(d, s, maxTx);
    var n := d.miRows * d.miCols;
    assert t.cells == s.cells;
    forall p | 0 <= p < |s.recs|
      ensures PointedBefore(d, t.cells, p, n) == PointedBefore(d, s.cells, p, n)
    {
    }
    assert CappedBefore(d, t, maxTx, n) == t.recs;
  }
}
