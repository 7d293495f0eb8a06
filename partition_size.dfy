// Block-grid sizing: the fixed partition chosen from a variance, the
// largest block that fits at the image border (find_partition_size), the
// fixed-size superblock writers and the min/max partition-size ranges
// gathered from neighbouring and previous-frame blocks.

module PartitionSize {
  import opened Blocks
  import opened ModeInfoGrid

  /** get_rd_var_based_fixed_partition, given the per-pixel variance of the
      64X64 source block (an unsigned value from the variance kernel). */
  function RdVarBasedFixedPartition(v: nat): (b: BlockSize)
    ensures IsSquare(b) && BLOCK_8X8 <= b
  {
    if v < 8 then BLOCK_64X64
    else if v < 128 then BLOCK_32X32
    else if v < 2048 then BLOCK_16X16
    else BLOCK_8X8
  }

  /** A busier block never gets a larger fixed partition, and every square
      size from 8X8 to 64X64 is chosen for some variance. */
  lemma VarBasedMonotone(v1: nat, v2: nat)
    requires v1 <= v2
    ensures RdVarBasedFixedPartition(v2) <= RdVarBasedFixedPartition(v1)
    ensures RdVarBasedFixedPartition(0) == BLOCK_64X64 && RdVarBasedFixedPartition(8) == BLOCK_32X32
    ensures RdVarBasedFixedPartition(128) == BLOCK_16X16 && RdVarBasedFixedPartition(2048) == BLOCK_8X8
  {
  }

  // ---------------------------------------------------------------------
  // find_partition_size

  /** Sizes 4X8, 8X4 and 8X8 cover a single 8x8 cell. */
  lemma OneCell(b: BlockSize)
    requires 1 <= b <= 3
    ensures Num8x8High(b) == 1 && Num8x8Wide(b) == 1
  {
  }

  predicate Fits(b: BlockSize, rowsLeft: int, colsLeft: int)
  {
    Num8x8High(b) <= rowsLeft && Num8x8Wide(b) <= colsLeft
  }

  /** The loop of find_partition_size: step down by 3 (one size smaller,
      same shape) until the block fits the remaining rows and columns.
      With a row and a column left, 4X8, 8X4 and 8X8 fit, so the loop stops
      at them at the latest and never steps below 4X4. */
  function FitSize(b: BlockSize, rowsLeft: int, colsLeft: int): BlockSize
    requires rowsLeft > 0 && colsLeft > 0
    decreases b
  {
    if b == 0 || Fits(b, rowsLeft, colsLeft) then b
    else
      assert b > 3 by { if b <= 3 { OneCell(b); } }
      FitSize(b - 3, rowsLeft, colsLeft)
  }

  /** What find_partition_size returns, and the values it leaves in *bh and
      *bw (they are unchanged when the loop does not run). */
  datatype Found = Found(size: BlockSize, bh: int, bw: int)

  function PartitionSizeFor(b: BlockSize, rowsLeft: int, colsLeft: int, bh: int, bw: int): Found
  {
    if rowsLeft <= 0 || colsLeft <= 0 then Found(Min(b, BLOCK_8X8), bh, bw)
    else if b == 0 then Found(b, bh, bw)
    else
      var r := FitSize(b, rowsLeft, colsLeft);
      Found(r, Num8x8High(r), Num8x8Wide(r))
  }

  lemma {:induction false} FitSizeProps(b: BlockSize, rowsLeft: int, colsLeft: int)
    requires rowsLeft > 0 && colsLeft > 0
    ensures var r := FitSize(b, rowsLeft, colsLeft);
      && r <= b && r % 3 == b % 3 && Fits(r, rowsLeft, colsLeft) && (b > 0 ==> r > 0)
      && forall c: BlockSize :: r < c <= b && c % 3 == b % 3 ==> !Fits(c, rowsLeft, colsLeft)
    decreases b
  {
    if b != 0 && !Fits(b, rowsLeft, colsLeft) {
      if b <= 3 { OneCell(b); }
      FitSizeProps(b - 3, rowsLeft, colsLeft);
    }
  }

  /** find_partition_size never returns a size above its input and keeps
      the shape (it steps by 3, so a square stays square). With no rows or
      no columns left it returns min(bsize, 8X8); otherwise the result fits
      what is left and is the largest size of that shape that does, and
      *bh and *bw hold its dimensions whenever the loop ran. */
  lemma FindPartitionSizeProps(b: BlockSize, rowsLeft: int, colsLeft: int, bh: int, bw: int)
    ensures var f := PartitionSizeFor(b, rowsLeft, colsLeft, bh, bw);
      && f.size <= b
      && (rowsLeft <= 0 || colsLeft <= 0 ==> f.size == Min(b, BLOCK_8X8) && f.bh == bh && f.bw == bw)
      && (rowsLeft > 0 && colsLeft > 0 ==>
            f.size % 3 == b % 3 && Fits(f.size, rowsLeft, colsLeft)
            && (forall c: BlockSize :: f.size < c <= b && c % 3 == b % 3 ==> !Fits(c, rowsLeft, colsLeft))
            && (if b == 0 then f.bh == bh && f.bw == bw
                else f.bh == Num8x8High(f.size) && f.bw == Num8x8Wide(f.size)))
  {
    if rowsLeft > 0 && colsLeft > 0 {
      FitSizeProps(b, rowsLeft, colsLeft);
      if b == 0 {
        assert Fits(0, rowsLeft, colsLeft);
      }
    }
  }

  /** find_partition_size, the loop as written. */
  method FindPartitionSize(bsize: BlockSize, rowsLeft: int, colsLeft: int, bhIn: int, bwIn: int)
    returns (size: BlockSize, bh: int, bw: int)
    ensures Found(size, bh, bw) == PartitionSizeFor(bsize, rowsLeft, colsLeft, bhIn, bwIn)
  {
    bh, bw := bhIn, bwIn;
    if rowsLeft <= 0 || colsLeft <= 0 {
      return Min(bsize, BLOCK_8X8), bh, bw;
    }
    var b := bsize;
    while b > 0
      invariant FitSize(b, rowsLeft, colsLeft) == FitSize(bsize, rowsLeft, colsLeft)
      invariant b == 0 ==> bsize == 0
      invariant b == bsize ==> bh == bhIn && bw == bwIn
    {
      bh := Num8x8High(b);
      bw := Num8x8Wide(b);
      if bh <= rowsLeft && bw <= colsLeft {
        break;
      }
      if b <= 3 {
        OneCell(b);
      }
      b := b - 3;
    }
    return b, bh, bw;
  }

  // ---------------------------------------------------------------------
  // set_fixed_partitioning and set_partial_b64x64_partition

  /** Mark the cells in order; the superblock writers never leave the
      allocated grid (see FixedInAlloc), so the guard only keeps the
      function total. */
  function MarkAll(d: Dims, s: GridState, ps: seq<Placement>): (r: GridState)
    requires WellFormed(d, s)
    ensures WellFormed(d, r)
    decreases |ps|
  {
    if |ps| == 0 then s else MarkAll(d, MarkIfIn(d, s, ps[0]), ps[1..])
  }

  /** A write that lands in the allocated grid marks its cell; the writers
      never produce any other (see SbInAlloc). */
  function MarkIfIn(d: Dims, s: GridState, p: Placement): (r: GridState)
    requires WellFormed(d, s)
    ensures WellFormed(d, r)
  {
    if InAlloc(d, p.row, p.col) then Mark(d, s, p) else s
  }

  /** The writes set_partial_b64x64_partition makes from cell (r, c) of
      the superblock on, with *bh, *bw = bh, bw there: each cell gets the
      largest size that fits what is left of the tile and the column step
      is that size's width; at the end of a row the next row starts bh
      further down with *bw reset to bw_in. */
  function PartialCells(row: int, col: int, bsize: BlockSize, rowsRem: int, colsRem: int,
                        r: int, c: int, bh: int, bw: int, bwIn: int): seq<Placement>
    requires bh >= 1 && bw >= 1 && bwIn >= 1
    decreases MI_BLOCK_SIZE - r, MI_BLOCK_SIZE - c
  {
    if r >= MI_BLOCK_SIZE then []
    else if c >= MI_BLOCK_SIZE then PartialCells(row, col, bsize, rowsRem, colsRem, r + bh, 0, bh, bwIn, bwIn)
    else
      var f := PartitionSizeFor(bsize, rowsRem - r, colsRem - c, bh, bw);
      FoundDimsPositive(bsize, rowsRem - r, colsRem - c, bh, bw);
      [Placement(row + r, col + c, f.size)] + PartialCells(row, col, bsize, rowsRem, colsRem, r, c + f.bw, f.bh, f.bw, bwIn)
  }

  /** Placement p starts inside the superblock whose top-left cell is (row, col). */
  predicate InSb(p: Placement, row: int, col: int)
  {
    row <= p.row < row + MI_BLOCK_SIZE && col <= p.col < col + MI_BLOCK_SIZE
  }

  /** Every write has size bsize and lies inside the superblock. */
  predicate AllSized(ps: seq<Placement>, row: int, col: int, bsize: BlockSize)
  {
    forall p :: p in ps ==> p.size == bsize && InSb(p, row, col)
  }

  lemma {:induction false} FixedCellsGood(row: int, col: int, bsize: BlockSize, bh: int, bw: int, r: int, c: int)
    requires 0 <= r && 0 <= c && bh >= 1 && bw >= 1
    ensures AllSized(FixedCells(row, col, bsize, bh, bw, r, c), row, col, bsize)
    decreases MI_BLOCK_SIZE - r, MI_BLOCK_SIZE - c
  {
    if r < MI_BLOCK_SIZE {
      if c >= MI_BLOCK_SIZE {
        FixedCellsGood(row, col, bsize, bh, bw, r + bh, 0);
      } else {
        FixedCellsGood(row, col, bsize, bh, bw, r, c + bw);
      }
    }
  }

  lemma MulStep(k: int, j: int, b: int)
    requires k < j && b >= 1
    ensures k * b + b <= j * b
  {
    MulMonotone(k + 1, j, b);
    MulPred(k + 1, b);
  }

  /** Cell (rr, cc) = (r + i * bh, j * bw) of the lattice is written by the
      walk from (r, c), c = k * bw, when it lies on or after the cursor. */
  lemma {:induction false} FixedCellsCover(row: int, col: int, bsize: BlockSize, bh: int, bw: int, r: int, c: int,
                                           k: nat, rr: int, cc: int, i: nat, j: nat)
    requires bh >= 1 && bw >= 1 && 0 <= r && c == k * bw
    requires rr < MI_BLOCK_SIZE && rr == r + i * bh && 0 <= cc < MI_BLOCK_SIZE && cc == j * bw
    requires i == 0 ==> k <= j
    ensures Placement(row + rr, col + cc, bsize) in FixedCells(row, col, bsize, bh, bw, r, c)
    decreases MI_BLOCK_SIZE - r, MI_BLOCK_SIZE - c
  {
    var x := Placement(row + rr, col + cc, bsize);
    if c >= MI_BLOCK_SIZE {
      if i == 0 {
        MulStep(k - 1, j, bw);
        assert false;
      }
      MulPred(i, bh);
      FixedCellsCover(row, col, bsize, bh, bw, r + bh, 0, 0, rr, cc, i - 1, j);
    } else {
      var p := Placement(row + r, col + c, bsize);
      var rest := FixedCells(row, col, bsize, bh, bw, r, c + bw);
      assert FixedCells(row, col, bsize, bh, bw, r, c) == [p] + rest;
      if i == 0 && k == j {
        assert x == p;
      } else {
        MulPred(k + 1, bw);
        FixedCellsCover(row, col, bsize, bh, bw, r, c + bw, k + 1, rr, cc, i, j);
        assert x in rest;
      }
    }
  }

  /** A superblock that lies wholly inside the tile gets bsize everywhere:
      every write lies inside the superblock and has size bsize. */
  lemma WholeSuperblockSized(row: int, col: int, bsize: BlockSize)
    ensures AllSized(FixedCells(row, col, bsize, Num8x8High(bsize), Num8x8Wide(bsize), 0, 0), row, col, bsize)
  {
    SizeDimsPositive(bsize);
    FixedCellsGood(row, col, bsize, Num8x8High(bsize), Num8x8Wide(bsize), 0, 0);
  }

  /** Every cell on the bsize lattice of the superblock (rows i * bh,
      columns j * bw) is written. */
  lemma WholeSuperblockCovers(row: int, col: int, bsize: BlockSize, i: nat, j: nat)
    requires i * Num8x8High(bsize) < MI_BLOCK_SIZE && j * Num8x8Wide(bsize) < MI_BLOCK_SIZE
    ensures Placement(row + i * Num8x8High(bsize), col + j * Num8x8Wide(bsize), bsize) in FixedCells(row, col, bsize, Num8x8High(bsize), Num8x8Wide(bsize), 0, 0)
  {
    SizeDimsPositive(bsize);
    FixedCellsCover(row, col, bsize, Num8x8High(bsize), Num8x8Wide(bsize), 0, 0, 0,
                    i * Num8x8High(bsize), j * Num8x8Wide(bsize), i, j);
  }

  /** A write of a partial superblock: inside the superblock, never larger
      than bsize; where it starts inside the tile it has bsize's shape and
      is the largest such size fitting what is left of the tile, and where
      it starts outside it is min(bsize, 8X8). */
  predicate PartialGood(p: Placement, row: int, col: int, rowsRem: int, colsRem: int, bsize: BlockSize)
  {
    var r := p.row - row;
    var c := p.col - col;
    InSb(p, row, col) && p.size <= bsize
    && if r < rowsRem && c < colsRem then
         p.size % 3 == bsize % 3 && Fits(p.size, rowsRem - r, colsRem - c)
         && forall b: BlockSize :: p.size < b <= bsize && b % 3 == bsize % 3 ==> !Fits(b, rowsRem - r, colsRem - c)
       else p.size == Min(bsize, BLOCK_8X8)
  }

  predicate AllPartialGood(ps: seq<Placement>, row: int, col: int, rowsRem: int, colsRem: int, bsize: BlockSize)
  {
    forall p :: p in ps ==> PartialGood(p, row, col, rowsRem, colsRem, bsize)
  }

  /** The write at cell (r, c) of a partial superblock is good. */
  lemma CellGood(row: int, col: int, bsize: BlockSize, rowsRem: int, colsRem: int, r: int, c: int, bh: int, bw: int)
    requires 0 <= r < MI_BLOCK_SIZE && 0 <= c < MI_BLOCK_SIZE
    ensures PartialGood(Placement(row + r, col + c, PartitionSizeFor(bsize, rowsRem - r, colsRem - c, bh, bw).size),
                        row, col, rowsRem, colsRem, bsize)
  {
    FindPartitionSizeProps(bsize, rowsRem - r, colsRem - c, bh, bw);
  }

  lemma {:induction false} PartialCellsGood(row: int, col: int, bsize: BlockSize, rowsRem: int, colsRem: int,
                                            r: int, c: int, bh: int, bw: int, bwIn: int)
    requires 0 <= r && 0 <= c && bh >= 1 && bw >= 1 && bwIn >= 1
    ensures AllPartialGood(PartialCells(row, col, bsize, rowsRem, colsRem, r, c, bh, bw, bwIn),
                           row, col, rowsRem, colsRem, bsize)
    decreases MI_BLOCK_SIZE - r, MI_BLOCK_SIZE - c
  {
    if r < MI_BLOCK_SIZE {
      if c >= MI_BLOCK_SIZE {
        PartialCellsGood(row, col, bsize, rowsRem, colsRem, r + bh, 0, bh, bwIn, bwIn);
      } else {
        FoundDimsPositive(bsize, rowsRem - r, colsRem - c, bh, bw);
        PartialCellsGood(row, col, bsize, rowsRem, colsRem, r,
                         c + PartitionSizeFor(bsize, rowsRem - r, colsRem - c, bh, bw).bw,
                         PartitionSizeFor(bsize, rowsRem - r, colsRem - c, bh, bw).bh,
                         PartitionSizeFor(bsize, rowsRem - r, colsRem - c, bh, bw).bw, bwIn);
        CellGood(row, col, bsize, rowsRem, colsRem, r, c, bh, bw);
      }
    }
  }

  lemma MulPred(i: int, b: int)
    ensures i * b == (i - 1) * b + b
  {
  }

  lemma SizeDimsPositive(b: BlockSize)
    ensures Num8x8High(b) >= 1 && Num8x8Wide(b) >= 1
  {
  }

  /** A superblock starting inside the frame lies inside the allocated grid. */
  lemma SbInAlloc(d: Dims, row: int, col: int, p: Placement)
    requires ValidDims(d) && 0 <= row < d.miRows && 0 <= col < d.miCols && InSb(p, row, col)
    ensures InAlloc(d, p.row, p.col)
  {
  }

  /** The grid after set_partial_b64x64_partition has made its writes
      from cell (r, c) on, starting from grid s. */
  ghost function PartialFinish(d: Dims, s: GridState, row: int, col: int, bsize: BlockSize, rowsRem: int,
                               colsRem: int, r: int, c: int, bh: int, bw: int, bwIn: int): (res: GridState)
    requires WellFormed(d, s) && bh >= 1 && bw >= 1 && bwIn >= 1
    decreases MI_BLOCK_SIZE - r, MI_BLOCK_SIZE - c
  {
    if r >= MI_BLOCK_SIZE then s
    else if c >= MI_BLOCK_SIZE then PartialFinish(d, s, row, col, bsize, rowsRem, colsRem, r + bh, 0, bh, bwIn, bwIn)
    else
      var f := PartitionSizeFor(bsize, rowsRem - r, colsRem - c, bh, bw);
      FoundDimsPositive(bsize, rowsRem - r, colsRem - c, bh, bw);
      PartialFinish(d, MarkIfIn(d, s, Placement(row + r, col + c, f.size)), row, col, bsize, rowsRem, colsRem,
                    r, c + f.bw, f.bh, f.bw, bwIn)
  }

  /** Finishing the partial walk from the cursor (r, c, bh, bw) on grid s
      leads to grid final. */
  ghost predicate PartialReaches(d: Dims, s: GridState, row: int, col: int, bsize: BlockSize, rowsRem: int,
                                 colsRem: int, r: int, c: int, bh: int, bw: int, bwIn: int, final: GridState)
    requires WellFormed(d, s) && bh >= 1 && bw >= 1 && bwIn >= 1
  {
    PartialFinish(d, s, row, col, bsize, rowsRem, colsRem, r, c, bh, bw, bwIn) == final
  }

  lemma PartialReachesStart(d: Dims, s: GridState, row: int, col: int, bsize: BlockSize, rowsRem: int,
                            colsRem: int, bh: int, bwIn: int)
    requires WellFormed(d, s) && bh >= 1 && bwIn >= 1
    ensures PartialReaches(d, s, row, col, bsize, rowsRem, colsRem, 0, 0, bh, bwIn, bwIn,
                           PartialFinish(d, s, row, col, bsize, rowsRem, colsRem, 0, 0, bh, bwIn, bwIn))
  {
  }

  lemma PartialReachesRowEnd(d: Dims, s: GridState, row: int, col: int, bsize: BlockSize, rowsRem: int,
                             colsRem: int, r: int, c: int, bh: int, bw: int, bwIn: int, r': int, final: GridState)
    requires WellFormed(d, s) && r < MI_BLOCK_SIZE && c >= MI_BLOCK_SIZE && bh >= 1 && bw >= 1 && bwIn >= 1
    requires r' == r + bh
    requires PartialReaches(d, s, row, col, bsize, rowsRem, colsRem, r, c, bh, bw, bwIn, final)
    ensures PartialReaches(d, s, row, col, bsize, rowsRem, colsRem, r', 0, bh, bwIn, bwIn, final)
  {
  }

  lemma PartialReachesEnd(d: Dims, s: GridState, row: int, col: int, bsize: BlockSize, rowsRem: int,
                          colsRem: int, r: int, bh: int, bwIn: int, final: GridState)
    requires WellFormed(d, s) && r >= MI_BLOCK_SIZE && bh >= 1 && bwIn >= 1
    requires PartialReaches(d, s, row, col, bsize, rowsRem, colsRem, r, 0, bh, bwIn, bwIn, final)
    ensures s == final
  {
  }

  lemma PartialFinishStep(d: Dims, s: GridState, s': GridState, row: int, col: int, bsize: BlockSize,
                          rowsRem: int, colsRem: int, r: int, c: int, bh: int, bw: int, bwIn: int, size: BlockSize,
                          bh': int, bw': int, c': int, final: GridState)
    requires WellFormed(d, s) && r < MI_BLOCK_SIZE && c < MI_BLOCK_SIZE && bh >= 1 && bw >= 1 && bwIn >= 1
    requires Found(size, bh', bw') == PartitionSizeFor(bsize, rowsRem - r, colsRem - c, bh, bw)
    requires bh' >= 1 && bw' >= 1 && c' == c + bw'
    requires InAlloc(d, row + r, col + c) && s' == Mark(d, s, Placement(row + r, col + c, size))
    requires PartialReaches(d, s, row, col, bsize, rowsRem, colsRem, r, c, bh, bw, bwIn, final)
    ensures PartialReaches(d, s', row, col, bsize, rowsRem, colsRem, r, c', bh', bw', bwIn, final)
  {
  }

  /** Finishing the walk is making the writes PartialCells lists, in order. */
  lemma {:induction false} PartialFinishMarksCells(d: Dims, s: GridState, row: int, col: int, bsize: BlockSize,
                                                   rowsRem: int, colsRem: int, r: int, c: int, bh: int, bw: int,
                                                   bwIn: int)
    requires WellFormed(d, s) && bh >= 1 && bw >= 1 && bwIn >= 1
    ensures PartialFinish(d, s, row, col, bsize, rowsRem, colsRem, r, c, bh, bw, bwIn)
         == MarkAll(d, s, PartialCells(row, col, bsize, rowsRem, colsRem, r, c, bh, bw, bwIn))
    decreases MI_BLOCK_SIZE - r, MI_BLOCK_SIZE - c
  {
    if r < MI_BLOCK_SIZE {
      if c >= MI_BLOCK_SIZE {
        PartialFinishMarksCells(d, s, row, col, bsize, rowsRem, colsRem, r + bh, 0, bh, bwIn, bwIn);
      } else {
        FoundDimsPositive(bsize, rowsRem - r, colsRem - c, bh, bw);
        PartialFinishMarksCells(d, MarkIfIn(d, s, Placement(row + r, col + c, PartitionSizeFor(bsize, rowsRem - r, colsRem - c, bh, bw).size)),
                                row, col, bsize, rowsRem, colsRem, r, c + PartitionSizeFor(bsize, rowsRem - r, colsRem - c, bh, bw).bw,
                                PartitionSizeFor(bsize, rowsRem - r, colsRem - c, bh, bw).bh, PartitionSizeFor(bsize, rowsRem - r, colsRem - c, bh, bw).bw, bwIn);
        assert ([Placement(row + r, col + c, PartitionSizeFor(bsize, rowsRem - r, colsRem - c, bh, bw).size)]
                + PartialCells(row, col, bsize, rowsRem, colsRem, r, c + PartitionSizeFor(bsize, rowsRem - r, colsRem - c, bh, bw).bw,
                               PartitionSizeFor(bsize, rowsRem - r, colsRem - c, bh, bw).bh, PartitionSizeFor(bsize, rowsRem - r, colsRem - c, bh, bw).bw, bwIn))[1..]
            == PartialCells(row, col, bsize, rowsRem, colsRem, r, c + PartitionSizeFor(bsize, rowsRem - r, colsRem - c, bh, bw).bw,
                            PartitionSizeFor(bsize, rowsRem - r, colsRem - c, bh, bw).bh, PartitionSizeFor(bsize, rowsRem - r, colsRem - c, bh, bw).bw, bwIn);
      }
    }
  }

  /** find_partition_size leaves positive *bh and *bw when they were positive. */
  lemma FoundDimsPositive(b: BlockSize, rowsLeft: int, colsLeft: int, bh: int, bw: int)
    requires bh >= 1 && bw >= 1
    ensures PartitionSizeFor(b, rowsLeft, colsLeft, bh, bw).bh >= 1
    ensures PartitionSizeFor(b, rowsLeft, colsLeft, bh, bw).bw >= 1
  {
    SizeDimsPositive(PartitionSizeFor(b, rowsLeft, colsLeft, bh, bw).size);
  }

  /** One turn of the inner loop of set_partial_b64x64_partition. */
  method PartialCell(g: Grid, row: int, col: int, bsize: BlockSize, rowsRem: int, colsRem: int,
                     r: int, c: int, bh: int, bw: int, bwIn: int, ghost final: GridState)
    returns (c': int, bh': int, bw': int)
    requires g.Valid() && 0 <= row < g.dims.miRows && 0 <= col < g.dims.miCols
    requires 0 <= r < MI_BLOCK_SIZE && 0 <= c < MI_BLOCK_SIZE && bh >= 1 && bw >= 1 && bwIn >= 1
    requires PartialReaches(g.dims, g.State(), row, col, bsize, rowsRem, colsRem, r, c, bh, bw, bwIn, final)
    modifies g.cells, g.records
    ensures c' > c && bh' >= 1 && bw' >= 1
    ensures PartialReaches(g.dims, g.State(), row, col, bsize, rowsRem, colsRem, r, c', bh', bw', bwIn, final)
  {
    var size;
    size, bh', bw' := FindPartitionSize(bsize, rowsRem - r, colsRem - c, bh, bw);
    FoundDimsPositive(bsize, rowsRem - r, colsRem - c, bh, bw);
    c' := c + bw';
    SbInAlloc(g.dims, row, col, Placement(row + r, col + c, size));
    ghost var before := g.State();
    MarkCell(g, row + r, col + c, size);
    PartialFinishStep(g.dims, before, g.State(), row, col, bsize, rowsRem, colsRem, r, c, bh, bw, bwIn, size, bh', bw',
                      c', final);
  }

  /** set_partial_b64x64_partition: the superblock at (row, col) reaches
      past the bottom or right edge of the tile, and every cell on the
      walk gets the size find_partition_size picks for it. */
  method SetPartialB64x64Partition(g: Grid, row: int, col: int, bhIn: int, bwIn: int,
                                   rowsRem: int, colsRem: int, bsize: BlockSize)
    requires g.Valid() && 0 <= row < g.dims.miRows && 0 <= col < g.dims.miCols && bhIn >= 1 && bwIn >= 1
    modifies g.cells, g.records
    ensures g.State() == MarkAll(g.dims, old(g.State()),
                                 PartialCells(row, col, bsize, rowsRem, colsRem, 0, 0, bhIn, bwIn, bwIn))
  {
    PartialFinishMarksCells(g.dims, old(g.State()), row, col, bsize, rowsRem, colsRem, 0, 0, bhIn, bwIn, bwIn);
    PartialReachesStart(g.dims, old(g.State()), row, col, bsize, rowsRem, colsRem, bhIn, bwIn);
    var bh := bhIn;
    var r := 0;
    while r < MI_BLOCK_SIZE
      invariant 0 <= r && bh >= 1
      invariant PartialReaches(g.dims, g.State(), row, col, bsize, rowsRem, colsRem, r, 0, bh, bwIn, bwIn,
          PartialFinish(g.dims, old(g.State()), row, col, bsize, rowsRem, colsRem, 0, 0, bhIn, bwIn, bwIn))
    {
      var bw := bwIn;
      var c := 0;
      while c < MI_BLOCK_SIZE
        invariant 0 <= c && bh >= 1 && bw >= 1
        invariant PartialReaches(g.dims, g.State(), row, col, bsize, rowsRem, colsRem, r, c, bh, bw, bwIn,
            PartialFinish(g.dims, old(g.State()), row, col, bsize, rowsRem, colsRem, 0, 0, bhIn, bwIn, bwIn))
      {
        c, bh, bw := PartialCell(g, row, col, bsize, rowsRem, colsRem, r, c, bh, bw, bwIn,
            PartialFinish(g.dims, old(g.State()), row, col, bsize, rowsRem, colsRem, 0, 0, bhIn, bwIn, bwIn));
      }
      var r' := r + bh;
      PartialReachesRowEnd(g.dims, g.State(), row, col, bsize, rowsRem, colsRem, r, c, bh, bw, bwIn, r',
          PartialFinish(g.dims, old(g.State()), row, col, bsize, rowsRem, colsRem, 0, 0, bhIn, bwIn, bwIn));
      r := r';
    }
    PartialReachesEnd(g.dims, g.State(), row, col, bsize, rowsRem, colsRem, r, bh, bwIn,
        PartialFinish(g.dims, old(g.State()), row, col, bsize, rowsRem, colsRem, 0, 0, bhIn, bwIn, bwIn));
  }

  /** The grid after set_fixed_partitioning has written bsize at cells
      (r, c), (r, c + bw), ... and the rows below, starting from grid s. */
  ghost function FixedFinish(d: Dims, s: GridState, row: int, col: int, bsize: BlockSize, bh: int, bw: int,
                             r: int, c: int): (res: GridState)
    requires WellFormed(d, s) && bh >= 1 && bw >= 1
    decreases MI_BLOCK_SIZE - r, MI_BLOCK_SIZE - c
  {
    if r >= MI_BLOCK_SIZE then s
    else if c >= MI_BLOCK_SIZE then FixedFinish(d, s, row, col, bsize, bh, bw, r + bh, 0)
    else FixedFinish(d, MarkIfIn(d, s, Placement(row + r, col + c, bsize)), row, col, bsize, bh, bw, r, c + bw)
  }

  /** The writes of a whole superblock from cell (r, c) on, in the order
      the loops of set_fixed_partitioning make them. */
  function FixedCells(row: int, col: int, bsize: BlockSize, bh: int, bw: int, r: int, c: int): seq<Placement>
    requires bh >= 1 && bw >= 1
    decreases MI_BLOCK_SIZE - r, MI_BLOCK_SIZE - c
  {
    if r >= MI_BLOCK_SIZE then []
    else if c >= MI_BLOCK_SIZE then FixedCells(row, col, bsize, bh, bw, r + bh, 0)
    else [Placement(row + r, col + c, bsize)] + FixedCells(row, col, bsize, bh, bw, r, c + bw)
  }

  /** Finishing from cell (r, c) is making the writes FixedCells lists. */
  lemma {:induction false} FixedFinishMarksCells(d: Dims, s: GridState, row: int, col: int, bsize: BlockSize,
                                                 bh: int, bw: int, r: int, c: int)
    requires WellFormed(d, s) && bh >= 1 && bw >= 1
    ensures FixedFinish(d, s, row, col, bsize, bh, bw, r, c) == MarkAll(d, s, FixedCells(row, col, bsize, bh, bw, r, c))
    decreases MI_BLOCK_SIZE - r, MI_BLOCK_SIZE - c
  {
    if r < MI_BLOCK_SIZE {
      if c >= MI_BLOCK_SIZE {
        FixedFinishMarksCells(d, s, row, col, bsize, bh, bw, r + bh, 0);
      } else {
        FixedFinishMarksCells(d, MarkIfIn(d, s, Placement(row + r, col + c, bsize)), row, col, bsize, bh, bw, r, c + bw);
        assert ([Placement(row + r, col + c, bsize)] + FixedCells(row, col, bsize, bh, bw, r, c + bw))[1..]
            == FixedCells(row, col, bsize, bh, bw, r, c + bw);
      }
    }
  }

  /** Finishing the whole-superblock walk from cell (r, c) on grid s leads
      to grid final. */
  ghost predicate FixedReaches(d: Dims, s: GridState, row: int, col: int, bsize: BlockSize, bh: int, bw: int,
                               r: int, c: int, final: GridState)
    requires WellFormed(d, s) && bh >= 1 && bw >= 1
  {
    FixedFinish(d, s, row, col, bsize, bh, bw, r, c) == final
  }

  lemma FixedReachesStart(d: Dims, s: GridState, row: int, col: int, bsize: BlockSize, bh: int, bw: int)
    requires WellFormed(d, s) && bh >= 1 && bw >= 1
    ensures FixedReaches(d, s, row, col, bsize, bh, bw, 0, 0, FixedFinish(d, s, row, col, bsize, bh, bw, 0, 0))
  {
  }

  lemma FixedReachesRowEnd(d: Dims, s: GridState, row: int, col: int, bsize: BlockSize, bh: int, bw: int,
                           r: int, c: int, r': int, final: GridState)
    requires WellFormed(d, s) && bh >= 1 && bw >= 1 && r < MI_BLOCK_SIZE && c >= MI_BLOCK_SIZE && r' == r + bh
    requires FixedReaches(d, s, row, col, bsize, bh, bw, r, c, final)
    ensures FixedReaches(d, s, row, col, bsize, bh, bw, r', 0, final)
  {
  }

  lemma FixedReachesEnd(d: Dims, s: GridState, row: int, col: int, bsize: BlockSize, bh: int, bw: int, r: int,
                        final: GridState)
    requires WellFormed(d, s) && bh >= 1 && bw >= 1 && r >= MI_BLOCK_SIZE
    requires FixedReaches(d, s, row, col, bsize, bh, bw, r, 0, final)
    ensures s == final
  {
  }

  lemma FixedFinishStep(d: Dims, s: GridState, s': GridState, row: int, col: int, bsize: BlockSize, bh: int,
                        bw: int, r: int, c: int, c': int, final: GridState)
    requires WellFormed(d, s) && bh >= 1 && bw >= 1 && r < MI_BLOCK_SIZE && c < MI_BLOCK_SIZE
    requires InAlloc(d, row + r, col + c) && c' == c + bw && s' == Mark(d, s, Placement(row + r, col + c, bsize))
    requires FixedReaches(d, s, row, col, bsize, bh, bw, r, c, final)
    ensures FixedReaches(d, s', row, col, bsize, bh, bw, r, c', final)
  {
  }

  /** One turn of the inner loop of set_fixed_partitioning. */
  method FixedCell(g: Grid, row: int, col: int, bsize: BlockSize, bh: int, bw: int, r: int, c: int, c': int,
                   ghost final: GridState)
    requires g.Valid() && 0 <= row < g.dims.miRows && 0 <= col < g.dims.miCols && bh >= 1 && bw >= 1
    requires 0 <= r < MI_BLOCK_SIZE && 0 <= c < MI_BLOCK_SIZE && c' == c + bw
    requires FixedReaches(g.dims, g.State(), row, col, bsize, bh, bw, r, c, final)
    modifies g.cells, g.records
    ensures FixedReaches(g.dims, g.State(), row, col, bsize, bh, bw, r, c', final)
  {
    SbInAlloc(g.dims, row, col, Placement(row + r, col + c, bsize));
    MarkCell(g, row + r, col + c, bsize);
    FixedFinishStep(g.dims, old(g.State()), g.State(), row, col, bsize, bh, bw, r, c, c', final);
  }

  /** The loops of set_fixed_partitioning for a superblock wholly inside
      the tile; bh and bw are the dimensions of bsize in cells. */
  method FillWholeSuperblock(g: Grid, row: int, col: int, bsize: BlockSize, bh: int, bw: int)
    requires g.Valid() && 0 <= row < g.dims.miRows && 0 <= col < g.dims.miCols
    requires bh == Num8x8High(bsize) && bw == Num8x8Wide(bsize)
    modifies g.cells, g.records
    ensures g.State() == MarkAll(g.dims, old(g.State()), FixedCells(row, col, bsize, bh, bw, 0, 0))
  {
    SizeDimsPositive(bsize);
    FixedFinishMarksCells(g.dims, old(g.State()), row, col, bsize, bh, bw, 0, 0);
    FixedReachesStart(g.dims, old(g.State()), row, col, bsize, bh, bw);
    var blockRow := 0;
    while blockRow < MI_BLOCK_SIZE
      invariant 0 <= blockRow
      invariant FixedReaches(g.dims, g.State(), row, col, bsize, bh, bw, blockRow, 0,
                             FixedFinish(g.dims, old(g.State()), row, col, bsize, bh, bw, 0, 0))
    {
      var blockCol := 0;
      while blockCol < MI_BLOCK_SIZE
        invariant 0 <= blockCol
        invariant FixedReaches(g.dims, g.State(), row, col, bsize, bh, bw, blockRow, blockCol,
                               FixedFinish(g.dims, old(g.State()), row, col, bsize, bh, bw, 0, 0))
      {
        var blockCol' := blockCol + bw;
        FixedCell(g, row, col, bsize, bh, bw, blockRow, blockCol, blockCol',
                  FixedFinish(g.dims, old(g.State()), row, col, bsize, bh, bw, 0, 0));
        blockCol := blockCol';
      }
      var blockRow' := blockRow + bh;
      FixedReachesRowEnd(g.dims, g.State(), row, col, bsize, bh, bw, blockRow, blockCol, blockRow',
                         FixedFinish(g.dims, old(g.State()), row, col, bsize, bh, bw, 0, 0));
      blockRow := blockRow';
    }
    FixedReachesEnd(g.dims, g.State(), row, col, bsize, bh, bw, blockRow,
                    FixedFinish(g.dims, old(g.State()), row, col, bsize, bh, bw, 0, 0));
  }

  /** The superblock at (row, col) lies wholly inside the tile. */
  predicate WholeInTile(t: Tile, row: int, col: int)
  {
    t.miColEnd - col >= MI_BLOCK_SIZE && t.miRowEnd - row >= MI_BLOCK_SIZE
  }

  /** set_fixed_partitioning: a superblock wholly inside the tile gets
      bsize on its bsize lattice; otherwise each cell of the partial walk
      gets the largest allowed size that fits what is left of the tile. */
  method SetFixedPartitioning(g: Grid, t: Tile, row: int, col: int, bsize: BlockSize)
    requires g.Valid() && TileIn(g.dims, t) && 0 <= row < t.miRowEnd && 0 <= col < t.miColEnd
    modifies g.cells, g.records
    ensures WholeInTile(t, row, col) ==>
              g.State() == MarkAll(g.dims, old(g.State()),
                                   FixedCells(row, col, bsize, Num8x8High(bsize), Num8x8Wide(bsize), 0, 0))
    ensures !WholeInTile(t, row, col) ==>
              g.State() == MarkAll(g.dims, old(g.State()),
                                   PartialCells(row, col, bsize, t.miRowEnd - row, t.miColEnd - col, 0, 0,
                                                Num8x8High(bsize), Num8x8Wide(bsize), Num8x8Wide(bsize)))
  {
    SizeDimsPositive(bsize);
    if WholeInTile(t, row, col) {
      FillWholeSuperblock(g, row, col, bsize, Num8x8High(bsize), Num8x8Wide(bsize));
    } else {
      SetPartialB64x64Partition(g, row, col, Num8x8High(bsize), Num8x8Wide(bsize),
                                t.miRowEnd - row, t.miColEnd - col, bsize);
    }
  }
}
