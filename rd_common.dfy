// Cost bookkeeping shared by the two rate-distortion partition searches,
// the PC_TREE that records their decisions, and encode_sb, which codes the
// blocks of a decided tree.

module RdCommon {
  import opened Blocks

  const INT_MAX: int := 0x7fff_ffff
  const INT64_MAX: int := 0x7fff_ffff_ffff_ffff

  /** RD_COST: a rate, a distortion and the rate-distortion cost of the pair. */
  datatype RdCost = RdCost(rate: int, dist: int, rdcost: int)

  /** vp10_rd_cost_reset: the "nothing found" cost. */
  const Reset: RdCost := RdCost(INT_MAX, INT64_MAX, INT64_MAX)

  /** vp10_rd_cost_init: the start of a sum. */
  const Zero: RdCost := RdCost(0, 0, 0)

  /** What the mode search reports for one block: its cost and whether
      every transform block of it came out skippable (ctx->skippable). */
  datatype ModeResult = ModeResult(cost: RdCost, skippable: bool)

  /** The encoder as the searches see it. The mode search (the intra and
      inter mode pickers behind rd_pick_sb_modes), RDCOST, the
      partition_cost table and partition_plane_context are opaque: they
      are given as functions of the block position, size and budget. */
  datatype Coder = Coder(
    modes: (int, int, BlockSize, int) -> ModeResult,
    rdCost: (int, int) -> int,
    partitionCost: (int, Partition) -> int,
    planeContext: (int, int, BlockSize) -> int,
    miRows: int,
    miCols: int)

  /** rd_pick_sb_modes: runs the mode search for a block under the budget
      bestRd and normalises an infeasible result (rate INT_MAX) to the
      cost INT64_MAX. */
  function SbModes(c: Coder, row: int, col: int, bsize: BlockSize, bestRd: int): (r: ModeResult)
    ensures r.cost.rate == INT_MAX ==> r.cost.rdcost == INT64_MAX
    ensures r.cost.rate != INT_MAX ==> r == c.modes(row, col, bsize, bestRd)
    ensures r.cost.rate == c.modes(row, col, bsize, bestRd).cost.rate
    ensures r.cost.dist == c.modes(row, col, bsize, bestRd).cost.dist
    ensures r.skippable == c.modes(row, col, bsize, bestRd).skippable
  {
    var m := c.modes(row, col, bsize, bestRd);
    if m.cost.rate == INT_MAX then m.(cost := m.cost.(rdcost := INT64_MAX)) else m
  }

  /** Normalising makes an infeasible result lose every strict comparison
      with a budget: a search that found no mode never replaces a best
      cost, which is at most INT64_MAX. */
  lemma SbModesInfeasibleLoses(c: Coder, row: int, col: int, bsize: BlockSize, bestRd: int, budget: int)
    requires budget <= INT64_MAX
    ensures var r := SbModes(c, row, col, bsize, bestRd);
      r.cost.rate == INT_MAX ==> !(r.cost.rdcost < budget)
  {
  }

  /** Adds the cost of signalling shape p in partition context pl to a
      summed rate and recomputes the RD cost from the new totals. */
  function WithShapeCost(c: Coder, pl: int, sum: RdCost, p: Partition): RdCost
  {
    var rate := sum.rate + c.partitionCost(pl, p);
    RdCost(rate, sum.dist, c.rdCost(rate, sum.dist))
  }

  /** Component-wise sum of two costs (the running sums of the searches). */
  function Add(a: RdCost, b: RdCost): RdCost
  {
    RdCost(a.rate + b.rate, a.dist + b.dist, a.rdcost + b.rdcost)
  }

  function SumRates(parts: seq<RdCost>): int
  {
    if |parts| == 0 then 0 else SumRates(parts[..|parts| - 1]) + parts[|parts| - 1].rate
  }

  function SumDists(parts: seq<RdCost>): int
  {
    if |parts| == 0 then 0 else SumDists(parts[..|parts| - 1]) + parts[|parts| - 1].dist
  }

  predicate AllFeasible(parts: seq<RdCost>)
  {
    forall k :: 0 <= k < |parts| ==> parts[k].rate != INT_MAX
  }

  lemma SumsAppend(parts: seq<RdCost>, x: RdCost)
    ensures SumRates(parts + [x]) == SumRates(parts) + x.rate
    ensures SumDists(parts + [x]) == SumDists(parts) + x.dist
  {
    assert (parts + [x])[..|parts|] == parts;
  }

  /** A shape's final cost is made of its parts: every part feasible, the
      rate their sum plus the cost of signalling shape p, the distortion
      their sum, and the RD cost recomputed from those two. */
  predicate SummedAs(cost: RdCost, parts: seq<RdCost>, c: Coder, pl: int, p: Partition)
  {
    AllFeasible(parts) && cost.rate == SumRates(parts) + c.partitionCost(pl, p) &&
    cost.dist == SumDists(parts) && cost.rdcost == c.rdCost(cost.rate, cost.dist)
  }

  lemma SumsSingle(x: RdCost)
    ensures SumRates([x]) == x.rate && SumDists([x]) == x.dist
  {
  }

  lemma SumsPair(x: RdCost, y: RdCost)
    ensures SumRates([x, y]) == x.rate + y.rate && SumDists([x, y]) == x.dist + y.dist
  {
    assert [x, y][..1] == [x];
    SumsSingle(x);
  }

  /** A single feasible part, priced as shape p, is summed as p. */
  lemma OneSummed(c: Coder, pl: int, p: Partition, x: RdCost)
    ensures x.rate != INT_MAX ==> SummedAs(WithShapeCost(c, pl, x, p), [x], c, pl, p)
  {
    SumsSingle(x);
  }

  /** Two feasible parts, added and priced as shape p, are summed as p. */
  lemma TwoSummed(c: Coder, pl: int, p: Partition, x: RdCost, y: RdCost)
    ensures x.rate != INT_MAX && y.rate != INT_MAX ==> SummedAs(WithShapeCost(c, pl, Add(x, y), p), [x, y], c, pl, p)
  {
    SumsPair(x, y);
  }

  /** PC_TREE, reduced to what the partition decisions use: the chosen
      shape, the position among the parent's children, and the four
      children of a block above 8X8. */
  datatype PcTree = PcTree(partitioning: Partition, index: int, split: seq<PcTree>)

  /** The tree vp10_setup_pc_tree allocates for a square block: four
      children, one size smaller, for every block above 8X8. */
  predicate Shaped(t: PcTree, bsize: BlockSize)
    decreases bsize, t
  {
    IsSquare(bsize) &&
    (bsize > BLOCK_8X8 ==>
      |t.split| == 4 && forall i :: 0 <= i < 4 ==> Shaped(t.split[i], bsize - 3))
  }


  /** The shape of a tree does not depend on its position among its
      siblings: child k of a shaped set of children, renumbered k, is shaped. */
  lemma KidShaped(kids: seq<PcTree>, sub: BlockSize, k: int)
    requires KidsShaped(kids, sub) && 0 <= k < 4
    ensures Shaped(kids[k].(index := k), sub)
  {
    assert Shaped(kids[k], sub);
    assert kids[k].(index := k).split == kids[k].split;
  }

  /** Four children, each shaped for size sub. */
  predicate KidsShaped(kids: seq<PcTree>, sub: BlockSize)
  {
    |kids| == 4 && forall k :: 0 <= k < 4 ==> Shaped(kids[k], sub)
  }

  /** The mi offset of the second half of a square block in encode_sb:
      (1 << b_width_log2) / 4. */
  function HalfStep(bsize: BlockSize): int
  {
    Num4x4Wide(bsize) / 4
  }

  /** The top-left cell of quadrant k (0..3, in raster order) of a square
      block at (row, col). */
  function QuadRow(row: int, bsize: BlockSize, k: int): int
  {
    row + (if k < 2 then 0 else HalfStep(bsize))
  }

  function QuadCol(col: int, bsize: BlockSize, k: int): int
  {
    col + (if k % 2 == 0 then 0 else HalfStep(bsize))
  }

  /** One encode_b call: the block at (row, col) coded with size size. */
  datatype Coded = Coded(row: int, col: int, size: BlockSize)

  /** encode_sb: the blocks coded for a decided tree, in coding order.
      A block whose top-left cell is outside the frame codes nothing. The
      shape is read back from the tree through get_subsize and
      partition_lookup, which for every valid shape gives the tree's own
      shape back (Blocks.LookupInvertsSubsize); an invalid shape codes
      nothing. */
  function EncodeSb(c: Coder, t: PcTree, row: int, col: int, bsize: BlockSize): seq<Coded>
    requires Shaped(t, bsize)
    decreases bsize, t
  {
    if row >= c.miRows || col >= c.miCols then []
    else if bsize < BLOCK_8X8 then [Coded(row, col, BLOCK_4X4)]
    else
      var hbs := HalfStep(bsize);
      match t.partitioning
      case PartitionNone => [Coded(row, col, bsize)]
      case PartitionVert =>
        [Coded(row, col, bsize - 2)] +
        (if col + hbs < c.miCols && bsize > BLOCK_8X8 then [Coded(row, col + hbs, bsize - 2)] else [])
      case PartitionHorz =>
        [Coded(row, col, bsize - 1)] +
        (if row + hbs < c.miRows && bsize > BLOCK_8X8 then [Coded(row + hbs, col, bsize - 1)] else [])
      case PartitionSplit =>
        if bsize == BLOCK_8X8 then [Coded(row, col, BLOCK_4X4)]
        else
          (EncodeSb(c, t.split[0], QuadRow(row, bsize, 0), QuadCol(col, bsize, 0), bsize - 3) +
           EncodeSb(c, t.split[1], QuadRow(row, bsize, 1), QuadCol(col, bsize, 1), bsize - 3)) +
          (EncodeSb(c, t.split[2], QuadRow(row, bsize, 2), QuadCol(col, bsize, 2), bsize - 3) +
           EncodeSb(c, t.split[3], QuadRow(row, bsize, 3), QuadCol(col, bsize, 3), bsize - 3))
      case PartitionInvalid => []
  }

  /** A rectangle of mi cells. */
  datatype Area = Area(row: int, col: int, high: int, wide: int)

  function Footprint(b: Coded): Area
  {
    Area(b.row, b.col, Num8x8High(b.size), Num8x8Wide(b.size))
  }

  function BlockArea(row: int, col: int, bsize: BlockSize): Area
  {
    Area(row, col, Num8x8High(bsize), Num8x8Wide(bsize))
  }

  predicate Within(a: Area, outer: Area)
  {
    outer.row <= a.row && a.row + a.high <= outer.row + outer.high &&
    outer.col <= a.col && a.col + a.wide <= outer.col + outer.wide
  }

  predicate Apart(a: Area, b: Area)
  {
    a.row + a.high <= b.row || b.row + b.high <= a.row ||
    a.col + a.wide <= b.col || b.col + b.wide <= a.col
  }

  /** The blocks lie inside outer and no two of them overlap. */
  predicate Laid(bs: seq<Coded>, outer: Area)
  {
    (forall k :: 0 <= k < |bs| ==> Within(Footprint(bs[k]), outer)) &&
    (forall j, k :: 0 <= j < k < |bs| ==> Apart(Footprint(bs[j]), Footprint(bs[k])))
  }

  predicate StartInFrame(c: Coder, bs: seq<Coded>)
  {
    forall k :: 0 <= k < |bs| ==> 0 <= bs[k].row < c.miRows && 0 <= bs[k].col < c.miCols
  }

  lemma LaidConcat(a: seq<Coded>, b: seq<Coded>, ra: Area, rb: Area, outer: Area)
    requires Laid(a, ra) && Laid(b, rb) && Apart(ra, rb)
    requires Within(ra, outer) && Within(rb, outer)
    requires ra.high >= 0 && ra.wide >= 0 && rb.high >= 0 && rb.wide >= 0
    ensures Laid(a + b, outer)
  {
    var ab := a + b;
    forall j, k | 0 <= j < k < |ab|
      ensures Apart(Footprint(ab[j]), Footprint(ab[k]))
    {
      if k < |a| {
        assert ab[j] == a[j] && ab[k] == a[k];
      } else if j >= |a| {
        assert ab[j] == b[j - |a|] && ab[k] == b[k - |a|];
      } else {
        assert ab[j] == a[j] && ab[k] == b[k - |a|];
        assert Within(Footprint(a[j]), ra) && Within(Footprint(b[k - |a|]), rb);
      }
    }
    forall k | 0 <= k < |ab|
      ensures Within(Footprint(ab[k]), outer)
    {
      if k < |a| {
        assert ab[k] == a[k];
      } else {
        assert ab[k] == b[k - |a|];
      }
    }
  }

  lemma InFrameConcat(c: Coder, a: seq<Coded>, b: seq<Coded>)
    requires StartInFrame(c, a) && StartInFrame(c, b)
    ensures StartInFrame(c, a + b)
  {
    var ab := a + b;
    forall k | 0 <= k < |ab|
      ensures 0 <= ab[k].row < c.miRows && 0 <= ab[k].col < c.miCols
    {
      if k < |a| {
        assert ab[k] == a[k];
      } else {
        assert ab[k] == b[k - |a|];
      }
    }
  }

  /** The dimensions of a square block above 8X8 and of its halves and
      quarters, in terms of encode_sb's half step. */
  lemma HalfDims(bsize: BlockSize)
    requires IsSquare(bsize) && bsize > BLOCK_8X8
    ensures HalfStep(bsize) > 0
    ensures Num8x8High(bsize) == 2 * HalfStep(bsize) && Num8x8Wide(bsize) == 2 * HalfStep(bsize)
    ensures Num8x8High(bsize - 3) == HalfStep(bsize) && Num8x8Wide(bsize - 3) == HalfStep(bsize)
    ensures Num8x8High(bsize - 1) == HalfStep(bsize) && Num8x8Wide(bsize - 1) == 2 * HalfStep(bsize)
    ensures Num8x8High(bsize - 2) == 2 * HalfStep(bsize) && Num8x8Wide(bsize - 2) == HalfStep(bsize)
  {
    assert bsize == 6 || bsize == 9 || bsize == 12;
  }

  /** encode_sb codes blocks that start inside the frame, lie inside the
      block being coded and never overlap. */
  lemma {:induction false} EncodeSbLaid(c: Coder, t: PcTree, row: int, col: int, bsize: BlockSize)
    requires Shaped(t, bsize) && row >= 0 && col >= 0
    ensures Laid(EncodeSb(c, t, row, col, bsize), BlockArea(row, col, bsize))
    ensures StartInFrame(c, EncodeSb(c, t, row, col, bsize))
    decreases bsize, 1
  {
    if row >= c.miRows || col >= c.miCols || bsize < BLOCK_8X8 {
    } else if t.partitioning == PartitionSplit && bsize > BLOCK_8X8 {
      SplitLaid(c, t, row, col, bsize);
    } else {
      LeafLaid(c, t, row, col, bsize);
    }
  }

  lemma LeafLaid(c: Coder, t: PcTree, row: int, col: int, bsize: BlockSize)
    requires Shaped(t, bsize) && 0 <= row < c.miRows && 0 <= col < c.miCols && bsize >= BLOCK_8X8
    requires !(t.partitioning == PartitionSplit && bsize > BLOCK_8X8)
    ensures Laid(EncodeSb(c, t, row, col, bsize), BlockArea(row, col, bsize))
    ensures StartInFrame(c, EncodeSb(c, t, row, col, bsize))
  {
    if bsize == BLOCK_8X8 {
      assert Num8x8High(bsize) == 1 && Num8x8Wide(bsize) == 1;
    } else {
      HalfDims(bsize);
    }
  }

  lemma {:induction false} SplitLaid(c: Coder, t: PcTree, row: int, col: int, bsize: BlockSize)
    requires Shaped(t, bsize) && 0 <= row < c.miRows && 0 <= col < c.miCols
    requires t.partitioning == PartitionSplit && bsize > BLOCK_8X8
    ensures Laid(EncodeSb(c, t, row, col, bsize), BlockArea(row, col, bsize))
    ensures StartInFrame(c, EncodeSb(c, t, row, col, bsize))
    decreases bsize, 0
  {
    HalfDims(bsize);
    EncodeSbLaid(c, t.split[0], QuadRow(row, bsize, 0), QuadCol(col, bsize, 0), bsize - 3);
    EncodeSbLaid(c, t.split[1], QuadRow(row, bsize, 1), QuadCol(col, bsize, 1), bsize - 3);
    EncodeSbLaid(c, t.split[2], QuadRow(row, bsize, 2), QuadCol(col, bsize, 2), bsize - 3);
    EncodeSbLaid(c, t.split[3], QuadRow(row, bsize, 3), QuadCol(col, bsize, 3), bsize - 3);
    FourLaid(c,
      EncodeSb(c, t.split[0], QuadRow(row, bsize, 0), QuadCol(col, bsize, 0), bsize - 3),
      EncodeSb(c, t.split[1], QuadRow(row, bsize, 1), QuadCol(col, bsize, 1), bsize - 3),
      EncodeSb(c, t.split[2], QuadRow(row, bsize, 2), QuadCol(col, bsize, 2), bsize - 3),
      EncodeSb(c, t.split[3], QuadRow(row, bsize, 3), QuadCol(col, bsize, 3), bsize - 3),
      row, col, bsize);
  }

  /** Four quadrants' blocks, each laid in its quadrant, are laid in the
      whole block. */
  lemma FourLaid(c: Coder, e0: seq<Coded>, e1: seq<Coded>, e2: seq<Coded>, e3: seq<Coded>,
                 row: int, col: int, bsize: BlockSize)
    requires IsSquare(bsize) && bsize > BLOCK_8X8
    requires Laid(e0, BlockArea(QuadRow(row, bsize, 0), QuadCol(col, bsize, 0), bsize - 3))
    requires Laid(e1, BlockArea(QuadRow(row, bsize, 1), QuadCol(col, bsize, 1), bsize - 3))
    requires Laid(e2, BlockArea(QuadRow(row, bsize, 2), QuadCol(col, bsize, 2), bsize - 3))
    requires Laid(e3, BlockArea(QuadRow(row, bsize, 3), QuadCol(col, bsize, 3), bsize - 3))
    requires StartInFrame(c, e0) && StartInFrame(c, e1) && StartInFrame(c, e2) && StartInFrame(c, e3)
    ensures Laid((e0 + e1) + (e2 + e3), BlockArea(row, col, bsize))
    ensures StartInFrame(c, (e0 + e1) + (e2 + e3))
  {
    var h := HalfStep(bsize);
    HalfDims(bsize);
    LaidConcat(e0, e1, BlockArea(QuadRow(row, bsize, 0), QuadCol(col, bsize, 0), bsize - 3),
      BlockArea(QuadRow(row, bsize, 1), QuadCol(col, bsize, 1), bsize - 3), Area(row, col, h, 2 * h));
    LaidConcat(e2, e3, BlockArea(QuadRow(row, bsize, 2), QuadCol(col, bsize, 2), bsize - 3),
      BlockArea(QuadRow(row, bsize, 3), QuadCol(col, bsize, 3), bsize - 3), Area(row + h, col, h, 2 * h));
    LaidConcat(e0 + e1, e2 + e3, Area(row, col, h, 2 * h), Area(row + h, col, h, 2 * h), BlockArea(row, col, bsize));
    InFrameConcat(c, e0, e1);
    InFrameConcat(c, e2, e3);
    InFrameConcat(c, e0 + e1, e2 + e3);
  }
}
