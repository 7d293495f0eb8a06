// rd_pick_partition: the exhaustive rate-distortion partition search. For
// a square block it prices coding the block whole (NONE), as four
// recursively searched quarters (SPLIT), and as two horizontal or two
// vertical halves, keeping the cheapest under a running budget.

module RdPick {
  import opened Blocks
  import opened RdCommon

  /** The speed features and per-block facts the search consults. */
  datatype Features = Features(
    autoMinMax: bool,                            // sf.auto_min_max_partition_size
    minSize: BlockSize,                          // x->min_partition_size
    maxSize: BlockSize,                          // x->max_partition_size
    cbSearch: bool,                              // sf.cb_partition_search
    chessboard: nat,                             // get_chessboard_index(current frame)
    rangeAt: (int, int) -> (BlockSize, BlockSize), // set_partition_range at a 16X16 block
    squareOnly: bool,                            // sf.use_square_partition_only
    lessRectangular: bool,                       // sf.less_rectangular_check
    breakoutDist: int,                           // sf.partition_search_breakout_dist_thr
    breakoutRate: int,                           // sf.partition_search_breakout_rate_thr
    lossless: bool,                              // lossless coding of the block's segment
    xss: int,                                    // chroma subsampling, x
    yss: int,                                    // chroma subsampling, y
    activeHEdge: (int, int) -> bool,             // vp10_active_h_edge(row, mi_step)
    activeVEdge: (int, int) -> bool)             // vp10_active_v_edge(col, mi_step)

  /** Half the width of a block in mi units (num_8x8_blocks_wide / 2). */
  function MiStep(bsize: BlockSize): int
  {
    Num8x8Wide(bsize) / 2
  }

  /** The top-left cell of the i-th quarter (raster order) in the SPLIT loop. */
  function ChildRow(row: int, bsize: BlockSize, i: int): int
  {
    row + (if i < 2 then 0 else MiStep(bsize))
  }

  function ChildCol(col: int, bsize: BlockSize, i: int): int
  {
    col + (if i % 2 == 0 then 0 else MiStep(bsize))
  }

  /** The partition-size bounds in force: a 16X16 block picked by the
      chessboard pattern narrows them to set_partition_range's when the
      block lies strictly between them. */
  function SizeRange(f: Features, t: PcTree, row: int, col: int, bsize: BlockSize): (BlockSize, BlockSize)
  {
    var ctrl := ((if t.index == 0 || t.index == 3 then 1 else 0) + f.chessboard) % 2;
    if f.cbSearch && bsize == BLOCK_16X16 && ctrl == 1 && bsize > f.minSize && bsize < f.maxSize
    then f.rangeAt(row, col)
    else (f.minSize, f.maxSize)
  }

  /** Which shapes the search tries at all. */
  datatype Allowed = Allowed(none: bool, horz: bool, vert: bool, split: bool)

  function AllowedShapes(c: Coder, f: Features, row: int, col: int, bsize: BlockSize,
                         minSize: BlockSize, maxSize: BlockSize): Allowed
  {
    var forceHorz := row + MiStep(bsize) >= c.miRows;
    var forceVert := col + MiStep(bsize) >= c.miCols;
    var none := !forceHorz && !forceVert;
    var horz := !forceVert && f.yss <= f.xss && bsize >= BLOCK_8X8;
    var vert := !forceHorz && f.xss <= f.yss && bsize >= BLOCK_8X8;
    var split := bsize >= BLOCK_8X8;
    var none1 := none && (!f.autoMinMax || (bsize <= maxSize && bsize >= minSize));
    var horz1 := horz && (!f.autoMinMax || (bsize <= maxSize && bsize > minSize) || forceHorz);
    var vert1 := vert && (!f.autoMinMax || (bsize <= maxSize && bsize > minSize) || forceVert);
    var split1 := split && (!f.autoMinMax || bsize > minSize);
    Allowed(none1, horz1 && (!f.squareOnly || forceHorz), vert1 && (!f.squareOnly || forceVert), split1)
  }

  /** A block crossing the bottom or right frame edge is never coded whole,
      a rectangle that would leave a half outside the frame is never tried,
      rectangles follow the chroma subsampling, and the size bounds and the
      square-only feature restrict the shapes as configured. */
  lemma AllowedShapesSound(c: Coder, f: Features, row: int, col: int, bsize: BlockSize,
                           minSize: BlockSize, maxSize: BlockSize)
    ensures var a := AllowedShapes(c, f, row, col, bsize, minSize, maxSize);
      (a.none ==> row + MiStep(bsize) < c.miRows && col + MiStep(bsize) < c.miCols) &&
      (a.horz ==> col + MiStep(bsize) < c.miCols && f.yss <= f.xss && bsize >= BLOCK_8X8) &&
      (a.vert ==> row + MiStep(bsize) < c.miRows && f.xss <= f.yss && bsize >= BLOCK_8X8) &&
      (a.split <==> bsize >= BLOCK_8X8 && (!f.autoMinMax || bsize > minSize)) &&
      (f.autoMinMax && a.none ==> minSize <= bsize <= maxSize) &&
      (f.squareOnly && a.horz ==> row + MiStep(bsize) >= c.miRows) &&
      (f.squareOnly && a.vert ==> col + MiStep(bsize) >= c.miCols) &&
      (row + MiStep(bsize) < c.miRows && col + MiStep(bsize) < c.miCols && !f.autoMinMax ==> a.none)
  {
  }

  /** What became of one shape: not searched, searched and rejected before
      being priced, or priced at cost (the total the search compared
      against the best so far). */
  datatype Outcome = Skipped | Rejected | Priced(cost: RdCost)

  /** A shape's outcome and the costs of the parts it summed. */
  datatype Tried = Tried(outcome: Outcome, parts: seq<RdCost>)

  /** The search state between shapes: the best cost so far, the tree's
      shape field, and the do_split / do_rect flags. */
  datatype Stage = Stage(best: RdCost, partitioning: Partition, doSplit: bool, doRect: bool)

  /** The early exit after a cheap, skippable NONE: the distortion bound is
      the breakout threshold shifted right by 8 - (bwl + bhl), the rate
      bound the rate threshold times the block's log2 pixel count. */
  function Breakout(f: Features, bsize: BlockSize, cost: RdCost, skippable: bool): bool
  {
    var shift := 8 - (BWidthLog2(bsize) + BHeightLog2(bsize));
    var distThr := f.breakoutDist / Pow2(if shift >= 0 then shift else 0);
    var rateThr := f.breakoutRate * NumPelsLog2(bsize);
    !f.lossless && skippable && cost.dist < distThr && cost.rate < rateThr
  }

  /** One shape's effect on the running best: a priced shape strictly
      cheaper than the best so far replaces it (and sets the tree's shape
      to p); anything else leaves both alone. */
  predicate Step(st: Stage, st': Stage, o: Outcome, p: Partition)
  {
    if o.Priced? && o.cost.rdcost < st.best.rdcost
    then st'.best == o.cost && st'.partitioning == p
    else st'.best == st.best && st'.partitioning == st.partitioning
  }

  /** Takes a priced shape when it is strictly cheaper than the best so far. */
  function Consider(st: Stage, o: Outcome, p: Partition): Stage
  {
    if o.Priced? && o.cost.rdcost < st.best.rdcost
    then st.(best := o.cost, partitioning := p)
    else st
  }

  /** Pricing a shape whose summed cost came in under the budget. */
  function Decide(c: Coder, pl: int, sum: RdCost, p: Partition, bestRd: int, parts: seq<RdCost>): Tried
  {
    if sum.rdcost < bestRd then Tried(Priced(WithShapeCost(c, pl, sum, p)), parts)
    else Tried(Rejected, parts)
  }

  /** PARTITION_NONE: one mode search for the whole block; a feasible
      result of a block from 8X8 up pays for signalling NONE. */
  function NoneTried(c: Coder, pl: int, row: int, col: int, bsize: BlockSize, bestRd: int): (r: Tried)
    ensures r.outcome.Priced? && bsize >= BLOCK_8X8 ==> SummedAs(r.outcome.cost, r.parts, c, pl, PartitionNone)
    ensures r.outcome.Priced? && bsize < BLOCK_8X8 ==> r.parts == [r.outcome.cost] && AllFeasible(r.parts)
  {
    var m := SbModes(c, row, col, bsize, bestRd).cost;
    SumsSingle(m);
    if m.rate == INT_MAX then Tried(Rejected, [m])
    else Tried(Priced(if bsize >= BLOCK_8X8 then WithShapeCost(c, pl, m, PartitionNone) else m), [m])
  }

  function NoneStage(c: Coder, f: Features, pl: int, row: int, col: int, bsize: BlockSize,
                     al: Allowed, st: Stage): (r: (Stage, Tried))
    ensures Step(st, r.0, r.1.outcome, if bsize >= BLOCK_8X8 then PartitionNone else st.partitioning)
  {
    if !al.none then (st, Tried(Skipped, []))
    else
      var tr := NoneTried(c, pl, row, col, bsize, st.best.rdcost);
      if tr.outcome.Priced? && tr.outcome.cost.rdcost < st.best.rdcost then
        var brk := Breakout(f, bsize, tr.outcome.cost, SbModes(c, row, col, bsize, st.best.rdcost).skippable);
        (Stage(tr.outcome.cost, if bsize >= BLOCK_8X8 then PartitionNone else st.partitioning,
               st.doSplit && !brk, st.doRect && !brk), tr)
      else (st, tr)
  }

  /** HORZ or VERT: the first half under the whole budget; the second half,
      when the first came in under budget, lies in the frame and the block
      is above 8X8, under what is left. An infeasible second half makes the
      sum INT64_MAX. */
  function RectTried(c: Coder, pl: int, row: int, col: int, bsize: BlockSize, p: Partition, bestRd: int): (r: Tried)
    requires IsSquare(bsize) && bsize >= BLOCK_8X8 && p in {PartitionHorz, PartitionVert}
    ensures r.outcome.Priced? && bestRd <= INT64_MAX ==> SummedAs(r.outcome.cost, r.parts, c, pl, p)
  {
    var sub: BlockSize := if p == PartitionHorz then bsize - 1 else bsize - 2;
    var first := SbModes(c, row, col, sub, bestRd).cost;
    var row2 := if p == PartitionHorz then row + MiStep(bsize) else row;
    var col2 := if p == PartitionHorz then col else col + MiStep(bsize);
    if first.rdcost < bestRd && row2 < c.miRows && col2 < c.miCols && bsize > BLOCK_8X8 then
      var second := SbModes(c, row2, col2, sub, bestRd - first.rdcost).cost;
      TwoSummed(c, pl, p, first, second);
      var sum := if second.rate == INT_MAX then first.(rdcost := INT64_MAX) else Add(first, second);
      Decide(c, pl, sum, p, bestRd, [first, second])
    else
      OneSummed(c, pl, p, first);
      Decide(c, pl, first, p, bestRd, [first])
  }

  function RectStage(c: Coder, f: Features, pl: int, row: int, col: int, bsize: BlockSize,
                     al: Allowed, st: Stage, p: Partition): (r: (Stage, Tried))
    requires IsSquare(bsize) && p in {PartitionHorz, PartitionVert}
    ensures Step(st, r.0, r.1.outcome, p)
  {
    var allowed := if p == PartitionHorz then al.horz else al.vert;
    var edge := if p == PartitionHorz then f.activeHEdge(row, MiStep(bsize)) else f.activeVEdge(col, MiStep(bsize));
    if !(allowed && (st.doRect || edge)) || bsize < BLOCK_8X8 then (st, Tried(Skipped, []))
    else
      var tr := RectTried(c, pl, row, col, bsize, p, st.best.rdcost);
      (Consider(st, tr.outcome, p), tr)
  }

  /** The state of the SPLIT loop: the running sum, the loop index, the
      children as searched so far, and the child costs added. */
  datatype SplitRun = SplitRun(sum: RdCost, i: int, kids: seq<PcTree>, parts: seq<RdCost>)

  /** What SPLIT decides once its sum is known: priced when all four
      quarters were visited and the sum is under the best so far; otherwise
      less_rectangular_check drops the rectangles when NONE was allowed. */
  function FinishSplit(c: Coder, f: Features, pl: int, al: Allowed, st: Stage, run: SplitRun): (r: (Stage, Tried))
    ensures Step(st, r.0, r.1.outcome, PartitionSplit) && r.1.parts == run.parts
    ensures r.1.outcome.Priced? ==>
      run.i == 4 && run.sum.rdcost < st.best.rdcost && r.1.outcome.cost == WithShapeCost(c, pl, run.sum, PartitionSplit)
  {
    if run.sum.rdcost < st.best.rdcost && run.i == 4 then
      var fin := WithShapeCost(c, pl, run.sum, PartitionSplit);
      (Consider(st, Priced(fin), PartitionSplit), Tried(Priced(fin), run.parts))
    else
      (st.(doRect := st.doRect && !(f.lessRectangular && al.none)), Tried(Rejected, run.parts))
  }

  /** The whole search of one square block. */
  datatype Found = Found(cost: RdCost, tree: PcTree, tried: seq<Tried>, coded: seq<Coded>)

  /** rd_pick_partition on (row, col, bsize) with budget best_rd. The shapes
      are tried in the order NONE, SPLIT, HORZ, VERT; tried lists their
      outcomes in that order. A feasible result of a block that is not the
      last quarter of its parent is coded with encode_sb (coded). */
  function Pick(c: Coder, f: Features, row: int, col: int, bsize: BlockSize, budget: int, t: PcTree): (r: Found)
    requires Shaped(t, bsize)
    ensures Shaped(r.tree, bsize) && |r.tried| == 4 && r.tree.index == t.index
    decreases bsize, 4, t
  {
    var range := SizeRange(f, t, row, col, bsize);
    var al := AllowedShapes(c, f, row, col, bsize, range.0, range.1);
    var pl := c.planeContext(row, col, bsize);
    Shapes(c, f, pl, row, col, bsize, al, Stage(RdCost(INT_MAX, INT64_MAX, budget), t.partitioning, al.split, true), t)
  }

  /** The four shapes tried in turn from the stage st0 that carries the
      budget and the shape the block was given. */
  function Shapes(c: Coder, f: Features, pl: int, row: int, col: int, bsize: BlockSize,
                  al: Allowed, st0: Stage, t: PcTree): (r: Found)
    requires Shaped(t, bsize)
    ensures Shaped(r.tree, bsize) && |r.tried| == 4 && r.tree.index == t.index
    decreases bsize, 3, t
  {
    var s1 := NoneStage(c, f, pl, row, col, bsize, al, st0);
    var s2 := SplitStage(c, f, pl, row, col, bsize, al, s1.0, t.split);
    var s3 := RectStage(c, f, pl, row, col, bsize, al, s2.0, PartitionHorz);
    var s4 := RectStage(c, f, pl, row, col, bsize, al, s3.0, PartitionVert);
    var tree := PcTree(s4.0.partitioning, t.index, s2.2);
    var coded := if s4.0.best.rate < INT_MAX && s4.0.best.dist < INT64_MAX && t.index != 3
                 then EncodeSb(c, tree, row, col, bsize) else [];
    Found(s4.0.best, tree, [s1.1, s2.1, s3.1, s4.1], coded)
  }

  /** NONE prices its block as its one mode search, plus the cost of
      signalling NONE from 8X8 up. */
  lemma NoneStageSummed(c: Coder, f: Features, pl: int, row: int, col: int, bsize: BlockSize,
                        al: Allowed, st: Stage)
    ensures var r := NoneStage(c, f, pl, row, col, bsize, al, st).1;
      (r.outcome.Priced? && bsize >= BLOCK_8X8 ==> SummedAs(r.outcome.cost, r.parts, c, pl, PartitionNone)) &&
      (r.outcome.Priced? && bsize < BLOCK_8X8 ==> r.parts == [r.outcome.cost] && AllFeasible(r.parts))
  {
    if al.none {
      var tr := NoneTried(c, pl, row, col, bsize, st.best.rdcost);
      assert NoneStage(c, f, pl, row, col, bsize, al, st).1 == tr;
    }
  }

  /** From a best cost that fits in an int64, a priced rectangle costs its
      feasible halves plus its signalling cost. */
  lemma RectStageSummed(c: Coder, f: Features, pl: int, row: int, col: int, bsize: BlockSize,
                        al: Allowed, st: Stage, p: Partition)
    requires IsSquare(bsize) && p in {PartitionHorz, PartitionVert} && st.best.rdcost <= INT64_MAX
    ensures var r := RectStage(c, f, pl, row, col, bsize, al, st, p);
      r.1.outcome.Priced? ==> SummedAs(r.1.outcome.cost, r.1.parts, c, pl, p)
  {
  }

  /** Starting from a best cost that fits in an int64, every shape priced
      is made of feasible parts and costs their sum plus its signalling
      cost. */
  lemma ShapesSummed(c: Coder, f: Features, pl: int, row: int, col: int, bsize: BlockSize,
                     al: Allowed, st0: Stage, t: PcTree)
    requires Shaped(t, bsize) && st0.best.rdcost <= INT64_MAX
    ensures var r := Shapes(c, f, pl, row, col, bsize, al, st0, t);
      (r.tried[0].outcome.Priced? && bsize < BLOCK_8X8 ==>
         AllFeasible(r.tried[0].parts) && r.tried[0].parts == [r.tried[0].outcome.cost]) &&
      forall k :: (0 <= k < 4 && r.tried[k].outcome.Priced? && (k > 0 || bsize >= BLOCK_8X8)) ==>
         SummedAs(r.tried[k].outcome.cost, r.tried[k].parts, c, pl, ShapeOrder(bsize, st0.partitioning)[k])
  {
    var s1 := NoneStage(c, f, pl, row, col, bsize, al, st0);
    var s2 := SplitStage(c, f, pl, row, col, bsize, al, s1.0, t.split);
    var s3 := RectStage(c, f, pl, row, col, bsize, al, s2.0, PartitionHorz);
    var s4 := RectStage(c, f, pl, row, col, bsize, al, s3.0, PartitionVert);
    var r := Shapes(c, f, pl, row, col, bsize, al, st0, t);
    assert r.tried == [s1.1, s2.1, s3.1, s4.1];
    NoneStageSummed(c, f, pl, row, col, bsize, al, st0);
    SplitStageSummed(c, f, pl, row, col, bsize, al, s1.0, t.split);
    RectStageSummed(c, f, pl, row, col, bsize, al, s2.0, PartitionHorz);
    RectStageSummed(c, f, pl, row, col, bsize, al, s3.0, PartitionVert);
    var order := ShapeOrder(bsize, st0.partitioning);
    assert order[1] == PartitionSplit && order[2] == PartitionHorz && order[3] == PartitionVert;
    assert bsize >= BLOCK_8X8 ==> order[0] == PartitionNone;
  }

  /** PARTITION_SPLIT: an 8X8 block runs one sub-8x8 mode search; a larger
      block searches its in-frame quarters recursively. */
  function SplitStage(c: Coder, f: Features, pl: int, row: int, col: int, bsize: BlockSize,
                      al: Allowed, st: Stage, kids: seq<PcTree>): (r: (Stage, Tried, seq<PcTree>))
    requires IsSquare(bsize) && (bsize > BLOCK_8X8 ==> KidsShaped(kids, bsize - 3))
    ensures bsize > BLOCK_8X8 ==> KidsShaped(r.2, bsize - 3)
    ensures bsize <= BLOCK_8X8 ==> r.2 == kids
    ensures Step(st, r.0, r.1.outcome, PartitionSplit)
    decreases bsize, 2, kids
  {
    if !st.doSplit || bsize < BLOCK_8X8 then (st, Tried(Skipped, []), kids)
    else if bsize == BLOCK_8X8 then
      var s := SbModes(c, row, col, BLOCK_4X4, st.best.rdcost).cost;
      var fs := FinishSplit(c, f, pl, al, st, SplitRun(s, 4, kids, [s]));
      (fs.0, fs.1, kids)
    else
      var run := SplitLoop(c, f, row, col, bsize, st.best.rdcost, 0, Zero, kids, []);
      var fs := FinishSplit(c, f, pl, al, st, run);
      (fs.0, fs.1, run.kids)
  }

  /** Under a best cost that fits in an int64, a priced SPLIT is made of
      feasible quarters and costs their sum plus its signalling cost. */
  lemma SplitStageSummed(c: Coder, f: Features, pl: int, row: int, col: int, bsize: BlockSize,
                         al: Allowed, st: Stage, kids: seq<PcTree>)
    requires IsSquare(bsize) && (bsize > BLOCK_8X8 ==> KidsShaped(kids, bsize - 3))
    requires st.best.rdcost <= INT64_MAX
    ensures var r := SplitStage(c, f, pl, row, col, bsize, al, st, kids);
      r.1.outcome.Priced? ==> SummedAs(r.1.outcome.cost, r.1.parts, c, pl, PartitionSplit)
  {
    if !st.doSplit || bsize < BLOCK_8X8 {
    } else if bsize == BLOCK_8X8 {
      var s := SbModes(c, row, col, BLOCK_4X4, st.best.rdcost).cost;
      if s.rate != INT_MAX {
        SumsSingle(s);
        FinishSplitSums(c, f, pl, al, st, SplitRun(s, 4, kids, [s]));
      }
    } else {
      SplitLoopSummed(c, f, row, col, bsize, st.best.rdcost, 0, Zero, kids, []);
      FinishSplitSums(c, f, pl, al, st, SplitLoop(c, f, row, col, bsize, st.best.rdcost, 0, Zero, kids, []));
    }
  }

  /** A finished SPLIT loop whose quarters were all feasible prices the
      split as their sum plus the cost of signalling it. */
  lemma FinishSplitSums(c: Coder, f: Features, pl: int, al: Allowed, st: Stage, run: SplitRun)
    requires (AllFeasible(run.parts) && run.sum.rate == SumRates(run.parts) && run.sum.dist == SumDists(run.parts))
             || (run.i < 4 && run.sum.rdcost == INT64_MAX)
    ensures FinishSplit(c, f, pl, al, st, run).1.outcome.Priced? ==>
      SummedAs(FinishSplit(c, f, pl, al, st, run).1.outcome.cost, run.parts, c, pl, PartitionSplit)
  {
  }

  /** The loop over the four quarters: stops once the sum reaches the
      budget, skips quarters outside the frame, gives each searched quarter
      what is left of the budget, and stops with INT64_MAX at an infeasible
      quarter. */
  function SplitLoop(c: Coder, f: Features, row: int, col: int, bsize: BlockSize, bestRd: int,
                     i: int, sum: RdCost, kids: seq<PcTree>, parts: seq<RdCost>): (r: SplitRun)
    requires IsSquare(bsize) && bsize > BLOCK_8X8 && 0 <= i <= 4 && KidsShaped(kids, bsize - 3)
    ensures KidsShaped(r.kids, bsize - 3) && 0 <= r.i <= 4
    decreases bsize, 1, 4 - i, kids
  {
    if !(i < 4 && sum.rdcost < bestRd) then SplitRun(sum, i, kids, parts)
    else
      var q := SplitChild(c, f, row, col, bsize, bestRd, i, sum, kids);
      if q.None? then SplitLoop(c, f, row, col, bsize, bestRd, i + 1, sum, kids, parts)
      else
      var child := q.value;
      var kids' := kids[i := child.tree];
      if child.cost.rate == INT_MAX then SplitRun(sum.(rdcost := INT64_MAX), i, kids', parts + [child.cost])
      else SplitLoop(c, f, row, col, bsize, bestRd, i + 1, Add(sum, child.cost), kids', parts + [child.cost])
  }

  /** A loop that starts from a sum of feasible parts ends with one, unless
      it stopped early at an infeasible quarter with the sum INT64_MAX. */
  lemma {:induction false} SplitLoopSummed(c: Coder, f: Features, row: int, col: int, bsize: BlockSize, bestRd: int,
                                           i: int, sum: RdCost, kids: seq<PcTree>, parts: seq<RdCost>)
    requires IsSquare(bsize) && bsize > BLOCK_8X8 && 0 <= i <= 4 && KidsShaped(kids, bsize - 3)
    requires AllFeasible(parts) && sum.rate == SumRates(parts) && sum.dist == SumDists(parts)
    ensures var r := SplitLoop(c, f, row, col, bsize, bestRd, i, sum, kids, parts);
      (AllFeasible(r.parts) && r.sum.rate == SumRates(r.parts) && r.sum.dist == SumDists(r.parts)) ||
      (r.i < 4 && r.sum.rdcost == INT64_MAX)
    decreases 4 - i
  {
    if i < 4 && sum.rdcost < bestRd {
      var q := SplitChild(c, f, row, col, bsize, bestRd, i, sum, kids);
      if q.None? {
        SplitLoopSummed(c, f, row, col, bsize, bestRd, i + 1, sum, kids, parts);
      } else if q.value.cost.rate != INT_MAX {
        var child := q.value;
        SumsAppend(parts, child.cost);
        SplitLoopSummed(c, f, row, col, bsize, bestRd, i + 1, Add(sum, child.cost), kids[i := child.tree],
                        parts + [child.cost]);
      }
    }
  }

  /** Quarter i of the SPLIT loop: nothing when it lies outside the frame,
      otherwise its search under what is left of the budget. */
  function SplitChild(c: Coder, f: Features, row: int, col: int, bsize: BlockSize, bestRd: int,
                      i: int, sum: RdCost, kids: seq<PcTree>): (r: Option<Found>)
    requires IsSquare(bsize) && bsize > BLOCK_8X8 && 0 <= i < 4 && KidsShaped(kids, bsize - 3)
    ensures r.Some? <==> ChildRow(row, bsize, i) < c.miRows && ChildCol(col, bsize, i) < c.miCols
    ensures r.Some? ==> Shaped(r.value.tree, bsize - 3)
    ensures r.Some? ==> (KidShaped(kids, bsize - 3, i);
      r.value == Pick(c, f, ChildRow(row, bsize, i), ChildCol(col, bsize, i), bsize - 3,
                        bestRd - sum.rdcost, kids[i].(index := i)))
    decreases bsize, 0, kids
  {
    if ChildRow(row, bsize, i) >= c.miRows || ChildCol(col, bsize, i) >= c.miCols then None
    else Some(Pick(c, f, ChildRow(row, bsize, i), ChildCol(col, bsize, i), bsize - 3,
                   bestRd - sum.rdcost, kids[i].(index := i)))
  }

  // ---------------------------------------------------------------------
  // Which shape wins

  /** The shapes in the order the search tries them. */
  function ShapeOrder(bsize: BlockSize, current: Partition): seq<Partition>
  {
    [if bsize >= BLOCK_8X8 then PartitionNone else current, PartitionSplit, PartitionHorz, PartitionVert]
  }

  /** After the first n outcomes: the best RD cost so far and the index of
      the outcome that set it (-1 while none has beaten the budget). */
  function Lead(tried: seq<Tried>, budget: int, n: nat): (int, int)
    requires n <= |tried|
  {
    if n == 0 then (budget, -1)
    else
      var prev := Lead(tried, budget, n - 1);
      var o := tried[n - 1].outcome;
      if o.Priced? && o.cost.rdcost < prev.0 then (o.cost.rdcost, n - 1) else prev
  }

  /** The lead is the FIRST outcome with the least priced cost below the
      budget: it is priced below the budget, no priced outcome is cheaper,
      and every earlier priced outcome is dearer. With no such outcome the
      budget stands. */
  lemma {:induction false} LeadIsFirstMinimum(tried: seq<Tried>, budget: int, n: nat)
    requires n <= |tried|
    ensures var l := Lead(tried, budget, n);
      -1 <= l.1 < n &&
      (l.1 == -1 ==>
         l.0 == budget && forall k :: 0 <= k < n && tried[k].outcome.Priced? ==> tried[k].outcome.cost.rdcost >= budget) &&
      (l.1 >= 0 ==>
         tried[l.1].outcome.Priced? && l.0 == tried[l.1].outcome.cost.rdcost && l.0 < budget &&
         (forall k :: 0 <= k < n && tried[k].outcome.Priced? ==> l.0 <= tried[k].outcome.cost.rdcost) &&
         (forall k :: 0 <= k < l.1 && tried[k].outcome.Priced? ==> l.0 < tried[k].outcome.cost.rdcost))
  {
    if n > 0 {
      LeadIsFirstMinimum(tried, budget, n - 1);
    }
  }

  /** A chain of Steps ends where Lead says: at the start state while no
      outcome beat the budget, else at the lead outcome and its shape. */
  lemma {:induction false} StepsFollowLead(sts: seq<Stage>, tried: seq<Tried>, ps: seq<Partition>, n: nat)
    requires |sts| == |tried| + 1 && |ps| == |tried| && n <= |tried|
    requires forall k :: 0 <= k < |tried| ==> Step(sts[k], sts[k + 1], tried[k].outcome, ps[k])
    ensures var l := Lead(tried, sts[0].best.rdcost, n);
      sts[n].best.rdcost == l.0 &&
      (l.1 == -1 ==> sts[n].best == sts[0].best && sts[n].partitioning == sts[0].partitioning) &&
      (0 <= l.1 < n ==> tried[l.1].outcome.Priced? && sts[n].best == tried[l.1].outcome.cost && sts[n].partitioning == ps[l.1])
  {
    if n > 0 {
      StepsFollowLead(sts, tried, ps, n - 1);
      LeadIsFirstMinimum(tried, sts[0].best.rdcost, n - 1);
      assert Step(sts[n - 1], sts[n], tried[n - 1].outcome, ps[n - 1]);
    }
  }

  /** The search returns the lead of its four outcomes: the first
      cheapest priced shape below the budget, with the tree's shape set to
      it, or else the reset cost carrying the budget and the shape it was
      given. */
  lemma PickFollowsLead(c: Coder, f: Features, row: int, col: int, bsize: BlockSize, budget: int, t: PcTree)
    requires Shaped(t, bsize)
    ensures var r := Pick(c, f, row, col, bsize, budget, t);
      var l := Lead(r.tried, budget, 4);
      (l.1 == -1 ==> r.cost == RdCost(INT_MAX, INT64_MAX, budget) && r.tree.partitioning == t.partitioning) &&
      (0 <= l.1 < 4 ==>
         r.tried[l.1].outcome.Priced? && r.cost == r.tried[l.1].outcome.cost &&
         r.tree.partitioning == ShapeOrder(bsize, t.partitioning)[l.1])
  {
    var range := SizeRange(f, t, row, col, bsize);
    var al := AllowedShapes(c, f, row, col, bsize, range.0, range.1);
    var pl := c.planeContext(row, col, bsize);
    var st0 := Stage(RdCost(INT_MAX, INT64_MAX, budget), t.partitioning, al.split, true);
    var s1 := NoneStage(c, f, pl, row, col, bsize, al, st0);
    var s2 := SplitStage(c, f, pl, row, col, bsize, al, s1.0, t.split);
    var s3 := RectStage(c, f, pl, row, col, bsize, al, s2.0, PartitionHorz);
    var s4 := RectStage(c, f, pl, row, col, bsize, al, s3.0, PartitionVert);
    var r := Pick(c, f, row, col, bsize, budget, t);
    assert r == Shapes(c, f, pl, row, col, bsize, al, st0, t);
    assert r.cost == s4.0.best && r.tree.partitioning == s4.0.partitioning && r.tried == [s1.1, s2.1, s3.1, s4.1];
    StepsFollowLead([st0, s1.0, s2.0, s3.0, s4.0], r.tried, ShapeOrder(bsize, t.partitioning), 4);
  }

  /** The result never costs more than the budget. */
  lemma PickWithinBudget(c: Coder, f: Features, row: int, col: int, bsize: BlockSize, budget: int, t: PcTree)
    requires Shaped(t, bsize)
    ensures Pick(c, f, row, col, bsize, budget, t).cost.rdcost <= budget
  {
    var r := Pick(c, f, row, col, bsize, budget, t);
    PickFollowsLead(c, f, row, col, bsize, budget, t);
    LeadIsFirstMinimum(r.tried, budget, 4);
  }

  // ---------------------------------------------------------------------
  // What a priced shape costs

  /** Under a budget that fits in an int64, every shape the search priced
      is made of feasible parts and costs their sum plus its signalling
      cost (a sub-8x8 NONE is the mode search's own result). */
  lemma PickPricedSummed(c: Coder, f: Features, row: int, col: int, bsize: BlockSize, budget: int, t: PcTree)
    requires Shaped(t, bsize) && budget <= INT64_MAX
    ensures var r := Pick(c, f, row, col, bsize, budget, t);
      var pl := c.planeContext(row, col, bsize);
      (r.tried[0].outcome.Priced? && bsize < BLOCK_8X8 ==>
         AllFeasible(r.tried[0].parts) && r.tried[0].parts == [r.tried[0].outcome.cost]) &&
      forall k :: (0 <= k < 4 && r.tried[k].outcome.Priced? && (k > 0 || bsize >= BLOCK_8X8)) ==>
         SummedAs(r.tried[k].outcome.cost, r.tried[k].parts, c, pl, ShapeOrder(bsize, t.partitioning)[k])
  {
    var range := SizeRange(f, t, row, col, bsize);
    var al := AllowedShapes(c, f, row, col, bsize, range.0, range.1);
    var pl := c.planeContext(row, col, bsize);
    var st0 := Stage(RdCost(INT_MAX, INT64_MAX, budget), t.partitioning, al.split, true);
    assert Pick(c, f, row, col, bsize, budget, t) == Shapes(c, f, pl, row, col, bsize, al, st0, t);
    ShapesSummed(c, f, pl, row, col, bsize, al, st0, t);
  }

  /** Only a feasible result is coded, never the last quarter of a parent
      (its parent codes it), and the coded blocks lie inside the block,
      are pairwise disjoint, and each starts inside the frame. */
  lemma PickCodes(c: Coder, f: Features, row: int, col: int, bsize: BlockSize, budget: int, t: PcTree)
    requires Shaped(t, bsize) && row >= 0 && col >= 0
    ensures var r := Pick(c, f, row, col, bsize, budget, t);
      (r.coded != [] ==> r.cost.rate < INT_MAX && r.cost.dist < INT64_MAX && t.index != 3) &&
      Laid(r.coded, BlockArea(row, col, bsize)) && StartInFrame(c, r.coded)
  {
    EncodeSbLaid(c, Pick(c, f, row, col, bsize, budget, t).tree, row, col, bsize);
  }

  // ---------------------------------------------------------------------
  // The search as the encoder runs it

  /** rd_pick_partition: tries NONE, SPLIT, HORZ and VERT in turn, keeping
      the cheapest, and codes a feasible result unless the block is its
      parent's last quarter. */
  method RdPickPartition(c: Coder, f: Features, row: int, col: int, bsize: BlockSize, budget: int, t: PcTree)
    returns (r: Found)
    requires Shaped(t, bsize)
    ensures r == Search(c, f, row, col, bsize, budget, t)
    decreases bsize, 4
  {
    var range := SizeRange(f, t, row, col, bsize);
    var al := AllowedShapes(c, f, row, col, bsize, range.0, range.1);
    var pl := c.planeContext(row, col, bsize);
    var st0 := Stage(RdCost(INT_MAX, INT64_MAX, budget), t.partitioning, al.split, true);
    var st1, none := TryNone(c, f, pl, row, col, bsize, al, st0);
    var st2, split, kids := SplitSearch(c, f, pl, row, col, bsize, al, st1, t.split);
    var st3, horz := TryRect(c, f, pl, row, col, bsize, al, st2, PartitionHorz);
    var st4, vert := TryRect(c, f, pl, row, col, bsize, al, st3, PartitionVert);

    var tree := PcTree(st4.partitioning, t.index, kids);
    var coded := [];
    if st4.best.rate < INT_MAX && st4.best.dist < INT64_MAX && t.index != 3 {
      coded := EncodeSb(c, tree, row, col, bsize);
    }
    r := Found(st4.best, tree, [none, split, horz, vert], coded);
    assert r == Shapes(c, f, pl, row, col, bsize, al, st0, t);
  }

  /** The PARTITION_NONE stage: the whole block under the running best; a
      new best that is cheap and skippable ends the search early by
      clearing do_split and do_rect. */
  method TryNone(c: Coder, f: Features, pl: int, row: int, col: int, bsize: BlockSize, al: Allowed, st: Stage)
    returns (st': Stage, tr: Tried)
    ensures (st', tr) == NoneStage(c, f, pl, row, col, bsize, al, st)
  {
    st', tr := st, Tried(Skipped, []);
    if al.none {
      tr := NoneTried(c, pl, row, col, bsize, st.best.rdcost);
      if tr.outcome.Priced? && tr.outcome.cost.rdcost < st.best.rdcost {
        st' := st'.(best := tr.outcome.cost);
        if bsize >= BLOCK_8X8 {
          st' := st'.(partitioning := PartitionNone);
        }
        if Breakout(f, bsize, tr.outcome.cost, SbModes(c, row, col, bsize, st.best.rdcost).skippable) {
          st' := st'.(doSplit := false, doRect := false);
        }
      }
    }
  }

  /** A state of the SPLIT loop over the quarters of a block of size bsize. */
  predicate LoopState(bsize: BlockSize, a: SplitRun)
  {
    IsSquare(bsize) && bsize > BLOCK_8X8 && 0 <= a.i <= 4 && KidsShaped(a.kids, bsize - 3)
  }

  /** Where the SPLIT loop run on from state a ends. */
  function LoopEnd(c: Coder, f: Features, row: int, col: int, bsize: BlockSize, bestRd: int, a: SplitRun): SplitRun
    requires LoopState(bsize, a)
  {
    SplitLoop(c, f, row, col, bsize, bestRd, a.i, a.sum, a.kids, a.parts)
  }

  /** The PARTITION_SPLIT stage: the loop over the four quarters, each
      searched recursively under what is left of the budget. */
  method SplitSearch(c: Coder, f: Features, pl: int, row: int, col: int, bsize: BlockSize,
                     al: Allowed, st: Stage, kids: seq<PcTree>)
    returns (st': Stage, tr: Tried, kids': seq<PcTree>)
    requires IsSquare(bsize) && (bsize > BLOCK_8X8 ==> KidsShaped(kids, bsize - 3))
    ensures (st', tr, kids') == SplitStage(c, f, pl, row, col, bsize, al, st, kids)
    decreases bsize, 3
  {
    if !st.doSplit || bsize < BLOCK_8X8 {
      return st, Tried(Skipped, []), kids;
    }
    var run;
    if bsize == BLOCK_8X8 {
      var s := SbModes(c, row, col, BLOCK_4X4, st.best.rdcost).cost;
      run := SplitRun(s, 4, kids, [s]);
    } else {
      var bestRd := st.best.rdcost;
      var sum := Zero;
      var i := 0;
      var ks := kids;
      var parts := [];
      var stopped := false;
      while !stopped && i < 4 && sum.rdcost < bestRd
        invariant 0 <= i <= 4 && KidsShaped(ks, bsize - 3)
        invariant !stopped ==> (LoopEnd(c, f, row, col, bsize, bestRd, SplitRun(sum, i, ks, parts))
          == LoopEnd(c, f, row, col, bsize, bestRd, SplitRun(Zero, 0, kids, [])))
        invariant stopped ==> (SplitRun(sum, i, ks, parts)
          == LoopEnd(c, f, row, col, bsize, bestRd, SplitRun(Zero, 0, kids, [])))
        decreases 4 - i, if stopped then 0 else 1
      {
        sum, i, ks, parts, stopped := SplitQuarter(c, f, row, col, bsize, bestRd, i, sum, ks, parts);
      }
      run := SplitRun(sum, i, ks, parts);
    }
    var fs := FinishSplit(c, f, pl, al, st, run);
    st', tr := fs.0, fs.1;
    kids' := if bsize == BLOCK_8X8 then kids else run.kids;
  }

  /** One pass of the SPLIT loop: quarter i is skipped when it lies
      outside the frame, otherwise searched under what is left of the
      budget; an infeasible quarter stops the loop. */
  method SplitQuarter(c: Coder, f: Features, row: int, col: int, bsize: BlockSize, bestRd: int,
                      i: int, sum: RdCost, kids: seq<PcTree>, parts: seq<RdCost>)
    returns (sum': RdCost, i': int, kids': seq<PcTree>, parts': seq<RdCost>, stopped: bool)
    requires IsSquare(bsize) && bsize > BLOCK_8X8 && 0 <= i < 4 && KidsShaped(kids, bsize - 3)
    requires sum.rdcost < bestRd
    ensures i <= i' <= 4 && KidsShaped(kids', bsize - 3) && (stopped || i < i')
    ensures !stopped ==> (LoopEnd(c, f, row, col, bsize, bestRd, SplitRun(sum', i', kids', parts'))
      == LoopEnd(c, f, row, col, bsize, bestRd, SplitRun(sum, i, kids, parts)))
    ensures stopped ==> (SplitRun(sum', i', kids', parts')
      == LoopEnd(c, f, row, col, bsize, bestRd, SplitRun(sum, i, kids, parts)))
    decreases bsize, 2
  {
    KidShaped(kids, bsize - 3, i);
    var q := PickChild(c, f, ChildRow(row, bsize, i), ChildCol(col, bsize, i), bsize - 3,
                       bestRd - sum.rdcost, kids[i].(index := i));
    sum', i', kids', parts', stopped := TakeQuarter(c, f, row, col, bsize, bestRd, i, sum, kids, parts, q);
  }

  /** Adds quarter i's outcome q to the SPLIT loop state: a quarter outside
      the frame (None) is skipped; a searched one records its tree and cost,
      and an infeasible one stops the loop with the sum INT64_MAX. The state
      it leaves is one turn of SplitLoop. */
  method TakeQuarter(c: Coder, f: Features, row: int, col: int, bsize: BlockSize, bestRd: int,
                     i: int, sum: RdCost, kids: seq<PcTree>, parts: seq<RdCost>, q: Option<Found>)
    returns (sum': RdCost, i': int, kids': seq<PcTree>, parts': seq<RdCost>, stopped: bool)
    requires IsSquare(bsize) && bsize > BLOCK_8X8 && 0 <= i < 4 && KidsShaped(kids, bsize - 3)
    requires sum.rdcost < bestRd && Shaped(kids[i].(index := i), bsize - 3)
    requires q.Some? <==> ChildRow(row, bsize, i) < c.miRows && ChildCol(col, bsize, i) < c.miCols
    requires q.Some? ==> q.value == Search(c, f, ChildRow(row, bsize, i), ChildCol(col, bsize, i), bsize - 3,
                                           bestRd - sum.rdcost, kids[i].(index := i))
    ensures i <= i' <= 4 && KidsShaped(kids', bsize - 3) && (stopped || i < i')
    ensures !stopped ==> (LoopEnd(c, f, row, col, bsize, bestRd, SplitRun(sum', i', kids', parts'))
      == LoopEnd(c, f, row, col, bsize, bestRd, SplitRun(sum, i, kids, parts)))
    ensures stopped ==> (SplitRun(sum', i', kids', parts')
      == LoopEnd(c, f, row, col, bsize, bestRd, SplitRun(sum, i, kids, parts)))
  {
    SplitLoopUnfold(c, f, row, col, bsize, bestRd, i, sum, kids, parts, q);
    sum', i', kids', parts', stopped := sum, i + 1, kids, parts, false;
    if q.Some? {
      var child := q.value;
      kids' := kids[i := child.tree];
      parts' := parts + [child.cost];
      if child.cost.rate == INT_MAX {
        sum', i', stopped := sum.(rdcost := INT64_MAX), i, true;
      } else {
        sum' := Add(sum, child.cost);
      }
    }
  }

  /** One turn of SplitLoop, given the outcome of its quarter. */
  lemma SplitLoopUnfold(c: Coder, f: Features, row: int, col: int, bsize: BlockSize, bestRd: int,
                        i: int, sum: RdCost, kids: seq<PcTree>, parts: seq<RdCost>, q: Option<Found>)
    requires IsSquare(bsize) && bsize > BLOCK_8X8 && 0 <= i < 4 && KidsShaped(kids, bsize - 3)
    requires sum.rdcost < bestRd && Shaped(kids[i].(index := i), bsize - 3)
    requires q.Some? <==> ChildRow(row, bsize, i) < c.miRows && ChildCol(col, bsize, i) < c.miCols
    requires q.Some? ==> q.value == Search(c, f, ChildRow(row, bsize, i), ChildCol(col, bsize, i), bsize - 3,
                                  bestRd - sum.rdcost, kids[i].(index := i))
    ensures q.Some? ==> Shaped(q.value.tree, bsize - 3) && KidsShaped(kids[i := q.value.tree], bsize - 3)
    ensures q.None? ==> (LoopEnd(c, f, row, col, bsize, bestRd, SplitRun(sum, i, kids, parts))
      == LoopEnd(c, f, row, col, bsize, bestRd, SplitRun(sum, i + 1, kids, parts)))
    ensures q.Some? && q.value.cost.rate == INT_MAX ==>
      LoopEnd(c, f, row, col, bsize, bestRd, SplitRun(sum, i, kids, parts))
      == SplitRun(sum.(rdcost := INT64_MAX), i, kids[i := q.value.tree], parts + [q.value.cost])
    ensures q.Some? && q.value.cost.rate != INT_MAX ==>
      LoopEnd(c, f, row, col, bsize, bestRd, SplitRun(sum, i, kids, parts))
      == LoopEnd(c, f, row, col, bsize, bestRd,
                 SplitRun(Add(sum, q.value.cost), i + 1, kids[i := q.value.tree], parts + [q.value.cost]))
    decreases bsize, 0
  {
    PickedChild(c, f, row, col, bsize, bestRd, i, sum, kids, q);
  }

  /** A quarter searched by PickChild is the quarter's outcome in SplitLoop. */
  lemma PickedChild(c: Coder, f: Features, row: int, col: int, bsize: BlockSize, bestRd: int,
                    i: int, sum: RdCost, kids: seq<PcTree>, q: Option<Found>)
    requires IsSquare(bsize) && bsize > BLOCK_8X8 && 0 <= i < 4 && KidsShaped(kids, bsize - 3)
    requires q.Some? <==> ChildRow(row, bsize, i) < c.miRows && ChildCol(col, bsize, i) < c.miCols
    requires Shaped(kids[i].(index := i), bsize - 3)
    requires q.Some? ==> q.value == Search(c, f, ChildRow(row, bsize, i), ChildCol(col, bsize, i), bsize - 3,
                                  bestRd - sum.rdcost, kids[i].(index := i))
    ensures q == SplitChild(c, f, row, col, bsize, bestRd, i, sum, kids)
  {
  }

  /** The outcome of the search of block (row, col, bsize) under the given
      budget, named apart from Pick so that the contracts that cite it
      unfold the recursive search only once. */
  function Search(c: Coder, f: Features, row: int, col: int, bsize: BlockSize, budget: int, t: PcTree): Found
    requires Shaped(t, bsize)
  {
    Pick(c, f, row, col, bsize, budget, t)
  }

  /** Searches a quarter of the SPLIT loop, at (row, col) and of size
      sub, when it lies inside the frame. */
  method PickChild(c: Coder, f: Features, row: int, col: int, sub: BlockSize, budget: int, kid: PcTree)
    returns (q: Option<Found>)
    requires Shaped(kid, sub) && sub < BLOCK_64X64
    ensures q.Some? <==> row < c.miRows && col < c.miCols
    ensures q.Some? ==> q.value == Search(c, f, row, col, sub, budget, kid)
    decreases sub + 3, 0
  {
    if row >= c.miRows || col >= c.miCols {
      return None;
    }
    var child := RdPickPartition(c, f, row, col, sub, budget, kid);
    q := Some(child);
  }

  /** The PARTITION_HORZ or PARTITION_VERT stage: both halves priced under
      the running best, the second only when the first left room. */
  method TryRect(c: Coder, f: Features, pl: int, row: int, col: int, bsize: BlockSize,
                 al: Allowed, st: Stage, p: Partition)
    returns (st': Stage, tr: Tried)
    requires IsSquare(bsize) && p in {PartitionHorz, PartitionVert}
    ensures (st', tr) == RectStage(c, f, pl, row, col, bsize, al, st, p)
  {
    st', tr := st, Tried(Skipped, []);
    var allowed := if p == PartitionHorz then al.horz else al.vert;
    var edge := if p == PartitionHorz then f.activeHEdge(row, MiStep(bsize)) else f.activeVEdge(col, MiStep(bsize));
    if !allowed || !(st.doRect || edge) || bsize < BLOCK_8X8 {
      return;
    }
    var sub: BlockSize := if p == PartitionHorz then bsize - 1 else bsize - 2;
    var sum := SbModes(c, row, col, sub, st.best.rdcost).cost;
    var parts := [sum];
    var row2 := if p == PartitionHorz then row + MiStep(bsize) else row;
    var col2 := if p == PartitionHorz then col else col + MiStep(bsize);
    if sum.rdcost < st.best.rdcost && row2 < c.miRows && col2 < c.miCols && bsize > BLOCK_8X8 {
      var second := SbModes(c, row2, col2, sub, st.best.rdcost - sum.rdcost).cost;
      parts := parts + [second];
      assert parts == [sum, second];
      if second.rate == INT_MAX {
        sum := sum.(rdcost := INT64_MAX);
      } else {
        sum := Add(sum, second);
      }
    }
    if sum.rdcost < st.best.rdcost {
      var fin := WithShapeCost(c, pl, sum, p);
      tr := Tried(Priced(fin), parts);
      if fin.rdcost < st.best.rdcost {
        st' := st.(best := fin, partitioning := p);
      }
    } else {
      tr := Tried(Rejected, parts);
    }
  }
}
