// rd_use_partition: re-uses the partitioning left in the mode-info grid
// (the last frame's, or a fixed one) and, when the speed feature asks for
// it, compares it against coding the block whole and against one level of
// splitting, keeping the cheapest.

module RdUse {
  import opened Blocks
  import opened RdCommon

  /** The grid the search starts from: whether a cell holds a record, and
      the block size recorded there; adjust is
      sf.adjust_partitioning_from_last_frame under SEARCH_PARTITION. */
  datatype LastFrame = LastFrame(adjust: bool, present: (int, int) -> bool, sbType: (int, int) -> BlockSize)

  /** mi_step of rd_use_partition: num_4x4_blocks_wide / 2, the whole block
      in mi units; the quarters lie mi_step >> 1 apart. */
  function UseStep(bsize: BlockSize): int
  {
    Num4x4Wide(bsize) / 2
  }

  function UseHalf(bsize: BlockSize): int
  {
    UseStep(bsize) / 2
  }

  function QRow(row: int, bsize: BlockSize, i: int): int
  {
    row + (if i < 2 then 0 else UseHalf(bsize))
  }

  function QCol(col: int, bsize: BlockSize, i: int): int
  {
    col + (if i % 2 == 0 then 0 else UseHalf(bsize))
  }

  /** The grid offset bss = (1 << bsl) / 4 that locates a quarter's cell is
      the quarter's offset mi_step >> 1, and both are half the block's
      width in mi units; so reading the grid at a quarter's position is
      reading it through the quarter's own mi_8x8 pointer. */
  lemma QuarterOffsetsAgree(bsize: BlockSize)
    requires IsSquare(bsize) && bsize >= BLOCK_8X8
    ensures UseHalf(bsize) == HalfStep(bsize)
    ensures 2 * UseHalf(bsize) == Num8x8Wide(bsize) || (bsize == BLOCK_8X8 && UseHalf(bsize) == 0)
    ensures UseStep(bsize) == Num8x8Wide(bsize) || (bsize == BLOCK_8X8 && UseStep(bsize) == 1)
  {
    assert bsize == 3 || bsize == 6 || bsize == 9 || bsize == 12;
  }

  /** A result rd_use_partition treats as a failure. */
  predicate Bad(x: RdCost)
  {
    x.rate == INT_MAX || x.dist == INT64_MAX
  }

  /** One of the three costs compared at the end: cost is the value the
      comparison sees, parts what was summed, priced whether the cost of
      signalling the shape was added and the RD cost recomputed. */
  datatype Candidate = Candidate(cost: RdCost, parts: seq<RdCost>, signal: seq<int>, priced: bool)

  const NotTried := Candidate(Reset, [], [], false)

  function Total(xs: seq<int>): int
  {
    if |xs| == 0 then 0 else Total(xs[..|xs| - 1]) + xs[|xs| - 1]
  }

  lemma TotalAppend(xs: seq<int>, x: int)
    ensures Total(xs + [x]) == Total(xs) + x
  {
    assert (xs + [x])[..|xs|] == xs;
  }

  /** Prices a summed cost whose rate is below INT_MAX. */
  function Price(c: Coder, pl: int, raw: RdCost, parts: seq<RdCost>, p: Partition): (r: Candidate)
    requires AllFeasible(parts) && raw.rate == SumRates(parts) && raw.dist == SumDists(parts)
    ensures r.priced <==> raw.rate < INT_MAX
    ensures r.priced ==> SummedAs(r.cost, r.parts, c, pl, p)
    ensures !r.priced ==> r.cost == raw
  {
    if raw.rate < INT_MAX then Candidate(WithShapeCost(c, pl, raw, p), parts, [], true)
    else Candidate(raw, parts, [], false)
  }

  /** An unusable sum: it stays unpriced and its RD cost is INT64_MAX. */
  function Unpriced(raw: RdCost, parts: seq<RdCost>): (r: Candidate)
    requires raw.rdcost == INT64_MAX && (raw.rate == INT_MAX || !AllFeasible(parts))
    ensures !r.priced && r.cost.rdcost == INT64_MAX
  {
    Candidate(raw, parts, [], false)
  }

  /** Whether the grid shows every quarter of a SPLIT block split again:
      no quarter's top-left cell holds a block of the quarter's own
      quarter size or larger. */
  predicate SplitsBelow(g: LastFrame, row: int, col: int, bsize: BlockSize, p: Partition)
    requires IsSquare(bsize) && bsize >= BLOCK_8X8
  {
    p == PartitionSplit && bsize - 3 > BLOCK_8X8 &&
    forall k :: 0 <= k < 4 ==>
      !(g.present(QRow(row, bsize, k), QCol(col, bsize, k)) && g.sbType(QRow(row, bsize, k), QCol(col, bsize, k)) >= bsize - 6)
  }

  /** none_rdc: the whole block without a budget, tried when the grid's
      shape is not NONE, its quarters are not all split again, and the
      block's centre lies in the frame. */
  function NoneCandidate(c: Coder, g: LastFrame, row: int, col: int, bsize: BlockSize, p: Partition, pl: int): (r: Candidate)
    requires IsSquare(bsize) && bsize >= BLOCK_8X8
    ensures r.priced ==> SummedAs(r.cost, r.parts, c, pl, PartitionNone)
    ensures !AllFeasible(r.parts) ==> !r.priced && r.cost.rdcost == INT64_MAX
    ensures r.signal == []
  {
    if g.adjust && p != PartitionNone && !SplitsBelow(g, row, col, bsize, p) &&
       row + UseHalf(bsize) < c.miRows && col + UseHalf(bsize) < c.miCols then
      var m := SbModes(c, row, col, bsize, INT64_MAX).cost;
      SumsSingle(m);
      if m.rate == INT_MAX then Unpriced(m, [m]) else Price(c, pl, m, [m], PartitionNone)
    else NotTried
  }

  /** The search of one block. */
  datatype Used = Used(cost: RdCost, tree: PcTree, none: Candidate, last: Candidate, trial: Candidate,
                       lastWon: bool, coded: seq<Coded>)

  /** rd_use_partition on (row, col, bsize). Outside the frame nothing is
      searched and the caller's zeroed outputs stand. Otherwise the shape
      is looked up from the grid's size at the block, priced as last_part
      (NONE, the two halves, or the quarters searched recursively), and
      compared with none_rdc and the one-level split trial; lastWon says
      whether the grid's size at the block was overwritten with bsize. */
  function Use(c: Coder, g: LastFrame, row: int, col: int, bsize: BlockSize, doRecon: bool, t: PcTree): (r: Used)
    requires IsSquare(bsize) && bsize >= BLOCK_8X8 && Shaped(t, bsize)
    ensures Shaped(r.tree, bsize) && r.tree.index == t.index
    decreases bsize, 4, t
  {
    if row >= c.miRows || col >= c.miCols then Used(Zero, t, NotTried, NotTried, NotTried, false, [])
    else
      var p := PartitionLookup(BWidthLog2(bsize), g.sbType(row, col));
      var pl := c.planeContext(row, col, bsize);
      var none := NoneCandidate(c, g, row, col, bsize, p, pl);
      var lr := LastPart(c, g, row, col, bsize, p, pl, t.split);
      var trialRun := TrialRuns(c, g, row, col, bsize, p);
      var tr := if trialRun then SplitTrial(c, row, col, bsize, pl, lr.1) else (NotTried, lr.1);
      var lastWon := lr.0.cost.rdcost < tr.0.cost.rdcost;
      var chosen := if lastWon then lr.0.cost else tr.0.cost;
      var shape := if lastWon then p else if trialRun then PartitionSplit else p;
      var noneWon := none.cost.rdcost < chosen.rdcost;
      var tree := PcTree(if noneWon then PartitionNone else shape, t.index, tr.1);
      Used(if noneWon then none.cost else chosen, tree, none, lr.0, tr.0, lastWon,
           if doRecon then EncodeSb(c, tree, row, col, bsize) else [])
  }

  /** last_part_rdc: the grid's own shape. HORZ and VERT price the second
      half at mi_step >> 1 when the first is feasible and the half starts
      in the frame; SPLIT of an 8X8 block is one sub-8x8 search; an
      invalid shape leaves the reset cost. */
  function LastPart(c: Coder, g: LastFrame, row: int, col: int, bsize: BlockSize, p: Partition, pl: int,
                    kids: seq<PcTree>): (r: (Candidate, seq<PcTree>))
    requires IsSquare(bsize) && bsize >= BLOCK_8X8 && (bsize > BLOCK_8X8 ==> KidsShaped(kids, bsize - 3))
    ensures bsize > BLOCK_8X8 ==> KidsShaped(r.1, bsize - 3)
    ensures bsize == BLOCK_8X8 ==> r.1 == kids
    ensures r.0.priced ==> SummedAs(r.0.cost, r.0.parts, c, pl, p)
    ensures !AllFeasible(r.0.parts) ==> !r.0.priced && r.0.cost.rdcost == INT64_MAX
    decreases bsize, 3, kids
  {
    match p
    case PartitionNone =>
      var m := SbModes(c, row, col, bsize, INT64_MAX).cost;
      SumsSingle(m);
      (if m.rate == INT_MAX then Unpriced(m, [m]) else Price(c, pl, m, [m], p), kids)
    case PartitionHorz =>
      (HalvesPart(c, row, col, bsize - 1, row + UseHalf(bsize), col, pl, p), kids)
    case PartitionVert =>
      (HalvesPart(c, row, col, bsize - 2, row, col + UseHalf(bsize), pl, p), kids)
    case PartitionSplit =>
      if bsize == BLOCK_8X8 then
        var m := SbModes(c, row, col, BLOCK_4X4, INT64_MAX).cost;
        SumsSingle(m);
        (if m.rate == INT_MAX then Unpriced(m, [m]) else Price(c, pl, m, [m], p), kids)
      else
        var run := Quarters(c, g, row, col, bsize, kids, 4);
        (if run.sum == Reset then Unpriced(run.sum, run.parts) else Price(c, pl, run.sum, run.parts, p), run.kids)
    case PartitionInvalid =>
      (Unpriced(Reset, []), kids)
  }

  /** Two halves of size sub, the second at (row2, col2); a failed second
      half resets the sum. */
  function HalvesPart(c: Coder, row: int, col: int, sub: BlockSize, row2: int, col2: int, pl: int, p: Partition): (r: Candidate)
    ensures r.priced ==> SummedAs(r.cost, r.parts, c, pl, p)
    ensures !AllFeasible(r.parts) ==> !r.priced && r.cost.rdcost == INT64_MAX
  {
    var first := SbModes(c, row, col, sub, INT64_MAX).cost;
    SumsSingle(first);
    if first.rate == INT_MAX then Unpriced(first, [first])
    else if row2 < c.miRows && col2 < c.miCols then
      var second := SbModes(c, row2, col2, sub, INT64_MAX).cost;
      SumsPair(first, second);
      if Bad(second) then Unpriced(Reset, [first, second])
      else Price(c, pl, Add(first, second), [first, second], p)
    else Price(c, pl, first, [first], p)
  }

  /** The search of quarter i of a SPLIT block (recursive, and coded
      unless it is the last quarter), or None when the quarter starts
      outside the frame. */
  function QuarterSearch(c: Coder, g: LastFrame, row: int, col: int, bsize: BlockSize,
                         kids: seq<PcTree>, i: int): (r: Option<Used>)
    requires IsSquare(bsize) && bsize > BLOCK_8X8 && 0 <= i < 4 && KidsShaped(kids, bsize - 3)
    ensures r.Some? ==> Shaped(r.value.tree, bsize - 3)
    decreases bsize, 0, kids
  {
    if QRow(row, bsize, i) >= c.miRows || QCol(col, bsize, i) >= c.miCols then None
    else Some(Use(c, g, QRow(row, bsize, i), QCol(col, bsize, i), bsize - 3, i != 3, kids[i]))
  }

  /** The state of the loop over the SPLIT quarters of last_part: the
      summed rate and distortion, the tree's nodes, the parts summed so
      far, and whether a failed quarter has ended the loop. */
  datatype QuarterRun = QuarterRun(sum: RdCost, kids: seq<PcTree>, parts: seq<RdCost>, stopped: bool)

  /** The sum holds the parts' rates and distortions, every part feasible. */
  predicate SumsParts(sum: RdCost, parts: seq<RdCost>)
  {
    AllFeasible(parts) && sum.rate == SumRates(parts) && sum.dist == SumDists(parts)
  }

  /** A searched quarter joins the sum: its tree replaces node i, and a
      failure resets the sum and ends the loop. Only rates and distortions
      are summed. */
  function AddQuarter(sub: BlockSize, run: QuarterRun, i: int, child: Used): (r: QuarterRun)
    requires 0 <= i < 4 && KidsShaped(run.kids, sub) && Shaped(child.tree, sub)
    ensures KidsShaped(r.kids, sub) && r.parts == run.parts + [child.cost]
    ensures SumsParts(run.sum, run.parts) ==>
      (r.stopped && r.sum == Reset) || (!r.stopped && SumsParts(r.sum, r.parts))
  {
    SumsAppend(run.parts, child.cost);
    var kids := run.kids[i := child.tree];
    if Bad(child.cost) then QuarterRun(Reset, kids, run.parts + [child.cost], true)
    else QuarterRun(RdCost(run.sum.rate + child.cost.rate, run.sum.dist + child.cost.dist, run.sum.rdcost),
                    kids, run.parts + [child.cost], false)
  }

  /** Quarter i of the loop: nothing once the loop has ended, nothing for
      an out-of-frame quarter, else the quarter's search joins the sum. A
      quarter's search reads only its own position and its node of the
      tree the loop started from, never the running sum. */
  function QuarterStep(c: Coder, g: LastFrame, row: int, col: int, bsize: BlockSize, tree: seq<PcTree>, run: QuarterRun, i: int): (r: QuarterRun)
    requires IsSquare(bsize) && bsize > BLOCK_8X8 && 0 <= i < 4
    requires KidsShaped(tree, bsize - 3) && KidsShaped(run.kids, bsize - 3)
    ensures KidsShaped(r.kids, bsize - 3)
    ensures !run.stopped && SumsParts(run.sum, run.parts) ==>
      (r.stopped && r.sum == Reset) || (!r.stopped && SumsParts(r.sum, r.parts))
    ensures run.stopped ==> r == run
    decreases bsize, 1, tree
  {
    if run.stopped then run
    else match QuarterSearch(c, g, row, col, bsize, tree, i)
      case None => run
      case Some(child) => AddQuarter(bsize - 3, run, i, child)
  }

  /** The loop after quarters 0 .. n-1, from the zeroed sum and the tree's
      own nodes: the sum is either the reset cost, with the loop ended, or
      exactly its parts. */
  function Quarters(c: Coder, g: LastFrame, row: int, col: int, bsize: BlockSize, tree: seq<PcTree>, n: int): (r: QuarterRun)
    requires IsSquare(bsize) && bsize > BLOCK_8X8 && KidsShaped(tree, bsize - 3) && 0 <= n <= 4
    ensures KidsShaped(r.kids, bsize - 3)
    ensures (r.stopped && r.sum == Reset) || (!r.stopped && SumsParts(r.sum, r.parts))
    decreases bsize, 2, n, tree
  {
    if n == 0 then QuarterRun(Zero, tree, [], false)
    else QuarterStep(c, g, row, col, bsize, tree, Quarters(c, g, row, col, bsize, tree, n - 1), n - 1)
  }

  /** The break: once a failed quarter has ended the loop, the later
      quarters change nothing. */
  lemma {:induction false} QuartersStopped(c: Coder, g: LastFrame, row: int, col: int, bsize: BlockSize, tree: seq<PcTree>, i: int, n: int)
    requires IsSquare(bsize) && bsize > BLOCK_8X8 && KidsShaped(tree, bsize - 3) && 0 <= i <= n <= 4
    requires Quarters(c, g, row, col, bsize, tree, i).stopped
    ensures Quarters(c, g, row, col, bsize, tree, n) == Quarters(c, g, row, col, bsize, tree, i)
  {
    if n > i {
      QuartersStopped(c, g, row, col, bsize, tree, i, n - 1);
    }
  }

  /** Whether the one-level split is tried: the grid's shape is not SPLIT,
      the block is above 8X8, and each of its bottom and right edges lies
      inside the frame or exactly on a half-block boundary at the frame
      edge. */
  predicate TrialRuns(c: Coder, g: LastFrame, row: int, col: int, bsize: BlockSize, p: Partition)
  {
    g.adjust && p != PartitionSplit && bsize > BLOCK_8X8 &&
    (row + UseStep(bsize) < c.miRows || row + UseHalf(bsize) == c.miRows) &&
    (col + UseStep(bsize) < c.miCols || col + UseHalf(bsize) == c.miCols)
  }

  /** chosen_rdc of the trial: each in-frame quarter coded whole (its shape
      set to NONE) without a budget, paying for signalling NONE in its own
      context; a failed quarter resets the sum; the total pays for SPLIT. */
  function SplitTrial(c: Coder, row: int, col: int, bsize: BlockSize, pl: int, kids: seq<PcTree>): (r: (Candidate, seq<PcTree>))
    requires IsSquare(bsize) && bsize > BLOCK_8X8 && KidsShaped(kids, bsize - 3)
    ensures KidsShaped(r.1, bsize - 3)
    ensures r.0.priced ==>
      AllFeasible(r.0.parts) && r.0.cost.dist == SumDists(r.0.parts) &&
      r.0.cost.rate == SumRates(r.0.parts) + Total(r.0.signal) + c.partitionCost(pl, PartitionSplit) &&
      r.0.cost.rdcost == c.rdCost(r.0.cost.rate, r.0.cost.dist)
    ensures !AllFeasible(r.0.parts) ==> !r.0.priced && r.0.cost.rdcost == INT64_MAX
  {
    PriceTrial(c, pl, Trials(c, row, col, bsize, kids, 4))
  }

  /** The trial's total pays for SPLIT when its rate is below INT_MAX. */
  function PriceTrial(c: Coder, pl: int, run: TrialRun): (r: (Candidate, seq<PcTree>))
    ensures r.1 == run.kids && r.0.parts == run.parts && r.0.signal == run.signal
    ensures r.0.priced <==> run.sum.rate < INT_MAX
    ensures r.0.priced ==>
      r.0.cost.dist == run.sum.dist && r.0.cost.rate == run.sum.rate + c.partitionCost(pl, PartitionSplit) &&
      r.0.cost.rdcost == c.rdCost(r.0.cost.rate, r.0.cost.dist)
    ensures !r.0.priced ==> r.0.cost == run.sum
  {
    if run.sum.rate < INT_MAX then
      var rate := run.sum.rate + c.partitionCost(pl, PartitionSplit);
      (Candidate(RdCost(rate, run.sum.dist, c.rdCost(rate, run.sum.dist)), run.parts, run.signal, true), run.kids)
    else (Candidate(run.sum, run.parts, run.signal, false), run.kids)
  }

  /** The state of the trial's loop; signal holds the cost of signalling
      NONE paid for each quarter. */
  datatype TrialRun = TrialRun(sum: RdCost, kids: seq<PcTree>, parts: seq<RdCost>, signal: seq<int>, stopped: bool)

  /** The trial's sum holds the parts and the signalling costs, every part
      feasible. */
  predicate TrialSums(sum: RdCost, parts: seq<RdCost>, signal: seq<int>)
  {
    AllFeasible(parts) && sum.rate == SumRates(parts) + Total(signal) && sum.dist == SumDists(parts)
  }

  /** Quarter i of the trial. Once the loop has ended nothing changes; an
      out-of-frame quarter is skipped; otherwise the quarter's node is set
      to NONE and the quarter coded whole, and a failure resets the sum and
      ends the loop. */
  function TrialStep(c: Coder, row: int, col: int, bsize: BlockSize, run: TrialRun, i: int): (r: TrialRun)
    requires IsSquare(bsize) && bsize > BLOCK_8X8 && 0 <= i < 4 && KidsShaped(run.kids, bsize - 3)
    ensures KidsShaped(r.kids, bsize - 3)
    ensures run.sum.rdcost == INT64_MAX ==> r.sum.rdcost == INT64_MAX
    ensures !run.stopped && TrialSums(run.sum, run.parts, run.signal) ==>
      (r.stopped && r.sum == Reset) || (!r.stopped && TrialSums(r.sum, r.parts, r.signal))
    ensures run.stopped ==> r == run
  {
    if run.stopped || QRow(row, bsize, i) >= c.miRows || QCol(col, bsize, i) >= c.miCols then run
    else
      var kids' := run.kids[i := run.kids[i].(partitioning := PartitionNone)];
      var tmp := SbModes(c, QRow(row, bsize, i), QCol(col, bsize, i), bsize - 3, INT64_MAX).cost;
      SumsAppend(run.parts, tmp);
      if Bad(tmp) then TrialRun(Reset, kids', run.parts + [tmp], run.signal, true)
      else
        var pc := c.partitionCost(c.planeContext(QRow(row, bsize, i), QCol(col, bsize, i), bsize - 3), PartitionNone);
        TotalAppend(run.signal, pc);
        TrialRun(RdCost(run.sum.rate + tmp.rate + pc, run.sum.dist + tmp.dist, run.sum.rdcost),
                 kids', run.parts + [tmp], run.signal + [pc], false)
  }

  /** The trial after quarters 0 .. n-1, from a zero rate and distortion:
      the sum is the reset cost or exactly its parts and signalling costs,
      and an infeasible part has reset it and ended the loop. */
  function Trials(c: Coder, row: int, col: int, bsize: BlockSize, kids: seq<PcTree>, n: int): (r: TrialRun)
    requires IsSquare(bsize) && bsize > BLOCK_8X8 && KidsShaped(kids, bsize - 3) && 0 <= n <= 4
    ensures KidsShaped(r.kids, bsize - 3) && r.sum.rdcost == INT64_MAX
    ensures (r.stopped && r.sum == Reset) || (!r.stopped && TrialSums(r.sum, r.parts, r.signal))
  {
    if n == 0 then TrialRun(RdCost(0, 0, INT64_MAX), kids, [], [], false)
    else TrialStep(c, row, col, bsize, Trials(c, row, col, bsize, kids, n - 1), n - 1)
  }

  /** The trial's break: once a quarter has failed, the later quarters
      change nothing. */
  lemma {:induction false} TrialsStopped(c: Coder, row: int, col: int, bsize: BlockSize, kids: seq<PcTree>, i: int, n: int)
    requires IsSquare(bsize) && bsize > BLOCK_8X8 && KidsShaped(kids, bsize - 3) && 0 <= i <= n <= 4
    requires Trials(c, row, col, bsize, kids, i).stopped
    ensures Trials(c, row, col, bsize, kids, n) == Trials(c, row, col, bsize, kids, i)
  {
    if n > i {
      TrialsStopped(c, row, col, bsize, kids, i, n - 1);
    }
  }

  // ---------------------------------------------------------------------
  // Properties

  /** The replacement rule: the result is the cheapest of the split trial,
      last_part and none_rdc; last_part replaces the trial only when
      strictly cheaper, and none_rdc replaces either only when strictly
      cheaper, so ties keep the trial, then last_part. The tree's shape
      follows the winner. */
  lemma UseSelects(c: Coder, g: LastFrame, row: int, col: int, bsize: BlockSize, doRecon: bool, t: PcTree)
    requires IsSquare(bsize) && bsize >= BLOCK_8X8 && Shaped(t, bsize)
    requires row < c.miRows && col < c.miCols
    ensures var r := Use(c, g, row, col, bsize, doRecon, t);
      var p := PartitionLookup(BWidthLog2(bsize), g.sbType(row, col));
      var lt := Min(r.trial.cost.rdcost, r.last.cost.rdcost);
      r.cost.rdcost == Min(lt, r.none.cost.rdcost) &&
      (r.lastWon <==> r.last.cost.rdcost < r.trial.cost.rdcost) &&
      (r.none.cost.rdcost < lt ==> r.cost == r.none.cost && r.tree.partitioning == PartitionNone) &&
      (r.none.cost.rdcost >= lt && r.lastWon ==> r.cost == r.last.cost && r.tree.partitioning == p) &&
      (r.none.cost.rdcost >= lt && !r.lastWon ==>
         r.cost == r.trial.cost &&
         r.tree.partitioning == (if TrialRuns(c, g, row, col, bsize, p) then PartitionSplit else p)) &&
      (!TrialRuns(c, g, row, col, bsize, p) ==> r.trial == NotTried)
  {
  }

  /** Any candidate with a failed part costs INT64_MAX and so never beats
      a candidate with a finite RD cost. */
  lemma UseFailedPartsLose(c: Coder, g: LastFrame, row: int, col: int, bsize: BlockSize, doRecon: bool, t: PcTree)
    requires IsSquare(bsize) && bsize >= BLOCK_8X8 && Shaped(t, bsize)
    requires row < c.miRows && col < c.miCols
    ensures var r := Use(c, g, row, col, bsize, doRecon, t);
      (!AllFeasible(r.none.parts) ==> r.none.cost.rdcost == INT64_MAX) &&
      (!AllFeasible(r.last.parts) ==> r.last.cost.rdcost == INT64_MAX) &&
      (!AllFeasible(r.trial.parts) ==> r.trial.cost.rdcost == INT64_MAX) &&
      (r.cost.rdcost < INT64_MAX ==>
         (r.cost == r.none.cost && AllFeasible(r.none.parts)) ||
         (r.cost == r.last.cost && AllFeasible(r.last.parts)) ||
         (r.cost == r.trial.cost && AllFeasible(r.trial.parts)))
  {
    UseSelects(c, g, row, col, bsize, doRecon, t);
  }

  /** The block's own closing encode_sb runs only when it is asked to
      reconstruct, and what it codes lies inside the block, is pairwise
      disjoint, and each coded block starts inside the frame. */
  lemma UseCodes(c: Coder, g: LastFrame, row: int, col: int, bsize: BlockSize, doRecon: bool, t: PcTree)
    requires IsSquare(bsize) && bsize >= BLOCK_8X8 && Shaped(t, bsize) && row >= 0 && col >= 0
    ensures var r := Use(c, g, row, col, bsize, doRecon, t);
      (!doRecon ==> r.coded == []) &&
      Laid(r.coded, BlockArea(row, col, bsize)) && StartInFrame(c, r.coded)
  {
    EncodeSbLaid(c, Use(c, g, row, col, bsize, doRecon, t).tree, row, col, bsize);
  }

  // ---------------------------------------------------------------------
  // The search as the encoder runs it

  /** rd_use_partition: prices the grid's shape, tries NONE and the
      one-level split when allowed, keeps the cheapest and reconstructs the
      block when asked to. */
  method RdUsePartition(c: Coder, g: LastFrame, row: int, col: int, bsize: BlockSize, doRecon: bool, t: PcTree)
    returns (r: Used)
    requires IsSquare(bsize) && bsize >= BLOCK_8X8 && Shaped(t, bsize)
    ensures r == Use(c, g, row, col, bsize, doRecon, t)
    decreases bsize, 4
  {
    if row >= c.miRows || col >= c.miCols {
      return Used(Zero, t, NotTried, NotTried, NotTried, false, []);
    }
    var p := PartitionLookup(BWidthLog2(bsize), g.sbType(row, col));
    var pl := c.planeContext(row, col, bsize);
    var none := NoneCandidate(c, g, row, col, bsize, p, pl);
    var last, kids := LastPartSearch(c, g, row, col, bsize, p, pl, t.split);

    var trial := NotTried;
    var partitioning := p;
    var trialRun := TrialRuns(c, g, row, col, bsize, p);
    if trialRun {
      trial, kids := SplitTrialSearch(c, row, col, bsize, pl, kids);
      partitioning := PartitionSplit;
    }
    var chosen := trial.cost;
    var lastWon := false;
    if last.cost.rdcost < chosen.rdcost {
      partitioning := p;
      chosen := last.cost;
      lastWon := true;
    }
    if none.cost.rdcost < chosen.rdcost {
      partitioning := PartitionNone;
      chosen := none.cost;
    }
    var tree := PcTree(partitioning, t.index, kids);
    var coded := [];
    if doRecon {
      coded := EncodeSb(c, tree, row, col, bsize);
    }
    r := Used(chosen, tree, none, last, trial, lastWon, coded);
  }

  /** The switch on the grid's shape that prices last_part. */
  method LastPartSearch(c: Coder, g: LastFrame, row: int, col: int, bsize: BlockSize, p: Partition, pl: int,
                        kids: seq<PcTree>)
    returns (last: Candidate, kids': seq<PcTree>)
    requires IsSquare(bsize) && bsize >= BLOCK_8X8 && (bsize > BLOCK_8X8 ==> KidsShaped(kids, bsize - 3))
    ensures (last, kids') == LastPart(c, g, row, col, bsize, p, pl, kids)
    decreases bsize, 3
  {
    kids' := kids;
    match p {
      case PartitionNone =>
        var m := SbModes(c, row, col, bsize, INT64_MAX).cost;
        SumsSingle(m);
        last := if m.rate == INT_MAX then Unpriced(m, [m]) else Price(c, pl, m, [m], p);
      case PartitionHorz =>
        last := HalvesPart(c, row, col, bsize - 1, row + UseHalf(bsize), col, pl, p);
      case PartitionVert =>
        last := HalvesPart(c, row, col, bsize - 2, row, col + UseHalf(bsize), pl, p);
      case PartitionSplit =>
        if bsize == BLOCK_8X8 {
          var m := SbModes(c, row, col, BLOCK_4X4, INT64_MAX).cost;
          SumsSingle(m);
          last := if m.rate == INT_MAX then Unpriced(m, [m]) else Price(c, pl, m, [m], p);
        } else {
          var run := QuartersSearch(c, g, row, col, bsize, kids);
          kids' := run.kids;
          last := if run.sum == Reset then Unpriced(run.sum, run.parts) else Price(c, pl, run.sum, run.parts, p);
        }
      case PartitionInvalid =>
        last := Unpriced(Reset, []);
    }
  }

  /** The loop over the SPLIT quarters of last_part; a failed quarter
      ends it. */
  method QuartersSearch(c: Coder, g: LastFrame, row: int, col: int, bsize: BlockSize, tree: seq<PcTree>)
    returns (run: QuarterRun)
    requires IsSquare(bsize) && bsize > BLOCK_8X8 && KidsShaped(tree, bsize - 3)
    ensures run == Quarters(c, g, row, col, bsize, tree, 4)
    decreases bsize, 2
  {
    run := QuarterRun(Zero, tree, [], false);
    var i := 0;
    while i < 4 && !run.stopped
      invariant 0 <= i <= 4 && run == Quarters(c, g, row, col, bsize, tree, i)
    {
      run := QuarterTurn(c, g, row, col, bsize, tree, i, run);
      i := i + 1;
    }
    if i < 4 {
      QuartersStopped(c, g, row, col, bsize, tree, i, 4);
    }
  }

  /** One pass of the loop over the SPLIT quarters: quarter i searched,
      and its outcome joined to the sum of the quarters before it. */
  method QuarterTurn(c: Coder, g: LastFrame, row: int, col: int, bsize: BlockSize, tree: seq<PcTree>, i: int, run: QuarterRun)
    returns (run': QuarterRun)
    requires IsSquare(bsize) && bsize > BLOCK_8X8 && KidsShaped(tree, bsize - 3) && 0 <= i < 4
    requires run == Quarters(c, g, row, col, bsize, tree, i) && !run.stopped
    ensures run' == Quarters(c, g, row, col, bsize, tree, i + 1)
    decreases bsize, 1
  {
    var q := SearchQuarter(c, g, row, col, bsize, tree, i);
    run' := run;
    if q.Some? {
      run' := AddQuarter(bsize - 3, run, i, q.value);
    }
  }

  /** Quarter i searched recursively when it starts in the frame; the last
      quarter is not reconstructed. */
  method SearchQuarter(c: Coder, g: LastFrame, row: int, col: int, bsize: BlockSize, kids: seq<PcTree>, i: int)
    returns (q: Option<Used>)
    requires IsSquare(bsize) && bsize > BLOCK_8X8 && 0 <= i < 4 && KidsShaped(kids, bsize - 3)
    ensures q == QuarterSearch(c, g, row, col, bsize, kids, i)
    decreases bsize, 0
  {
    q := None;
    if QRow(row, bsize, i) < c.miRows && QCol(col, bsize, i) < c.miCols {
      var child := RdUsePartition(c, g, QRow(row, bsize, i), QCol(col, bsize, i), bsize - 3, i != 3, kids[i]);
      q := Some(child);
    }
  }

  /** One pass of the trial loop: an in-frame quarter is set to NONE and
      coded whole; a failed quarter resets the sum and stops the loop. */
  method TrialQuarter(c: Coder, row: int, col: int, bsize: BlockSize, i: int, run: TrialRun)
    returns (run': TrialRun)
    requires IsSquare(bsize) && bsize > BLOCK_8X8 && 0 <= i < 4 && KidsShaped(run.kids, bsize - 3) && !run.stopped
    ensures run' == TrialStep(c, row, col, bsize, run, i)
  {
    run' := run;
    if QRow(row, bsize, i) < c.miRows && QCol(col, bsize, i) < c.miCols {
      var kids := run.kids[i := run.kids[i].(partitioning := PartitionNone)];
      var tmp := SbModes(c, QRow(row, bsize, i), QCol(col, bsize, i), bsize - 3, INT64_MAX).cost;
      if Bad(tmp) {
        run' := TrialRun(Reset, kids, run.parts + [tmp], run.signal, true);
      } else {
        var pc := c.partitionCost(c.planeContext(QRow(row, bsize, i), QCol(col, bsize, i), bsize - 3), PartitionNone);
        run' := TrialRun(RdCost(run.sum.rate + tmp.rate + pc, run.sum.dist + tmp.dist, run.sum.rdcost),
                         kids, run.parts + [tmp], run.signal + [pc], false);
      }
    }
  }

  /** The one-level split trial: each in-frame quarter coded whole. */
  method SplitTrialSearch(c: Coder, row: int, col: int, bsize: BlockSize, pl: int, kids: seq<PcTree>)
    returns (trial: Candidate, kids': seq<PcTree>)
    requires IsSquare(bsize) && bsize > BLOCK_8X8 && KidsShaped(kids, bsize - 3)
    ensures (trial, kids') == SplitTrial(c, row, col, bsize, pl, kids)
  {
    var run := TrialRun(RdCost(0, 0, INT64_MAX), kids, [], [], false);
    var i := 0;
    while i < 4 && !run.stopped
      invariant 0 <= i <= 4 && run == Trials(c, row, col, bsize, kids, i)
    {
      run := TrialQuarter(c, row, col, bsize, i, run);
      i := i + 1;
    }
    if i < 4 {
      TrialsStopped(c, row, col, bsize, kids, i, 4);
    }
    trial, kids' := PriceTrial(c, pl, run).0, run.kids;
  }

}
