// The frame's mode-info grid: cm->mi (one record per 8x8 cell position) and
// cm->mi_grid_visible (one pointer per cell). A pointer is modelled as the
// index of the record it points at, -1 for NULL, so two cells sharing one
// record hold the same index.

module ModeInfoGrid {
  import opened Blocks

  datatype Mv = Mv(row: int, col: int)

  const NONE_FRAME: int := -1
  const INTRA_FRAME: int := 0
  const LAST_FRAME: int := 1
  const GOLDEN_FRAME: int := 2
  const ALTREF_FRAME: int := 3

  /** Interpolation filters; SWITCHABLE means chosen per block. */
  const EIGHTTAP: int := 0
  const EIGHTTAP_SMOOTH: int := 1
  const EIGHTTAP_SHARP: int := 2
  const BILINEAR: int := 3
  const SWITCHABLE: int := 4

  /** The MB_MODE_INFO fields the partition and commit code read or write.
      subMv0/subMv1 are the motion vectors of the last 4x4 sub-block
      (bmi[3]) of a block below 8X8. */
  datatype ModeInfo = ModeInfo(sbType: BlockSize, txSize: TxSize, refFrame0: int, refFrame1: int,
                               mv0: Mv, mv1: Mv, interpFilter: int, skip: bool, segmentId: int,
                               subMv0: Mv, subMv1: Mv)

  /** is_inter_block */
  predicate IsInter(m: ModeInfo) { m.refFrame0 > INTRA_FRAME }

  /** One entry of the frame's motion-vector field (MV_REF). */
  datatype MvRef = MvRef(refFrame0: int, refFrame1: int, mv0: Mv, mv1: Mv)

  /** Frame size in 8x8 units and the grid's row stride. The grid is
      allocated with a border of one superblock (MI_BLOCK_SIZE cells) to the
      right of and below the frame, which the partial-superblock writers of
      set_fixed_partitioning reach. */
  datatype Dims = Dims(miRows: int, miCols: int, miStride: int)

  predicate ValidDims(d: Dims) { 0 < d.miRows && 0 < d.miCols && d.miCols + MI_BLOCK_SIZE <= d.miStride }

  function AllocRows(d: Dims): int { d.miRows + MI_BLOCK_SIZE }

  predicate InFrame(d: Dims, row: int, col: int) { 0 <= row < d.miRows && 0 <= col < d.miCols }

  /** A cell of the allocated grid, the frame or its border. */
  predicate InAlloc(d: Dims, row: int, col: int) { 0 <= row < AllocRows(d) && 0 <= col < d.miStride }

  function Index(d: Dims, row: int, col: int): int { row * d.miStride + col }

  lemma MulMonotone(a: int, b: int, s: int)
    requires a <= b && s >= 0
    ensures a * s <= b * s
  {
    assert b * s - a * s == (b - a) * s;
  }

  lemma RowBelow(r: int, rows: int, s: int)
    requires 0 <= r < rows && s > 0
    ensures r * s + s <= rows * s
  {
    MulMonotone(r + 1, rows, s);
    assert (r + 1) * s == r * s + s;
  }

  lemma IndexInRange(d: Dims, row: int, col: int)
    requires ValidDims(d) && InAlloc(d, row, col)
    ensures 0 <= Index(d, row, col) < AllocRows(d) * d.miStride
  {
    RowBelow(row, AllocRows(d), d.miStride);
    MulMonotone(0, row, d.miStride);
  }

  lemma SmallMultiple(k: int, s: int)
    requires s > 0 && -s < k * s < s
    ensures k == 0
  {
  }

  lemma RowsEqual(r1: int, r2: int, c1: int, c2: int, s: int)
    requires 0 <= c1 < s && 0 <= c2 < s && r1 * s + c1 == r2 * s + c2
    ensures r1 == r2 && c1 == c2
  {
    assert (r1 - r2) * s == r1 * s - r2 * s;
    SmallMultiple(r1 - r2, s);
  }

  /** Distinct cells of the grid have distinct indices. */
  lemma IndexInjective(d: Dims, r1: int, c1: int, r2: int, c2: int)
    requires ValidDims(d) && InAlloc(d, r1, c1) && InAlloc(d, r2, c2)
    requires Index(d, r1, c1) == Index(d, r2, c2)
    ensures r1 == r2 && c1 == c2
  {
    RowsEqual(r1, r2, c1, c2, d.miStride);
  }

  /** The grid as values: cell pointers and records. */
  datatype GridState = GridState(cells: seq<int>, recs: seq<ModeInfo>)

  predicate WellFormed(d: Dims, s: GridState)
  {
    ValidDims(d) && |s.cells| == AllocRows(d) * d.miStride && |s.recs| == AllocRows(d) * d.miStride
  }

  /** TileInfo: the rows [miRowStart, miRowEnd) and columns
      [miColStart, miColEnd) of the frame a tile covers. */
  datatype Tile = Tile(miRowStart: int, miRowEnd: int, miColStart: int, miColEnd: int)

  predicate TileIn(d: Dims, t: Tile)
  {
    0 <= t.miRowStart < t.miRowEnd <= d.miRows && 0 <= t.miColStart < t.miColEnd <= d.miCols
  }

  /** A block of the given size whose top-left cell is (row, col). */
  datatype Placement = Placement(row: int, col: int, size: BlockSize)

  /** Point a cell at its own record and set that record's size. */
  function Mark(d: Dims, s: GridState, p: Placement): (r: GridState)
    requires WellFormed(d, s) && InAlloc(d, p.row, p.col)
    ensures WellFormed(d, r)
  {
    IndexInRange(d, p.row, p.col);
    var i := Index(d, p.row, p.col);
    GridState(s.cells[i := i], s.recs[i := s.recs[i].(sbType := p.size)])
  }

  /** set_block_size on values: only a cell inside the frame is marked
      (the callers never pass a negative position). */
  function SetSize(d: Dims, s: GridState, p: Placement): (r: GridState)
    requires WellFormed(d, s)
    ensures WellFormed(d, r)
  {
    if InFrame(d, p.row, p.col) then Mark(d, s, p) else s
  }

  /** A sequence of set_block_size calls, in order. */
  function PlaceAll(d: Dims, s: GridState, ps: seq<Placement>): (r: GridState)
    requires WellFormed(d, s)
    ensures WellFormed(d, r)
    decreases |ps|
  {
    if |ps| == 0 then s else PlaceAll(d, SetSize(d, s, ps[0]), ps[1..])
  }

  lemma {:induction false} PlaceAllConcat(d: Dims, s: GridState, a: seq<Placement>, b: seq<Placement>)
    requires WellFormed(d, s)
    ensures PlaceAll(d, s, a + b) == PlaceAll(d, PlaceAll(d, s, a), b)
    decreases |a|
  {
    if |a| == 0 {
      assert a + b == b;
    } else {
      assert (a + b)[1..] == a[1..] + b;
      PlaceAllConcat(d, SetSize(d, s, a[0]), a[1..], b);
    }
  }

  /** The placements of several blocks, one list after another. */
  function Flatten(xs: seq<seq<Placement>>): (r: seq<Placement>)
    decreases |xs|
  {
    if |xs| == 0 then [] else Flatten(xs[..|xs| - 1]) + xs[|xs| - 1]
  }

  lemma FlattenSnoc(xs: seq<seq<Placement>>, k: int)
    requires 0 <= k < |xs|
    ensures Flatten(xs[..k + 1]) == Flatten(xs[..k]) + xs[k]
  {
    assert xs[..k + 1][..k] == xs[..k];
  }

  /** Placing one more list after a prefix of lists places the longer prefix. */
  lemma PlacePrefixStep(d: Dims, s0: GridState, xs: seq<seq<Placement>>, k: int, mid: GridState)
    requires WellFormed(d, s0) && 0 <= k < |xs|
    requires mid == PlaceAll(d, s0, Flatten(xs[..k]))
    ensures PlaceAll(d, mid, xs[k]) == PlaceAll(d, s0, Flatten(xs[..k + 1]))
  {
    FlattenSnoc(xs, k);
    PlaceAllConcat(d, s0, Flatten(xs[..k]), xs[k]);
  }

  /** Placement p lies inside the square of `span` cells whose top-left
      cell is (row, col), and its size is between lo and hi. */
  predicate Good(p: Placement, row: int, col: int, span: int, lo: int, hi: int)
  {
    row <= p.row && col <= p.col && lo <= p.size <= hi
    && p.row + Num8x8High(p.size) <= row + span && p.col + Num8x8Wide(p.size) <= col + span
  }

  predicate AllGood(ps: seq<Placement>, row: int, col: int, span: int, lo: int, hi: int)
  {
    forall i :: 0 <= i < |ps| ==> Good(ps[i], row, col, span, lo, hi)
  }

  lemma {:induction false} FlattenGood(xs: seq<seq<Placement>>, row: int, col: int, span: int, lo: int, hi: int)
    requires forall k :: 0 <= k < |xs| ==> AllGood(xs[k], row, col, span, lo, hi)
    ensures AllGood(Flatten(xs), row, col, span, lo, hi)
    decreases |xs|
  {
    if |xs| > 0 {
      var init := xs[..|xs| - 1];
      FlattenGood(init, row, col, span, lo, hi);
      var l := Flatten(init);
      var r := Flatten(xs);
      assert r == l + xs[|xs| - 1];
      forall i | 0 <= i < |r|
        ensures Good(r[i], row, col, span, lo, hi)
      {
        if i >= |l| {
          assert r[i] == xs[|xs| - 1][i - |l|];
        }
      }
    }
  }

  /** Placements inside a sub-square with a smaller size bound are good
      for the enclosing square. */
  lemma GoodWithin(ps: seq<Placement>, r: int, c: int, span: int, row: int, col: int, bigSpan: int,
                   lo: int, hi: int, bigHi: int)
    requires AllGood(ps, r, c, span, lo, hi)
    requires row <= r && col <= c && r + span <= row + bigSpan && c + span <= col + bigSpan && hi <= bigHi
    ensures AllGood(ps, row, col, bigSpan, lo, bigHi)
  {
  }

  /** The segment id set_offsets writes: 0 with segmentation off; with it
      on, the segmentation map's id for the block, except under VARIANCE_AQ,
      which leaves the record's id alone (None). */
  function SegmentWrite(segEnabled: bool, varianceAq: bool, mapId: int): Option<int>
  {
    if !segEnabled then Some(0) else if varianceAq then None else Some(mapId)
  }

  /** set_offsets' writes to the grid for the block at (row, col): the cell
      points at its own record (set_mode_info_offsets), and that record's
      segment id becomes `segment` when one is given. */
  function Offsets(d: Dims, s: GridState, row: int, col: int, segment: Option<int>): (r: GridState)
    requires WellFormed(d, s) && InAlloc(d, row, col)
    ensures WellFormed(d, r)
  {
    IndexInRange(d, row, col);
    var i := Index(d, row, col);
    var m := s.recs[i];
    GridState(s.cells[i := i], s.recs[i := if segment.Some? then m.(segmentId := segment.value) else m])
  }

  /** set_offsets touches one cell and one record: afterwards the block's
      cell points at its own record, which differs from before at most in
      its segment id, and every other cell and record is as it was. */
  lemma OffsetsLocal(d: Dims, s: GridState, row: int, col: int, segment: Option<int>)
    requires WellFormed(d, s) && InFrame(d, row, col)
    ensures var r := Offsets(d, s, row, col, segment);
      CellOf(d, r, row, col) == Index(d, row, col)
      && RecordAt(d, r, row, col).(segmentId := 0) == RecordAt(d, s, row, col).(segmentId := 0)
      && RecordAt(d, r, row, col).segmentId
         == (if segment.Some? then segment.value else RecordAt(d, s, row, col).segmentId)
      && forall j :: 0 <= j < |s.cells| && j != Index(d, row, col) ==>
           r.cells[j] == s.cells[j] && r.recs[j] == s.recs[j]
  {
  }

  /** The placements change nothing in a record but its size. */
  lemma {:induction false} PlaceAllOnlySizes(d: Dims, s: GridState, ps: seq<Placement>, j: int)
    requires WellFormed(d, s) && 0 <= j < |s.recs|
    ensures PlaceAll(d, s, ps).recs[j].(sbType := BLOCK_4X4) == s.recs[j].(sbType := BLOCK_4X4)
    decreases |ps|
  {
    if |ps| > 0 {
      PlaceAllOnlySizes(d, SetSize(d, s, ps[0]), ps[1..], j);
    }
  }

  /** The placements point a cell at its own record or leave it alone, so
      a cell that points at its own record keeps doing so. */
  lemma {:induction false} PlaceAllPointsHome(d: Dims, s: GridState, ps: seq<Placement>, j: int)
    requires WellFormed(d, s) && 0 <= j < |s.cells|
    ensures PlaceAll(d, s, ps).cells[j] == s.cells[j] || PlaceAll(d, s, ps).cells[j] == j
    decreases |ps|
  {
    if |ps| > 0 {
      PlaceAllPointsHome(d, SetSize(d, s, ps[0]), ps[1..], j);
    }
  }

  /** The record index a cell inside the frame holds (its grid pointer). */
  function CellOf(d: Dims, s: GridState, row: int, col: int): int
    requires WellFormed(d, s) && InFrame(d, row, col)
  {
    IndexInRange(d, row, col);
    s.cells[Index(d, row, col)]
  }

  /** The record stored at a cell's own position in cm->mi. */
  function RecordAt(d: Dims, s: GridState, row: int, col: int): ModeInfo
    requires WellFormed(d, s) && InFrame(d, row, col)
  {
    IndexInRange(d, row, col);
    s.recs[Index(d, row, col)]
  }

  /** The grid itself: cm->mi (records), cm->mi_grid_visible (cells) and the
      current frame's motion-vector field (mi_rows x mi_cols entries). */
  class Grid {
    const dims: Dims
    const cells: array<int>
    const records: array<ModeInfo>
    const frameMvs: array<MvRef>

    ghost predicate Valid()
      reads this
    {
      ValidDims(dims)
      && cells.Length == AllocRows(dims) * dims.miStride
      && records.Length == AllocRows(dims) * dims.miStride
      && frameMvs.Length == dims.miRows * dims.miCols
    }

    ghost function State(): (s: GridState)
      reads this, cells, records
      requires Valid()
      ensures WellFormed(dims, s)
    {
      GridState(cells[..], records[..])
    }

    /** A cleared grid: every cell NULL, every record and MV entry `blank`. */
    constructor (d: Dims, blank: ModeInfo, blankMv: MvRef)
      requires ValidDims(d)
      ensures Valid() && dims == d
      ensures forall i :: 0 <= i < cells.Length ==> cells[i] == -1
      ensures fresh(cells) && fresh(records) && fresh(frameMvs)
    {
      dims := d;
      cells := new int[AllocRows(d) * d.miStride](_ => -1);
      records := new ModeInfo[AllocRows(d) * d.miStride](_ => blank);
      frameMvs := new MvRef[d.miRows * d.miCols](_ => blankMv);
    }
  }

  /** `mi_8x8[index] = mi + index; mi_8x8[index]->mbmi.sb_type = size`:
      the writers of set_fixed_partitioning, which may reach the border. */
  method MarkCell(g: Grid, row: int, col: int, size: BlockSize)
    requires g.Valid() && InAlloc(g.dims, row, col)
    modifies g.cells, g.records
    ensures g.State() == Mark(g.dims, old(g.State()), Placement(row, col, size))
  {
    IndexInRange(g.dims, row, col);
    var idx := Index(g.dims, row, col);
    g.cells[idx] := idx;
    g.records[idx] := g.records[idx].(sbType := size);
  }

  /** set_offsets, its grid writes. */
  method SetOffsets(g: Grid, row: int, col: int, segment: Option<int>)
    requires g.Valid() && InAlloc(g.dims, row, col)
    modifies g.cells, g.records
    ensures g.State() == Offsets(g.dims, old(g.State()), row, col, segment)
  {
    IndexInRange(g.dims, row, col);
    var idx := Index(g.dims, row, col);
    g.cells[idx] := idx;
    if segment.Some? {
      g.records[idx] := g.records[idx].(segmentId := segment.value);
    }
  }

  /** set_block_size */
  method SetBlockSize(g: Grid, row: int, col: int, bsize: BlockSize)
    requires g.Valid() && row >= 0 && col >= 0
    modifies g.cells, g.records
    ensures g.State() == SetSize(g.dims, old(g.State()), Placement(row, col, bsize))
  {
    if g.dims.miCols > col && g.dims.miRows > row {
      IndexInRange(g.dims, row, col);
      var idx := Index(g.dims, row, col);
      g.cells[idx] := idx;
      g.records[idx] := g.records[idx].(sbType := bsize);
    }
  }
}
