// set_vt_partitioning: keep a square block whole, or as two halves, when the
// variances of the kept parts are below a threshold; otherwise report that
// it must be split further.

module VtPartition {
  import opened Blocks
  import opened Variance
  import opened ModeInfoGrid

  /** The frame properties set_vt_partitioning consults. `chromaValid(b)`
      is get_plane_block_size(b, plane 1) < BLOCK_INVALID, which depends on
      the chroma subsampling of the frame. */
  datatype VtFrame = VtFrame(isKeyFrame: bool, lowRes: bool, chromaValid: BlockSize -> bool)

  /** A square block from 8X8 up (the sizes set_vt_partitioning is called on). */
  predicate SquareAbove4x4(b: BlockSize) { IsSquare(b) && b >= BLOCK_8X8 }

  /** The set_block_size calls that keep block (row, col) of size b with
      shape p: one for NONE, two for VERT (left and right halves) and HORZ
      (top and bottom halves). */
  function ShapePlacements(b: BlockSize, row: int, col: int, p: Partition): (ps: seq<Placement>)
    requires SquareAbove4x4(b) && p in {PartitionNone, PartitionVert, PartitionHorz}
    ensures |ps| == (if p == PartitionNone then 1 else 2)
    ensures forall i :: 0 <= i < |ps| ==>
              ps[i].size == GetSubsize(b, p) && row <= ps[i].row && col <= ps[i].col
              && ps[i].row + Num8x8High(ps[i].size) <= row + Num8x8High(b)
              && ps[i].col + Num8x8Wide(ps[i].size) <= col + Num8x8Wide(b)
  {
    var half := Num8x8Wide(b) / 2;
    match p
    case PartitionNone => [Placement(row, col, b)]
    case PartitionVert => [Placement(row, col, b - 2), Placement(row, col + half, b - 2)]
    case PartitionHorz => [Placement(row, col, b - 1), Placement(row + half, col, b - 1)]
  }

  /** The variances that must be below the threshold to keep shape p. */
  function ShapeVariances(pv: PartitionVariance, p: Partition): seq<Var>
  {
    match p
    case PartitionNone => [pv.none]
    case PartitionVert => [pv.vert0, pv.vert1]
    case PartitionHorz => [pv.horz0, pv.horz1]
    case _ => []
  }

  predicate AllBelow(vs: seq<Var>, threshold: int)
  {
    forall i :: 0 <= i < |vs| ==> vs[i].log2Count >= 0 && GetVariance(vs[i]) < threshold
  }

  /** The shape set_vt_partitioning keeps for a block, or None when it
      returns 0. On a key frame the variance is compared with threshold << 4,
      written as a multiplication (the thresholds are never negative). */
  function VtChoice(d: Dims, f: VtFrame, pv: PartitionVariance, b: BlockSize, row: int, col: int,
                    threshold: int, bsizeMin: BlockSize, forceSplit: bool): (r: Option<Partition>)
    requires SquareAbove4x4(b) && Counted(pv)
    ensures forceSplit ==> r == None
    ensures b < bsizeMin ==> r == None
    ensures (f.isKeyFrame && b > bsizeMin && (b > BLOCK_32X32 || GetVariance(pv.none) > threshold * 16))
              ==> r == None
    ensures r.Some? ==> r.value in {PartitionNone, PartitionVert, PartitionHorz}
                        && AllBelow(ShapeVariances(pv, r.value), threshold)
                        && (r.value != PartitionNone ==>
                              b > bsizeMin && f.chromaValid(GetSubsize(b, r.value)))
  {
    var half := Num8x8Wide(b) / 2;
    var noneFits := col + half < d.miCols && row + half < d.miRows && GetVariance(pv.none) < threshold;
    if forceSplit then None
    else if b == bsizeMin then
      if noneFits then Some(PartitionNone) else None
    else if b > bsizeMin then
      if f.isKeyFrame && (b > BLOCK_32X32 || GetVariance(pv.none) > threshold * 16) then None
      else if noneFits then Some(PartitionNone)
      else if row + half < d.miRows && GetVariance(pv.vert0) < threshold && GetVariance(pv.vert1) < threshold
              && f.chromaValid(b - 2) then Some(PartitionVert)
      else if col + half < d.miCols && GetVariance(pv.horz0) < threshold && GetVariance(pv.horz1) < threshold
              && f.chromaValid(b - 1) then Some(PartitionHorz)
      else None
    else None
  }

  /** The order of preference: a block that is not forced to split, not
      below the minimum size and not rejected by the key-frame rule is kept
      whole when it lies across the frame's inner edges and its variance is
      below the threshold, and otherwise as vertical halves when those fit
      and qualify; horizontal halves come last. */
  lemma VtPreference(d: Dims, f: VtFrame, pv: PartitionVariance, b: BlockSize, row: int, col: int,
                     threshold: int, bsizeMin: BlockSize)
    requires SquareAbove4x4(b) && Counted(pv) && b >= bsizeMin
    requires !(f.isKeyFrame && b > bsizeMin && (b > BLOCK_32X32 || GetVariance(pv.none) > threshold * 16))
    ensures var half := Num8x8Wide(b) / 2;
      var r := VtChoice(d, f, pv, b, row, col, threshold, bsizeMin, false);
      && ((col + half < d.miCols && row + half < d.miRows && GetVariance(pv.none) < threshold)
            ==> r == Some(PartitionNone))
      && (r == Some(PartitionHorz) ==>
            !(row + half < d.miRows && GetVariance(pv.vert0) < threshold && GetVariance(pv.vert1) < threshold
              && f.chromaValid(b - 2)))
      && (r == None && b > bsizeMin ==>
            !(col + half < d.miCols && GetVariance(pv.horz0) < threshold && GetVariance(pv.horz1) < threshold
              && f.chromaValid(b - 1)))
  {
  }

  lemma PlaceOne(d: Dims, s: GridState, p: Placement)
    requires WellFormed(d, s)
    ensures PlaceAll(d, s, [p]) == SetSize(d, s, p)
  {
    assert [p][1..] == [];
  }

  lemma PlaceTwo(d: Dims, s: GridState, p: Placement, q: Placement)
    requires WellFormed(d, s)
    ensures PlaceAll(d, s, [p, q]) == SetSize(d, SetSize(d, s, p), q)
  {
    assert [p, q][1..] == [q];
    PlaceOne(d, SetSize(d, s, p), q);
  }

  /** The set_block_size calls that keep block (row, col) with shape p. */
  method KeepShape(g: Grid, b: BlockSize, row: int, col: int, p: Partition)
    requires g.Valid() && SquareAbove4x4(b) && row >= 0 && col >= 0
    requires p in {PartitionNone, PartitionVert, PartitionHorz}
    modifies g.cells, g.records
    ensures g.State() == PlaceAll(g.dims, old(g.State()), ShapePlacements(b, row, col, p))
  {
    ghost var s0 := g.State();
    var half := Num8x8Wide(b) / 2;
    var subsize := GetSubsize(b, p);
    if p == PartitionNone {
      SetBlockSize(g, row, col, b);
      PlaceOne(g.dims, s0, Placement(row, col, b));
    } else if p == PartitionVert {
      SetBlockSize(g, row, col, subsize);
      SetBlockSize(g, row, col + half, subsize);
      PlaceTwo(g.dims, s0, Placement(row, col, subsize), Placement(row, col + half, subsize));
    } else {
      SetBlockSize(g, row, col, subsize);
      SetBlockSize(g, row + half, col, subsize);
      PlaceTwo(g.dims, s0, Placement(row, col, subsize), Placement(row + half, col, subsize));
    }
  }

  /** set_vt_partitioning: returns whether it kept the block, and the grid
      afterwards holds exactly the sizes of the kept shape's set_block_size
      calls. */
  method SetVtPartitioning(g: Grid, f: VtFrame, pv: PartitionVariance, b: BlockSize, row: int, col: int,
                           threshold: int, bsizeMin: BlockSize, forceSplit: bool)
    returns (kept: bool)
    requires g.Valid() && SquareAbove4x4(b) && Counted(pv) && row >= 0 && col >= 0
    modifies g.cells, g.records
    ensures var r := VtChoice(g.dims, f, pv, b, row, col, threshold, bsizeMin, forceSplit);
      && kept == r.Some?
      && g.State() == (if kept then PlaceAll(g.dims, old(g.State()), ShapePlacements(b, row, col, r.value))
                       else old(g.State()))
  {
    var blockWidth := Num8x8Wide(b);
    var blockHeight := Num8x8High(b);
    var d := g.dims;
    if forceSplit {
      return false;
    }
    var varNone := GetVariance(pv.none);
    if b == bsizeMin {
      if col + blockWidth / 2 < d.miCols && row + blockHeight / 2 < d.miRows && varNone < threshold {
        KeepShape(g, b, row, col, PartitionNone);
        return true;
      }
      return false;
    } else if b > bsizeMin {
      if f.isKeyFrame && (b > BLOCK_32X32 || varNone > threshold * 16) {
        return false;
      }
      if col + blockWidth / 2 < d.miCols && row + blockHeight / 2 < d.miRows && varNone < threshold {
        KeepShape(g, b, row, col, PartitionNone);
        return true;
      }
      if row + blockHeight / 2 < d.miRows {
        var subsize := GetSubsize(b, PartitionVert);
        if GetVariance(pv.vert0) < threshold && GetVariance(pv.vert1) < threshold
           && f.chromaValid(subsize) {
          KeepShape(g, b, row, col, PartitionVert);
          return true;
        }
      }
      if col + blockWidth / 2 < d.miCols {
        var subsize := GetSubsize(b, PartitionHorz);
        if GetVariance(pv.horz0) < threshold && GetVariance(pv.horz1) < threshold
           && f.chromaValid(subsize) {
          KeepShape(g, b, row, col, PartitionHorz);
          return true;
        }
      }
      return false;
    }
    return false;
  }
}
