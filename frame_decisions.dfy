// The frame-level choices of vp10_encode_frame: the frame type that picks
// the threshold tables, the reference mode and interpolation filter chosen
// from them, the transform mode, the running averages the thresholds are
// updated to after the frame, the reference-mode and transform-mode
// corrections read off the frame's counts, and the tile tables of
// vp10_init_tile_data.

module FrameDecisions {
  import opened Blocks
  import opened ModeInfoGrid
  import opened Commit

  // ---------------------------------------------------------------------
  // get_frame_type

  /** The rate-control and refresh flags get_frame_type reads. */
  datatype FrameFlags = FrameFlags(intraOnly: bool, isSrcFrameAltRef: bool, refreshGolden: bool,
                                   refreshAltRef: bool)

  /** The reference slot whose threshold tables the frame uses. */
  function GetFrameType(f: FrameFlags): int
  {
    if f.intraOnly then INTRA_FRAME
    else if f.isSrcFrameAltRef && f.refreshGolden then ALTREF_FRAME
    else if f.refreshGolden || f.refreshAltRef then GOLDEN_FRAME
    else LAST_FRAME
  }

  /** Each frame type, and exactly the flags that lead to it. */
  lemma FrameTypeCases(f: FrameFlags)
    ensures var t := GetFrameType(f);
      (t == INTRA_FRAME <==> f.intraOnly)
      && (t == ALTREF_FRAME <==> !f.intraOnly && f.isSrcFrameAltRef && f.refreshGolden)
      && (t == GOLDEN_FRAME <==> !f.intraOnly && !(f.isSrcFrameAltRef && f.refreshGolden)
                                 && (f.refreshGolden || f.refreshAltRef))
      && (t == LAST_FRAME <==> !f.intraOnly && !f.refreshGolden && !f.refreshAltRef)
  {
  }

  // ---------------------------------------------------------------------
  // select_tx_mode

  /** TX_SIZE_SEARCH_METHOD */
  const USE_FULL_RD: int := 0
  const USE_LARGESTALL: int := 1
  const USE_TX_8X8: int := 2

  /** The frame's transform mode: 4x4 only when lossless, otherwise fixed
      by the speed feature's search method, or the current mode. */
  function SelectTxMode(lossless: bool, searchMethod: int, current: TxMode): TxMode
  {
    if lossless then ONLY_4X4
    else if searchMethod == USE_LARGESTALL then ALLOW_32X32
    else if searchMethod == USE_FULL_RD || searchMethod == USE_TX_8X8 then TX_MODE_SELECT
    else current
  }

  /** A lossless frame uses only 4x4 transforms; otherwise the mode is
      ALLOW_32X32, TX_MODE_SELECT or the current one, the latter exactly for
      a search method the function does not know. */
  lemma SelectTxModeCases(lossless: bool, searchMethod: int, current: TxMode)
    ensures var m := SelectTxMode(lossless, searchMethod, current);
      (lossless ==> m == ONLY_4X4 && BiggestTxSize(m) == TX_4X4)
      && (!lossless && searchMethod == USE_LARGESTALL ==> m == ALLOW_32X32 && BiggestTxSize(m) == TX_32X32)
      && (!lossless && (searchMethod == USE_FULL_RD || searchMethod == USE_TX_8X8) ==> m == TX_MODE_SELECT)
      && (!lossless && !(USE_FULL_RD <= searchMethod <= USE_TX_8X8) ==> m == current)
  {
  }

  // ---------------------------------------------------------------------
  // check_dual_ref_flags

  /** Reference frame flags (VP9_LAST_FLAG, VP9_GOLD_FLAG, VP9_ALT_FLAG). */
  const LAST_FLAG: bv8 := 1
  const GOLD_FLAG: bv8 := 2
  const ALT_FLAG: bv8 := 4

  function Bit(flags: bv8, flag: bv8): int { if flags & flag != 0 then 1 else 0 }

  /** Compound prediction needs two usable references; a segment with the
      reference-frame feature on (segment 1) rules it out. */
  function CheckDualRefFlags(refFlags: bv8, segRefFeature: bool): bool
  {
    if segRefFeature then false
    else Bit(refFlags, GOLD_FLAG) + Bit(refFlags, LAST_FLAG) + Bit(refFlags, ALT_FLAG) >= 2
  }

  /** Dual references are available exactly when the feature is off and at
      least two of LAST, GOLDEN and ALTREF are enabled. */
  lemma DualRefMeansTwoReferences(refFlags: bv8, segRefFeature: bool)
    ensures CheckDualRefFlags(refFlags, segRefFeature) <==>
      !segRefFeature
      && ((refFlags & LAST_FLAG != 0 && refFlags & GOLD_FLAG != 0)
          || (refFlags & LAST_FLAG != 0 && refFlags & ALT_FLAG != 0)
          || (refFlags & GOLD_FLAG != 0 && refFlags & ALT_FLAG != 0))
  {
  }

  // ---------------------------------------------------------------------
  // Reference mode

  const SINGLE_REFERENCE: int := 0
  const COMPOUND_REFERENCE: int := 1
  const REFERENCE_MODE_SELECT: int := 2
  const REFERENCE_MODES: int := 3

  /** Compound prediction between two references is possible only when
      ALTREF's sign bias differs from both GOLDEN's and LAST's. */
  function AllowCompInterInter(intraOnly: bool, biasAlt: bool, biasGolden: bool, biasLast: bool): bool
  {
    !intraOnly && biasAlt != biasGolden && biasAlt != biasLast
  }

  /** The reference mode the frame is encoded with: single on an alt-ref
      frame, when compound is not allowed, or without frame parameter
      updates; otherwise the mode whose threshold (mode_thrs, indexed by
      the reference mode) is largest, compound only with two references
      and a fully static frame, select when it ties with single. */
  function SelectReferenceMode(parameterUpdate: bool, isAltRef: bool, allowComp: bool, thrs: seq<int>,
                               dualRef: bool, staticMbPct: int): int
    requires |thrs| == REFERENCE_MODES
  {
    if !parameterUpdate || isAltRef || !allowComp then SINGLE_REFERENCE
    else if thrs[COMPOUND_REFERENCE] > thrs[SINGLE_REFERENCE]
            && thrs[COMPOUND_REFERENCE] > thrs[REFERENCE_MODE_SELECT] && dualRef && staticMbPct == 100
    then COMPOUND_REFERENCE
    else if thrs[SINGLE_REFERENCE] > thrs[REFERENCE_MODE_SELECT] then SINGLE_REFERENCE
    else REFERENCE_MODE_SELECT
  }

  /** Compound is chosen only when its threshold strictly beats both others
      and the frame allows it; the selected mode never has a threshold
      below that of a mode the frame could have used instead. */
  lemma ReferenceModeDominates(parameterUpdate: bool, isAltRef: bool, allowComp: bool, thrs: seq<int>,
                               dualRef: bool, staticMbPct: int)
    requires |thrs| == REFERENCE_MODES
    ensures var m := SelectReferenceMode(parameterUpdate, isAltRef, allowComp, thrs, dualRef, staticMbPct);
      SINGLE_REFERENCE <= m <= REFERENCE_MODE_SELECT
      && (m == COMPOUND_REFERENCE ==>
            parameterUpdate && !isAltRef && allowComp && dualRef && staticMbPct == 100
            && thrs[COMPOUND_REFERENCE] > thrs[SINGLE_REFERENCE]
            && thrs[COMPOUND_REFERENCE] > thrs[REFERENCE_MODE_SELECT])
      && (!parameterUpdate || isAltRef || !allowComp ==> m == SINGLE_REFERENCE)
      && (m == REFERENCE_MODE_SELECT ==> thrs[REFERENCE_MODE_SELECT] >= thrs[SINGLE_REFERENCE])
      && (m == SINGLE_REFERENCE && parameterUpdate && !isAltRef && allowComp ==>
            thrs[SINGLE_REFERENCE] > thrs[REFERENCE_MODE_SELECT])
  {
  }

  /** cm->ref_frame_sign_bias of LAST, GOLDEN and ALTREF. */
  datatype SignBias = SignBias(last: bool, golden: bool, alt: bool)

  /** The reference mode vp10_encode_frame picks for a frame with parameter
      updates: get_frame_type chooses the row of the threshold table
      (prediction_type_threshes) and says whether this is an alt-ref frame,
      the sign biases decide allow_comp_inter_inter, and
      check_dual_ref_flags whether two references are usable. */
  function FrameReferenceMode(parameterUpdate: bool, f: FrameFlags, bias: SignBias, table: seq<seq<int>>,
                              refFlags: bv8, segRefFeature: bool, staticMbPct: int): int
    requires |table| == 4 && forall t :: 0 <= t < 4 ==> |table[t]| == REFERENCE_MODES
  {
    var frameType := GetFrameType(f);
    SelectReferenceMode(parameterUpdate, frameType == ALTREF_FRAME,
                        AllowCompInterInter(f.intraOnly, bias.alt, bias.golden, bias.last),
                        table[frameType], CheckDualRefFlags(refFlags, segRefFeature), staticMbPct)
  }

  /** What the frame must be like for each mode: compound needs an inter
      frame that is not an alt-ref source refreshing golden, an ALTREF sign
      bias opposite to both others', two usable references and a threshold
      beating both other modes in the frame type's row; an intra-only frame
      or ALTREF agreeing in sign with LAST or GOLDEN is always coded with
      single references, and select needs the same sign biases as
      compound. */
  lemma FrameReferenceModeSound(parameterUpdate: bool, f: FrameFlags, bias: SignBias, table: seq<seq<int>>,
                                refFlags: bv8, segRefFeature: bool, staticMbPct: int)
    requires |table| == 4 && forall t :: 0 <= t < 4 ==> |table[t]| == REFERENCE_MODES
    ensures var m := FrameReferenceMode(parameterUpdate, f, bias, table, refFlags, segRefFeature, staticMbPct);
      var row := table[GetFrameType(f)];
      (m == COMPOUND_REFERENCE ==>
         parameterUpdate && !f.intraOnly && !(f.isSrcFrameAltRef && f.refreshGolden)
         && bias.alt != bias.golden && bias.alt != bias.last
         && !segRefFeature && Bit(refFlags, GOLD_FLAG) + Bit(refFlags, LAST_FLAG) + Bit(refFlags, ALT_FLAG) >= 2
         && row[COMPOUND_REFERENCE] > row[SINGLE_REFERENCE] && row[COMPOUND_REFERENCE] > row[REFERENCE_MODE_SELECT])
      && (f.intraOnly || bias.alt == bias.golden || bias.alt == bias.last ==> m == SINGLE_REFERENCE)
      && (m == REFERENCE_MODE_SELECT ==>
            !f.intraOnly && bias.alt != bias.golden && bias.alt != bias.last
            && row[REFERENCE_MODE_SELECT] >= row[SINGLE_REFERENCE])
  {
    FrameTypeCases(f);
    var frameType := GetFrameType(f);
    ReferenceModeDominates(parameterUpdate, frameType == ALTREF_FRAME,
                           AllowCompInterInter(f.intraOnly, bias.alt, bias.golden, bias.last),
                           table[frameType], CheckDualRefFlags(refFlags, segRefFeature), staticMbPct);
  }

  /** Sum of one column of the comp_inter counts (0: single, 1: compound). */
  function CountColumn(counts: seq<(nat, nat)>, compound: bool): nat
    decreases |counts|
  {
    if |counts| == 0 then 0
    else CountColumn(counts[..|counts| - 1], compound)
         + (if compound then counts[|counts| - 1].1 else counts[|counts| - 1].0)
  }

  /** After the frame, REFERENCE_MODE_SELECT is replaced by the one mode
      every block used, when the counts show only one. */
  function ReferenceModeFromCounts(mode: int, singleCount: nat, compCount: nat): int
  {
    if mode != REFERENCE_MODE_SELECT then mode
    else if compCount == 0 then SINGLE_REFERENCE
    else if singleCount == 0 then COMPOUND_REFERENCE
    else mode
  }

  /** Only REFERENCE_MODE_SELECT is ever corrected; it stays only when both
      kinds of prediction were used, and a replacement is the kind that was. */
  lemma ReferenceModeFromCountsSound(mode: int, singleCount: nat, compCount: nat)
    ensures var m := ReferenceModeFromCounts(mode, singleCount, compCount);
      (mode != REFERENCE_MODE_SELECT ==> m == mode)
      && (mode == REFERENCE_MODE_SELECT ==>
            (m == REFERENCE_MODE_SELECT <==> singleCount > 0 && compCount > 0)
            && (m == COMPOUND_REFERENCE ==> singleCount == 0 && compCount > 0)
            && (m == SINGLE_REFERENCE ==> compCount == 0))
  {
  }

  /** The counting loop of vp10_encode_frame over the comp_inter contexts,
      and the resulting reference mode. */
  method FinalReferenceMode(mode: int, counts: seq<(nat, nat)>) returns (m: int)
    ensures m == ReferenceModeFromCounts(mode, CountColumn(counts, false), CountColumn(counts, true))
  {
    m := mode;
    if mode == REFERENCE_MODE_SELECT {
      var singleCountZero, compCountZero := 0, 0;
      var i := 0;
      while i < |counts|
        invariant 0 <= i <= |counts|
        invariant singleCountZero == CountColumn(counts[..i], false)
        invariant compCountZero == CountColumn(counts[..i], true)
      {
        assert counts[..i + 1][..i] == counts[..i];
        singleCountZero := singleCountZero + counts[i].0;
        compCountZero := compCountZero + counts[i].1;
        i := i + 1;
      }
      assert counts[..|counts|] == counts;
      if compCountZero == 0 {
        m := SINGLE_REFERENCE;
      } else if singleCountZero == 0 {
        m := COMPOUND_REFERENCE;
      }
    }
  }

  // ---------------------------------------------------------------------
  // get_interp_filter

  /** filter_threshes has one entry per switchable filter and one for
      SWITCHABLE itself (index SWITCHABLE - 1). */
  const SWITCHABLE_FILTER_CONTEXTS: int := 4

  /** The frame-level interpolation filter: a fixed filter whose threshold
      beats SWITCHABLE's and the other filters' (smooth not on alt-ref
      frames), in the order smooth, sharp, regular; otherwise SWITCHABLE. */
  function GetInterpFilter(threshes: seq<int>, isAltRef: bool): int
    requires |threshes| == SWITCHABLE_FILTER_CONTEXTS
  {
    if !isAltRef && threshes[EIGHTTAP_SMOOTH] > threshes[EIGHTTAP] && threshes[EIGHTTAP_SMOOTH] > threshes[EIGHTTAP_SHARP]
       && threshes[EIGHTTAP_SMOOTH] > threshes[SWITCHABLE - 1]
    then EIGHTTAP_SMOOTH
    else if threshes[EIGHTTAP_SHARP] > threshes[EIGHTTAP] && threshes[EIGHTTAP_SHARP] > threshes[SWITCHABLE - 1]
    then EIGHTTAP_SHARP
    else if threshes[EIGHTTAP] > threshes[SWITCHABLE - 1] then EIGHTTAP
    else SWITCHABLE
  }

  /** A filter the frame may fix: smooth is never fixed on alt-ref frames. */
  predicate Eligible(f: int, isAltRef: bool)
  {
    f == EIGHTTAP || f == EIGHTTAP_SHARP || (f == EIGHTTAP_SMOOTH && !isAltRef)
  }

  /** The chosen filter has the largest threshold of all eligible filters
      and strictly beats SWITCHABLE's; SWITCHABLE is kept exactly when no
      eligible filter beats it. */
  lemma InterpFilterIsBest(threshes: seq<int>, isAltRef: bool)
    requires |threshes| == SWITCHABLE_FILTER_CONTEXTS
    ensures var r := GetInterpFilter(threshes, isAltRef);
      (r == SWITCHABLE <==>
         threshes[EIGHTTAP] <= threshes[SWITCHABLE - 1] && threshes[EIGHTTAP_SHARP] <= threshes[SWITCHABLE - 1]
         && (isAltRef || threshes[EIGHTTAP_SMOOTH] <= threshes[SWITCHABLE - 1]))
      && (r != SWITCHABLE ==>
            Eligible(r, isAltRef) && threshes[r] > threshes[SWITCHABLE - 1]
            && threshes[EIGHTTAP] <= threshes[r] && threshes[EIGHTTAP_SHARP] <= threshes[r]
            && (!isAltRef ==> threshes[EIGHTTAP_SMOOTH] <= threshes[r]))
  {
  }

  // ---------------------------------------------------------------------
  // Threshold averaging

  /** C's integer division of int64 values: the quotient truncated toward
      zero. */
  function CDiv(a: int, b: int): int
    requires b != 0
  {
    var q := Abs(a) / Abs(b);
    if (a < 0) != (b < 0) then -q else q
  }

  function Abs(a: int): nat { if a < 0 then -a else a }

  /** Truncating division: the remainder takes the dividend's sign and is
      smaller than the divisor. */
  lemma CDivTruncates(a: int, b: int)
    requires b > 0
    ensures var q := CDiv(a, b); var rem := a - q * b;
      Abs(rem) < b && (a >= 0 ==> 0 <= rem) && (a <= 0 ==> rem <= 0)
  {
    var q := Abs(a) / b;
    assert Abs(a) == q * b + Abs(a) % b;
    if a < 0 {
      assert CDiv(a, b) * b == -(q * b);
    }
  }

  /** mode_thrs[i] = (mode_thrs[i] + comp_pred_diff[i] / MBs) / 2, and the
      same for filter_thrs. */
  function AverageThreshold(prev: int, diff: int, mbs: int): int
    requires mbs > 0
  {
    CDiv(prev + CDiv(diff, mbs), 2)
  }

  /** The new threshold lies between the previous one and the frame's per-block
      difference. */
  lemma AverageBetween(prev: int, diff: int, mbs: int)
    requires mbs > 0
    ensures Min(prev, CDiv(diff, mbs)) <= AverageThreshold(prev, diff, mbs) <= Max(prev, CDiv(diff, mbs))
  {
    var q := CDiv(diff, mbs);
    CDivTruncates(prev + q, 2);
  }

  /** The averaging loop over one threshold table. */
  method AverageThresholds(thrs: array<int>, diffs: seq<int>, mbs: int)
    requires mbs > 0 && |diffs| == thrs.Length
    modifies thrs
    ensures forall i :: 0 <= i < thrs.Length ==> thrs[i] == AverageThreshold(old(thrs[i]), diffs[i], mbs)
  {
    var i := 0;
    while i < thrs.Length
      invariant 0 <= i <= thrs.Length
      invariant forall k :: 0 <= k < i ==> thrs[k] == AverageThreshold(old(thrs[k]), diffs[k], mbs)
      invariant forall k :: i <= k < thrs.Length ==> thrs[k] == old(thrs[k])
    {
      thrs[i] := CDiv(thrs[i] + CDiv(diffs[i], mbs), 2);
      i := i + 1;
    }
  }

  // ---------------------------------------------------------------------
  // Transform-mode downgrade

  /** The transform counts of one size context: tx.p8x8 (TX_4X4, TX_8X8),
      tx.p16x16 (up to TX_16X16) and tx.p32x32 (up to TX_32X32). */
  datatype TxCtxCounts = TxCtxCounts(p8x8: seq<nat>, p16x16: seq<nat>, p32x32: seq<nat>)

  predicate CountsShaped(c: TxCtxCounts)
  {
    |c.p8x8| == 2 && |c.p16x16| == 3 && |c.p32x32| == 4
  }

  /** The six totals vp10_encode_frame gathers: 4x4 anywhere, 8x8 in larger
      blocks (lp) and in 8x8 blocks, 16x16 in 16x16 blocks and in larger
      ones, and 32x32. */
  datatype TxTotals = TxTotals(count4x4: nat, count8x8Lp: nat, count8x8p: nat, count16x16p: nat,
                               count16x16Lp: nat, count32x32: nat)

  function AddCtx(t: TxTotals, c: TxCtxCounts): TxTotals
    requires CountsShaped(c)
  {
    TxTotals(t.count4x4 + c.p32x32[TX_4X4] + c.p16x16[TX_4X4] + c.p8x8[TX_4X4],
             t.count8x8Lp + c.p32x32[TX_8X8] + c.p16x16[TX_8X8],
             t.count8x8p + c.p8x8[TX_8X8],
             t.count16x16p + c.p16x16[TX_16X16],
             t.count16x16Lp + c.p32x32[TX_16X16],
             t.count32x32 + c.p32x32[TX_32X32])
  }

  function TotalsOf(cs: seq<TxCtxCounts>): TxTotals
    requires forall i :: 0 <= i < |cs| ==> CountsShaped(cs[i])
    decreases |cs|
  {
    if |cs| == 0 then TxTotals(0, 0, 0, 0, 0, 0) else AddCtx(TotalsOf(cs[..|cs| - 1]), cs[|cs| - 1])
  }

  /** How many blocks used transform size t. */
  function Used(t: TxTotals, size: TxSize): nat
  {
    if size == TX_4X4 then t.count4x4
    else if size == TX_8X8 then t.count8x8Lp + t.count8x8p
    else if size == TX_16X16 then t.count16x16p + t.count16x16Lp
    else t.count32x32
  }

  /** A frame coded with TX_MODE_SELECT whose counts show a fixed mode
      would have done gets that mode, and the sizes of skipped blocks are
      capped to it (the Some cap); ALLOW_32X32 needs no cap. */
  function DowngradeTxMode(mode: TxMode, t: TxTotals): (TxMode, Option<TxSize>)
  {
    if mode != TX_MODE_SELECT then (mode, None)
    else if t.count4x4 == 0 && t.count16x16Lp == 0 && t.count16x16p == 0 && t.count32x32 == 0 then
      (ALLOW_8X8, Some(TX_8X8))
    else if t.count8x8p == 0 && t.count16x16p == 0 && t.count8x8Lp == 0 && t.count16x16Lp == 0
            && t.count32x32 == 0 then
      (ONLY_4X4, Some(TX_4X4))
    else if t.count8x8Lp == 0 && t.count16x16Lp == 0 && t.count4x4 == 0 then (ALLOW_32X32, None)
    else if t.count32x32 == 0 && t.count8x8Lp == 0 && t.count4x4 == 0 then (ALLOW_16X16, Some(TX_16X16))
    else (mode, None)
  }

  /** The downgrade only ever lowers TX_MODE_SELECT, never drops a size a
      block used, and caps at exactly the new mode's largest size. */
  lemma DowngradeKeepsUsedSizes(mode: TxMode, t: TxTotals, size: TxSize)
    ensures var (m, cap) := DowngradeTxMode(mode, t);
      m <= mode
      && (mode != TX_MODE_SELECT ==> m == mode && cap.None?)
      && (mode == TX_MODE_SELECT && Used(t, size) > 0 ==> size <= BiggestTxSize(m))
      && (cap.Some? ==> m < TX_MODE_SELECT && cap.value == BiggestTxSize(m))
  {
  }

  /** The counting loop over the size contexts. */
  method SumTxCounts(cs: seq<TxCtxCounts>) returns (t: TxTotals)
    requires forall i :: 0 <= i < |cs| ==> CountsShaped(cs[i])
    ensures t == TotalsOf(cs)
  {
    t := TxTotals(0, 0, 0, 0, 0, 0);
    var i := 0;
    while i < |cs|
      invariant 0 <= i <= |cs|
      invariant t == TotalsOf(cs[..i])
    {
      assert cs[..i + 1][..i] == cs[..i];
      var c := cs[i];
      t := TxTotals(t.count4x4 + c.p32x32[TX_4X4] + c.p16x16[TX_4X4] + c.p8x8[TX_4X4],
                    t.count8x8Lp + c.p32x32[TX_8X8] + c.p16x16[TX_8X8],
                    t.count8x8p + c.p8x8[TX_8X8],
                    t.count16x16p + c.p16x16[TX_16X16],
                    t.count16x16Lp + c.p32x32[TX_16X16],
                    t.count32x32 + c.p32x32[TX_32X32]);
      i := i + 1;
    }
    assert cs[..|cs|] == cs;
  }

  /** The end of vp10_encode_frame's transform-mode handling: the new mode,
      and the grid with reset_skip_tx_size applied when the mode was
      lowered to one with a smaller largest size. */
  method FinishTxMode(g: Grid, mode: TxMode, cs: seq<TxCtxCounts>) returns (m: TxMode)
    requires g.Valid() && NoNullCells(g.dims, g.State())
    requires forall i :: 0 <= i < |cs| ==> CountsShaped(cs[i])
    modifies g.records
    ensures m == DowngradeTxMode(mode, TotalsOf(cs)).0
    ensures var cap := DowngradeTxMode(mode, TotalsOf(cs)).1;
      g.State() == if cap.Some? then ResetSkipTx(g.dims, old(g.State()), cap.value) else old(g.State())
  {
    var t := SumTxCounts(cs);
    var cap;
    m, cap := DowngradeTxMode(mode, t).0, DowngradeTxMode(mode, t).1;
    if cap.Some? {
      ResetSkipTxSize(g, cap.value);
    }
  }

  // ---------------------------------------------------------------------
  // vp10_init_tile_data

  const MAX_MODES: int := 30

  /** The per-tile RD tables: thresh_freq_fact and mode_map. */
  class TileDataEnc {
    const threshFreqFact: array2<int>
    const modeMap: array2<int>

    /** A freshly allocated tile: every frequency factor 32, every mode map
        the identity. */
    constructor ()
      ensures fresh(threshFreqFact) && fresh(modeMap) && Initialised()
    {
      var t := new int[BLOCK_SIZES, MAX_MODES];
      var m := new int[BLOCK_SIZES, MAX_MODES];
      var i := 0;
      while i < BLOCK_SIZES
        invariant 0 <= i <= BLOCK_SIZES
        invariant forall a, b :: 0 <= a < i && 0 <= b < MAX_MODES ==> t[a, b] == 32 && m[a, b] == b
      {
        var j := 0;
        while j < MAX_MODES
          invariant 0 <= j <= MAX_MODES
          invariant forall a, b :: 0 <= a < i && 0 <= b < MAX_MODES ==> t[a, b] == 32 && m[a, b] == b
          invariant forall b :: 0 <= b < j ==> t[i, b] == 32 && m[i, b] == b
        {
          t[i, j] := 32;
          m[i, j] := j;
          j := j + 1;
        }
        i := i + 1;
      }
      threshFreqFact := t;
      modeMap := m;
    }

    ghost predicate Initialised()
      reads threshFreqFact, modeMap
    {
      threshFreqFact.Length0 == BLOCK_SIZES && threshFreqFact.Length1 == MAX_MODES
      && modeMap.Length0 == BLOCK_SIZES && modeMap.Length1 == MAX_MODES
      && forall a, b :: 0 <= a < BLOCK_SIZES && 0 <= b < MAX_MODES ==>
           threshFreqFact[a, b] == 32 && modeMap[a, b] == b
    }
  }

  /** Offset of tile k's tokens from the first tile's: each tile starts
      where the previous one's allocation ends. */
  function TokenStart(alloc: seq<nat>, k: int): nat
    requires 0 <= k <= |alloc|
  {
    if k == 0 then 0 else TokenStart(alloc, k - 1) + alloc[k - 1]
  }

  /** The token ranges of two tiles never overlap: a later tile starts at
      or after the end of an earlier one. */
  lemma {:induction false} TokenRangesDisjoint(alloc: seq<nat>, j: int, k: int)
    requires 0 <= j < k <= |alloc|
    ensures TokenStart(alloc, j) + alloc[j] <= TokenStart(alloc, k)
    decreases k - j
  {
    if k > j + 1 {
      TokenRangesDisjoint(alloc, j, k - 1);
    }
  }

  /** The encoder's tile state vp10_init_tile_data maintains. */
  class TileState {
    var tileData: seq<TileDataEnc>
    var allocatedTiles: int
    var tileTok: seq<int>

    /** vp10_init_tile_data for 2^log2Cols x 2^log2Rows tiles, given the
        token allocation of each tile in raster order: the tables are
        reallocated and initialised only when there are none or too few;
        the token offsets are laid out one after another. */
    method InitTileData(log2Cols: nat, log2Rows: nat, alloc: seq<nat>)
      requires |alloc| == Pow2(log2Cols) * Pow2(log2Rows)
      modifies this
      ensures var n := Pow2(log2Cols) * Pow2(log2Rows);
        if old(|tileData|) == 0 || old(allocatedTiles) < n then
          |tileData| == n && allocatedTiles == n
          && forall k :: 0 <= k < n ==> fresh(tileData[k]) && tileData[k].Initialised()
        else
          tileData == old(tileData) && allocatedTiles == old(allocatedTiles)
      ensures |tileTok| == |alloc| && forall k :: 0 <= k < |alloc| ==> tileTok[k] == TokenStart(alloc, k)
    {
      var tileCols, tileRows := Pow2(log2Cols), Pow2(log2Rows);
      var n := tileCols * tileRows;
      if |tileData| == 0 || allocatedTiles < n {
        var fresh_: seq<TileDataEnc> := [];
        var k := 0;
        while k < n
          invariant 0 <= k <= n && |fresh_| == k
          invariant forall q :: 0 <= q < k ==> fresh(fresh_[q]) && fresh_[q].Initialised()
        {
          var t := new TileDataEnc();
          fresh_ := fresh_ + [t];
          k := k + 1;
        }
        tileData := fresh_;
        allocatedTiles := n;
      }
      var toks: seq<int> := [];
      var preTok, tileTok_ := 0, 0;
      var k := 0;
      while k < n
        invariant 0 <= k <= n && |toks| == k
        invariant forall q :: 0 <= q < k ==> toks[q] == TokenStart(alloc, q)
        invariant k > 0 ==> preTok == TokenStart(alloc, k - 1) && tileTok_ == alloc[k - 1]
        invariant k == 0 ==> preTok == 0 && tileTok_ == 0
      {
        toks := toks + [preTok + tileTok_];
        preTok := preTok + tileTok_;
        tileTok_ := alloc[k];
        k := k + 1;
      }
      tileTok := toks;
    }
  }
}
