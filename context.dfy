// The context snapshot of the RD search: save_context copies the above and
// left entropy contexts (per plane, subsampling-adjusted), partition
// contexts and transform-size contexts of a block into local buffers, and
// restore_context copies them back.
//
// Every memcpy is a Span: len entries from offset src of the source to
// offset dst of the destination. restore_context performs the spans of
// save_context in the opposite direction.

module Context {
  import opened Blocks

  datatype Span = Span(dst: int, src: int, len: int)

  predicate SpansFit(spans: seq<Span>, dstLen: int, srcLen: int)
  {
    forall k :: 0 <= k < |spans| ==>
      0 <= spans[k].dst && 0 <= spans[k].src && 0 <= spans[k].len
      && spans[k].dst + spans[k].len <= dstLen && spans[k].src + spans[k].len <= srcLen
  }

  /** Destination windows in increasing, non-overlapping order. */
  predicate DstOrdered(spans: seq<Span>)
  {
    forall j, k :: 0 <= j < k < |spans| ==> spans[j].dst + spans[j].len <= spans[k].dst
  }

  /** Source windows in increasing, non-overlapping order. */
  predicate SrcOrdered(spans: seq<Span>)
  {
    forall j, k :: 0 <= j < k < |spans| ==> spans[j].src + spans[j].len <= spans[k].src
  }

  /** i lies in no destination window. */
  predicate OutsideDst(spans: seq<Span>, i: int)
  {
    forall k :: 0 <= k < |spans| ==> !(spans[k].dst <= i < spans[k].dst + spans[k].len)
  }

  /** i lies in no source window. */
  predicate OutsideSrc(spans: seq<Span>, i: int)
  {
    forall k :: 0 <= k < |spans| ==> !(spans[k].src <= i < spans[k].src + spans[k].len)
  }

  /** r performs the copies of s in the opposite direction. */
  predicate Mirrors(s: seq<Span>, r: seq<Span>)
  {
    |s| == |r| && forall k :: 0 <= k < |s| ==> r[k] == Span(s[k].src, s[k].dst, s[k].len)
  }

  lemma MirrorFacts(s: seq<Span>, r: seq<Span>, dLen: int, sLen: int)
    requires Mirrors(s, r) && SpansFit(s, dLen, sLen)
    ensures SpansFit(r, sLen, dLen)
    ensures SrcOrdered(s) ==> DstOrdered(r)
  {
  }

  /** memcpy(dst + off, src, |src|) on the contents of dst. */
  function CopyIn(dst: seq<int>, off: int, src: seq<int>): (r: seq<int>)
    requires 0 <= off && off + |src| <= |dst|
    ensures |r| == |dst|
  {
    dst[..off] + src + dst[off + |src|..]
  }

  lemma CopyInAt(dst: seq<int>, off: int, src: seq<int>, i: int)
    requires 0 <= off && off + |src| <= |dst| && 0 <= i < |dst|
    ensures CopyIn(dst, off, src)[i] == if off <= i < off + |src| then src[i - off] else dst[i]
  {
  }

  /** The spans performed in order, each copying from the unchanged src. */
  function CopySpans(dst: seq<int>, src: seq<int>, spans: seq<Span>): (r: seq<int>)
    requires SpansFit(spans, |dst|, |src|)
    ensures |r| == |dst|
    decreases |spans|
  {
    if |spans| == 0 then dst
    else
      var last := spans[|spans| - 1];
      CopyIn(CopySpans(dst, src, spans[..|spans| - 1]), last.dst, src[last.src..last.src + last.len])
  }

  /** One more span performed after the first p. */
  lemma CopySpansSnoc(dst: seq<int>, src: seq<int>, spans: seq<Span>, p: int)
    requires SpansFit(spans, |dst|, |src|) && 0 <= p < |spans|
    ensures CopySpans(dst, src, spans[..p + 1])
            == CopyIn(CopySpans(dst, src, spans[..p]), spans[p].dst, src[spans[p].src..spans[p].src + spans[p].len])
  {
    assert spans[..p + 1][..p] == spans[..p];
  }

  /** After the copies, position n of destination window k holds
      position m of its source window. */
  lemma {:induction false} CopySpansInside(dst: seq<int>, src: seq<int>, spans: seq<Span>, k: int, n: int, m: int)
    requires SpansFit(spans, |dst|, |src|) && DstOrdered(spans)
    requires 0 <= k < |spans| && spans[k].dst <= n < spans[k].dst + spans[k].len
    requires m == spans[k].src + (n - spans[k].dst)
    ensures CopySpans(dst, src, spans)[n] == src[m]
    decreases |spans|
  {
    var last := spans[|spans| - 1];
    CopyInAt(CopySpans(dst, src, spans[..|spans| - 1]), last.dst, src[last.src..last.src + last.len], n);
    if k < |spans| - 1 {
      CopySpansInside(dst, src, spans[..|spans| - 1], k, n, m);
    }
  }

  /** Entries in no destination window keep their value. */
  lemma {:induction false} CopySpansOutside(dst: seq<int>, src: seq<int>, spans: seq<Span>, i: int)
    requires SpansFit(spans, |dst|, |src|) && OutsideDst(spans, i) && 0 <= i < |dst|
    ensures CopySpans(dst, src, spans)[i] == dst[i]
    decreases |spans|
  {
    if |spans| > 0 {
      var last := spans[|spans| - 1];
      CopyInAt(CopySpans(dst, src, spans[..|spans| - 1]), last.dst, src[last.src..last.src + last.len], i);
      CopySpansOutside(dst, src, spans[..|spans| - 1], i);
    }
  }

  /** Copying a set of windows out and then back in returns each window to
      the values it held when it was copied out, whatever it holds now. */
  lemma CopyBack(c: seq<int>, now: seq<int>, buf: seq<int>, s: seq<Span>, r: seq<Span>, k: int, n: int)
    requires |now| == |c| && Mirrors(s, r) && SpansFit(s, |buf|, |c|) && DstOrdered(s) && SrcOrdered(s)
    requires 0 <= k < |s| && s[k].src <= n < s[k].src + s[k].len
    ensures CopySpans(now, CopySpans(buf, c, s), r)[n] == c[n]
  {
    MirrorFacts(s, r, |buf|, |c|);
    CopySpansInside(now, CopySpans(buf, c, s), r, k, n, n - s[k].src + s[k].dst);
    CopySpansInside(buf, c, s, k, n - s[k].src + s[k].dst, n);
  }

  /** Copying windows out and straight back changes nothing. */
  lemma CopyBackIdentity(c: seq<int>, buf: seq<int>, s: seq<Span>, r: seq<Span>)
    requires Mirrors(s, r) && SpansFit(s, |buf|, |c|) && DstOrdered(s) && SrcOrdered(s)
    ensures SpansFit(r, |c|, |buf|)
    ensures CopySpans(c, CopySpans(buf, c, s), r) == c
  {
    MirrorFacts(s, r, |buf|, |c|);
    forall n | 0 <= n < |c|
      ensures CopySpans(c, CopySpans(buf, c, s), r)[n] == c[n]
    {
      if k :| 0 <= k < |s| && s[k].src <= n < s[k].src + s[k].len {
        CopyBack(c, c, buf, s, r, k, n);
      } else {
        CopySpansOutside(c, CopySpans(buf, c, s), r, n);
      }
    }
  }

  // ---------------------------------------------------------------------
  // The block geometry of save_context and restore_context.

  /** x >> s on a non-negative x. */
  function Shr(x: int, s: nat): int
    decreases s
  {
    if s == 0 then x else Shr(x / 2, s - 1)
  }

  lemma {:induction false} ShrBounds(a: int, b: int, s: nat)
    requires 0 <= a && 0 <= b
    ensures 0 <= Shr(a, s) <= a
    ensures Shr(a, s) + Shr(b, s) <= Shr(a + b, s)
    decreases s
  {
    if s > 0 {
      ShrBounds(a / 2, b / 2, s - 1);
      ShrMonotone(a / 2 + b / 2, (a + b) / 2, s - 1);
    }
  }

  lemma {:induction false} ShrMonotone(a: int, b: int, s: nat)
    requires 0 <= a <= b
    ensures Shr(a, s) <= Shr(b, s)
    decreases s
  {
    if s > 0 {
      ShrMonotone(a / 2, b / 2, s - 1);
    }
  }

  /** cm->above_context holds MAX_MB_PLANE rows of aboveStride entries
      (two per 8x8 column of the superblock-aligned frame); plane p is
      subsampled by ssx[p] horizontally and ssy[p] vertically. */
  datatype Layout = Layout(aboveStride: int, ssx: seq<nat>, ssy: seq<nat>)

  predicate ValidLayout(l: Layout)
  {
    |l.ssx| == MAX_MB_PLANE && |l.ssy| == MAX_MB_PLANE && l.aboveStride >= 0
  }

  /** The block (mi_row, mi_col, bsize) and where xd->above_txfm_context and
      xd->left_txfm_context currently point (mi_col and mi_row & MI_MASK at
      every call). */
  datatype Where = Where(miRow: nat, miCol: nat, bsize: BlockSize, aboveTxfmAt: nat, leftTxfmAt: nat)

  /** Entries per plane of the local buffers a and l. */
  const PLANE_BUFFER: int := 16
  /** ENTROPY_CONTEXT left_context[MAX_MB_PLANE][16]. */
  const LEFT_STRIDE: int := 16

  /** The copy between offset bufAt of a local buffer and offset ctxAt of a
      context: into the buffer when saving, back when restoring. */
  function Copy(bufAt: int, ctxAt: int, len: int, back: bool): Span
  {
    if back then Span(ctxAt, bufAt, len) else Span(bufAt, ctxAt, len)
  }

  /** The copies of one entropy context, plane by plane: n entries at
      offset x of plane p's row (at p * stride), both shifted by the plane's
      subsampling, and offset n * p of the local buffer. */
  function PlaneSpans(n: int, stride: int, x: int, ss: seq<nat>, back: bool): seq<Span>
    requires |ss| == MAX_MB_PLANE
  {
    [Copy(0, Shr(x, ss[0]), Shr(n, ss[0]), back),
     Copy(n, stride + Shr(x, ss[1]), Shr(n, ss[1]), back),
     Copy(2 * n, 2 * stride + Shr(x, ss[2]), Shr(n, ss[2]), back)]
  }

  /** The above entropy contexts: (mi_col * 2) >> ssx of each plane's above
      row and a at num_4x4_blocks_wide * p. */
  function AboveSpans(l: Layout, w: Where, back: bool): seq<Span>
    requires ValidLayout(l)
  {
    PlaneSpans(Num4x4Wide(w.bsize), l.aboveStride, 2 * w.miCol, l.ssx, back)
  }

  /** The left entropy contexts: ((mi_row & MI_MASK) * 2) >> ssy of each
      plane's left column and l at num_4x4_blocks_high * p. */
  function LeftSpans(l: Layout, w: Where, back: bool): seq<Span>
    requires ValidLayout(l)
  {
    PlaneSpans(Num4x4High(w.bsize), LEFT_STRIDE, 2 * (w.miRow % 8), l.ssy, back)
  }

  /** The partition contexts at mi_col and mi_row & MI_MASK, and the
      transform-size contexts where their pointers are, mi_width or
      mi_height entries each. */
  function AboveSegSpans(w: Where, back: bool): seq<Span> { [Copy(0, w.miCol, Num8x8Wide(w.bsize), back)] }
  function LeftSegSpans(w: Where, back: bool): seq<Span> { [Copy(0, w.miRow % 8, Num8x8High(w.bsize), back)] }
  function AboveTxfmSpans(w: Where, back: bool): seq<Span> { [Copy(0, w.aboveTxfmAt, Num8x8Wide(w.bsize), back)] }
  function LeftTxfmSpans(w: Where, back: bool): seq<Span> { [Copy(0, w.leftTxfmAt, Num8x8High(w.bsize), back)] }

  /** The contents of the six context arrays of MACROBLOCKD. */
  datatype Contexts = Contexts(above: seq<int>, left: seq<int>, aboveSeg: seq<int>, leftSeg: seq<int>,
                               aboveTxfm: seq<int>, leftTxfm: seq<int>)

  /** The contents of the local buffers a, l, sa, sl, ta, tl. */
  datatype Buffers = Buffers(a: seq<int>, l: seq<int>, sa: seq<int>, sl: seq<int>, ta: seq<int>, tl: seq<int>)

  predicate ContextsShaped(l: Layout, c: Contexts)
  {
    |c.above| == MAX_MB_PLANE * l.aboveStride && |c.left| == MAX_MB_PLANE * LEFT_STRIDE
    && |c.leftSeg| == MI_BLOCK_SIZE && |c.leftTxfm| == MI_BLOCK_SIZE
  }

  predicate BuffersShaped(b: Buffers)
  {
    |b.a| == MAX_MB_PLANE * PLANE_BUFFER && |b.l| == MAX_MB_PLANE * PLANE_BUFFER
    && |b.sa| == MI_BLOCK_SIZE && |b.sl| == MI_BLOCK_SIZE && |b.ta| == MI_BLOCK_SIZE && |b.tl| == MI_BLOCK_SIZE
  }

  /** Every copy stays inside its arrays: the block lies within the
      superblock-aligned above rows and within its superblock's left
      column, and the partition and transform contexts cover its width and
      height. */
  predicate Placed(l: Layout, w: Where, c: Contexts)
  {
    ValidLayout(l) && ContextsShaped(l, c)
    && 2 * w.miCol + Num4x4Wide(w.bsize) <= l.aboveStride
    && 2 * (w.miRow % 8) + Num4x4High(w.bsize) <= LEFT_STRIDE
    && w.miCol + Num8x8Wide(w.bsize) <= |c.aboveSeg|
    && w.miRow % 8 + Num8x8High(w.bsize) <= MI_BLOCK_SIZE
    && w.aboveTxfmAt + Num8x8Wide(w.bsize) <= |c.aboveTxfm|
    && w.leftTxfmAt + Num8x8High(w.bsize) <= MI_BLOCK_SIZE
  }

  lemma BlockDims(b: BlockSize)
    ensures 1 <= Num4x4Wide(b) <= PLANE_BUFFER && 1 <= Num4x4High(b) <= PLANE_BUFFER
    ensures 1 <= Num8x8Wide(b) <= MI_BLOCK_SIZE && 1 <= Num8x8High(b) <= MI_BLOCK_SIZE
  {
  }

  /** A shifted window of n entries at x stays within the shifted bounds. */
  lemma ShiftedWindow(n: int, x: int, stride: int, s: nat)
    requires 0 <= x && 0 <= n && x + n <= stride
    ensures 0 <= Shr(n, s) <= n && 0 <= Shr(x, s) && Shr(x, s) + Shr(n, s) <= stride
  {
    ShrBounds(x, n, s);
    ShrBounds(n, 0, s);
    ShrBounds(x + n, 0, s);
  }

  lemma PlaneSpansOrdered(n: int, stride: int, x: int, ss: seq<nat>)
    requires |ss| == MAX_MB_PLANE && 0 <= x && 1 <= n <= PLANE_BUFFER && x + n <= stride
    ensures SpansFit(PlaneSpans(n, stride, x, ss, false), MAX_MB_PLANE * PLANE_BUFFER, MAX_MB_PLANE * stride)
    ensures DstOrdered(PlaneSpans(n, stride, x, ss, false)) && SrcOrdered(PlaneSpans(n, stride, x, ss, false))
    ensures Mirrors(PlaneSpans(n, stride, x, ss, false), PlaneSpans(n, stride, x, ss, true))
  {
    ShiftedWindow(n, x, stride, ss[0]);
    ShiftedWindow(n, x, stride, ss[1]);
    ShiftedWindow(n, x, stride, ss[2]);
  }

  /** The entropy-context spans fit their arrays, do not overlap on either
      side, and restoring mirrors saving. */
  lemma PlaneSpansOk(l: Layout, w: Where, c: Contexts)
    requires Placed(l, w, c)
    ensures SpansFit(AboveSpans(l, w, false), MAX_MB_PLANE * PLANE_BUFFER, |c.above|)
    ensures SpansFit(LeftSpans(l, w, false), MAX_MB_PLANE * PLANE_BUFFER, |c.left|)
    ensures DstOrdered(AboveSpans(l, w, false)) && SrcOrdered(AboveSpans(l, w, false))
    ensures DstOrdered(LeftSpans(l, w, false)) && SrcOrdered(LeftSpans(l, w, false))
    ensures Mirrors(AboveSpans(l, w, false), AboveSpans(l, w, true))
    ensures Mirrors(LeftSpans(l, w, false), LeftSpans(l, w, true))
  {
    BlockDims(w.bsize);
    PlaneSpansOrdered(Num4x4Wide(w.bsize), l.aboveStride, 2 * w.miCol, l.ssx);
    PlaneSpansOrdered(Num4x4High(w.bsize), LEFT_STRIDE, 2 * (w.miRow % 8), l.ssy);
  }

  /** The single-window spans fit their arrays, and restoring mirrors
      saving. */
  lemma LineSpansOk(l: Layout, w: Where, c: Contexts)
    requires Placed(l, w, c)
    ensures SpansFit(AboveSegSpans(w, false), MI_BLOCK_SIZE, |c.aboveSeg|)
    ensures SpansFit(LeftSegSpans(w, false), MI_BLOCK_SIZE, |c.leftSeg|)
    ensures SpansFit(AboveTxfmSpans(w, false), MI_BLOCK_SIZE, |c.aboveTxfm|)
    ensures SpansFit(LeftTxfmSpans(w, false), MI_BLOCK_SIZE, |c.leftTxfm|)
    ensures Mirrors(AboveSegSpans(w, false), AboveSegSpans(w, true))
    ensures Mirrors(LeftSegSpans(w, false), LeftSegSpans(w, true))
    ensures Mirrors(AboveTxfmSpans(w, false), AboveTxfmSpans(w, true))
    ensures Mirrors(LeftTxfmSpans(w, false), LeftTxfmSpans(w, true))
  {
    BlockDims(w.bsize);
  }

  /** Every span list of a placed block, in both directions, fits. */
  lemma AllSpansFit(l: Layout, w: Where, c: Contexts)
    requires Placed(l, w, c)
    ensures SpansFit(AboveSpans(l, w, false), MAX_MB_PLANE * PLANE_BUFFER, |c.above|)
    ensures SpansFit(LeftSpans(l, w, false), MAX_MB_PLANE * PLANE_BUFFER, |c.left|)
    ensures SpansFit(AboveSegSpans(w, false), MI_BLOCK_SIZE, |c.aboveSeg|)
    ensures SpansFit(LeftSegSpans(w, false), MI_BLOCK_SIZE, |c.leftSeg|)
    ensures SpansFit(AboveTxfmSpans(w, false), MI_BLOCK_SIZE, |c.aboveTxfm|)
    ensures SpansFit(LeftTxfmSpans(w, false), MI_BLOCK_SIZE, |c.leftTxfm|)
    ensures SpansFit(AboveSpans(l, w, true), |c.above|, MAX_MB_PLANE * PLANE_BUFFER)
    ensures SpansFit(LeftSpans(l, w, true), |c.left|, MAX_MB_PLANE * PLANE_BUFFER)
    ensures SpansFit(AboveSegSpans(w, true), |c.aboveSeg|, MI_BLOCK_SIZE)
    ensures SpansFit(LeftSegSpans(w, true), |c.leftSeg|, MI_BLOCK_SIZE)
    ensures SpansFit(AboveTxfmSpans(w, true), |c.aboveTxfm|, MI_BLOCK_SIZE)
    ensures SpansFit(LeftTxfmSpans(w, true), |c.leftTxfm|, MI_BLOCK_SIZE)
  {
    PlaneSpansOk(l, w, c);
    LineSpansOk(l, w, c);
    MirrorFacts(AboveSpans(l, w, false), AboveSpans(l, w, true), MAX_MB_PLANE * PLANE_BUFFER, |c.above|);
    MirrorFacts(LeftSpans(l, w, false), LeftSpans(l, w, true), MAX_MB_PLANE * PLANE_BUFFER, |c.left|);
    MirrorFacts(AboveSegSpans(w, false), AboveSegSpans(w, true), MI_BLOCK_SIZE, |c.aboveSeg|);
    MirrorFacts(LeftSegSpans(w, false), LeftSegSpans(w, true), MI_BLOCK_SIZE, |c.leftSeg|);
    MirrorFacts(AboveTxfmSpans(w, false), AboveTxfmSpans(w, true), MI_BLOCK_SIZE, |c.aboveTxfm|);
    MirrorFacts(LeftTxfmSpans(w, false), LeftTxfmSpans(w, true), MI_BLOCK_SIZE, |c.leftTxfm|);
  }

  /** save_context: the buffers after copying the block's windows in. */
  function SaveOf(l: Layout, w: Where, c: Contexts, b: Buffers): (r: Buffers)
    requires Placed(l, w, c) && BuffersShaped(b)
    ensures BuffersShaped(r)
  {
    AllSpansFit(l, w, c);
    Buffers(CopySpans(b.a, c.above, AboveSpans(l, w, false)), CopySpans(b.l, c.left, LeftSpans(l, w, false)),
            CopySpans(b.sa, c.aboveSeg, AboveSegSpans(w, false)), CopySpans(b.sl, c.leftSeg, LeftSegSpans(w, false)),
            CopySpans(b.ta, c.aboveTxfm, AboveTxfmSpans(w, false)), CopySpans(b.tl, c.leftTxfm, LeftTxfmSpans(w, false)))
  }

  /** restore_context: the contexts after copying the buffers back. */
  function RestoreOf(l: Layout, w: Where, c: Contexts, b: Buffers): (r: Contexts)
    requires Placed(l, w, c) && BuffersShaped(b)
    ensures Placed(l, w, r)
  {
    AllSpansFit(l, w, c);
    Contexts(CopySpans(c.above, b.a, AboveSpans(l, w, true)), CopySpans(c.left, b.l, LeftSpans(l, w, true)),
             CopySpans(c.aboveSeg, b.sa, AboveSegSpans(w, true)), CopySpans(c.leftSeg, b.sl, LeftSegSpans(w, true)),
             CopySpans(c.aboveTxfm, b.ta, AboveTxfmSpans(w, true)), CopySpans(c.leftTxfm, b.tl, LeftTxfmSpans(w, true)))
  }

  /** x and y agree on every source window of spans. */
  predicate AgreeOnWindows(x: seq<int>, y: seq<int>, spans: seq<Span>)
  {
    forall k, n :: 0 <= k < |spans| && spans[k].src <= n < spans[k].src + spans[k].len && 0 <= n < |x| && n < |y|
      ==> x[n] == y[n]
  }

  /** x and y agree everywhere outside the source windows of spans. */
  predicate AgreeOutside(x: seq<int>, y: seq<int>, spans: seq<Span>)
  {
    |x| == |y| && forall i :: 0 <= i < |x| && OutsideSrc(spans, i) ==> x[i] == y[i]
  }

  lemma WindowsBack(c: seq<int>, now: seq<int>, buf: seq<int>, s: seq<Span>, r: seq<Span>)
    requires |now| == |c| && Mirrors(s, r) && SpansFit(s, |buf|, |c|) && DstOrdered(s) && SrcOrdered(s)
    ensures SpansFit(r, |now|, |buf|)
    ensures AgreeOnWindows(CopySpans(now, CopySpans(buf, c, s), r), c, s)
  {
    MirrorFacts(s, r, |buf|, |c|);
    forall k, n | 0 <= k < |s| && s[k].src <= n < s[k].src + s[k].len
      ensures CopySpans(now, CopySpans(buf, c, s), r)[n] == c[n]
    {
      CopyBack(c, now, buf, s, r, k, n);
    }
  }

  lemma OutsideKept(now: seq<int>, saved: seq<int>, s: seq<Span>, r: seq<Span>)
    requires Mirrors(s, r) && SpansFit(r, |now|, |saved|)
    ensures AgreeOutside(CopySpans(now, saved, r), now, s)
  {
    forall i | 0 <= i < |now| && OutsideSrc(s, i)
      ensures CopySpans(now, saved, r)[i] == now[i]
    {
      CopySpansOutside(now, saved, r, i);
    }
  }

  /** restore_context after save_context with the same block returns every
      saved window of every context to its value at the save, whatever the
      search wrote in between. */
  lemma RestoreAfterSave(l: Layout, w: Where, c: Contexts, now: Contexts, b: Buffers)
    requires Placed(l, w, c) && Placed(l, w, now) && BuffersShaped(b)
    requires |now.aboveSeg| == |c.aboveSeg| && |now.aboveTxfm| == |c.aboveTxfm|
    ensures AgreeOnWindows(RestoreOf(l, w, now, SaveOf(l, w, c, b)).above, c.above, AboveSpans(l, w, false))
    ensures AgreeOnWindows(RestoreOf(l, w, now, SaveOf(l, w, c, b)).left, c.left, LeftSpans(l, w, false))
    ensures AgreeOnWindows(RestoreOf(l, w, now, SaveOf(l, w, c, b)).aboveSeg, c.aboveSeg, AboveSegSpans(w, false))
    ensures AgreeOnWindows(RestoreOf(l, w, now, SaveOf(l, w, c, b)).leftSeg, c.leftSeg, LeftSegSpans(w, false))
    ensures AgreeOnWindows(RestoreOf(l, w, now, SaveOf(l, w, c, b)).aboveTxfm, c.aboveTxfm, AboveTxfmSpans(w, false))
    ensures AgreeOnWindows(RestoreOf(l, w, now, SaveOf(l, w, c, b)).leftTxfm, c.leftTxfm, LeftTxfmSpans(w, false))
  {
    PlaneSpansOk(l, w, c);
    LineSpansOk(l, w, c);
    WindowsBack(c.above, now.above, b.a, AboveSpans(l, w, false), AboveSpans(l, w, true));
    WindowsBack(c.left, now.left, b.l, LeftSpans(l, w, false), LeftSpans(l, w, true));
    WindowsBack(c.aboveSeg, now.aboveSeg, b.sa, AboveSegSpans(w, false), AboveSegSpans(w, true));
    WindowsBack(c.leftSeg, now.leftSeg, b.sl, LeftSegSpans(w, false), LeftSegSpans(w, true));
    WindowsBack(c.aboveTxfm, now.aboveTxfm, b.ta, AboveTxfmSpans(w, false), AboveTxfmSpans(w, true));
    WindowsBack(c.leftTxfm, now.leftTxfm, b.tl, LeftTxfmSpans(w, false), LeftTxfmSpans(w, true));
  }

  /** restore_context writes only the block's windows: every other entry of
      every context keeps its current value. */
  lemma RestoreKeepsOutside(l: Layout, w: Where, now: Contexts, b: Buffers)
    requires Placed(l, w, now) && BuffersShaped(b)
    ensures AgreeOutside(RestoreOf(l, w, now, b).above, now.above, AboveSpans(l, w, false))
    ensures AgreeOutside(RestoreOf(l, w, now, b).left, now.left, LeftSpans(l, w, false))
    ensures AgreeOutside(RestoreOf(l, w, now, b).aboveSeg, now.aboveSeg, AboveSegSpans(w, false))
    ensures AgreeOutside(RestoreOf(l, w, now, b).leftSeg, now.leftSeg, LeftSegSpans(w, false))
    ensures AgreeOutside(RestoreOf(l, w, now, b).aboveTxfm, now.aboveTxfm, AboveTxfmSpans(w, false))
    ensures AgreeOutside(RestoreOf(l, w, now, b).leftTxfm, now.leftTxfm, LeftTxfmSpans(w, false))
  {
    AllSpansFit(l, w, now);
    PlaneSpansOk(l, w, now);
    LineSpansOk(l, w, now);
    OutsideKept(now.above, b.a, AboveSpans(l, w, false), AboveSpans(l, w, true));
    OutsideKept(now.left, b.l, LeftSpans(l, w, false), LeftSpans(l, w, true));
    OutsideKept(now.aboveSeg, b.sa, AboveSegSpans(w, false), AboveSegSpans(w, true));
    OutsideKept(now.leftSeg, b.sl, LeftSegSpans(w, false), LeftSegSpans(w, true));
    OutsideKept(now.aboveTxfm, b.ta, AboveTxfmSpans(w, false), AboveTxfmSpans(w, true));
    OutsideKept(now.leftTxfm, b.tl, LeftTxfmSpans(w, false), LeftTxfmSpans(w, true));
  }

  /** Restoring straight after saving leaves the contexts as they were. */
  lemma RestoreSavedIsIdentity(l: Layout, w: Where, c: Contexts, b: Buffers)
    requires Placed(l, w, c) && BuffersShaped(b)
    ensures RestoreOf(l, w, c, SaveOf(l, w, c, b)) == c
  {
    PlaneSpansOk(l, w, c);
    LineSpansOk(l, w, c);
    CopyBackIdentity(c.above, b.a, AboveSpans(l, w, false), AboveSpans(l, w, true));
    CopyBackIdentity(c.left, b.l, LeftSpans(l, w, false), LeftSpans(l, w, true));
    CopyBackIdentity(c.aboveSeg, b.sa, AboveSegSpans(w, false), AboveSegSpans(w, true));
    CopyBackIdentity(c.leftSeg, b.sl, LeftSegSpans(w, false), LeftSegSpans(w, true));
    CopyBackIdentity(c.aboveTxfm, b.ta, AboveTxfmSpans(w, false), AboveTxfmSpans(w, true));
    CopyBackIdentity(c.leftTxfm, b.tl, LeftTxfmSpans(w, false), LeftTxfmSpans(w, true));
  }

  // ---------------------------------------------------------------------
  // The arrays themselves.

  /** One memcpy between two distinct arrays. */
  method CopyWindow(dst: array<int>, dOff: int, src: array<int>, sOff: int, len: int)
    requires dst != src && 0 <= dOff && 0 <= sOff && 0 <= len
    requires dOff + len <= dst.Length && sOff + len <= src.Length
    modifies dst
    ensures dst[..] == CopyIn(old(dst[..]), dOff, src[sOff..sOff + len])
  {
    forall i | 0 <= i < len {
      dst[dOff + i] := src[sOff + i];
    }
    forall i | 0 <= i < dst.Length
      ensures dst[i] == CopyIn(old(dst[..]), dOff, src[sOff..sOff + len])[i]
    {
      CopyInAt(old(dst[..]), dOff, src[sOff..sOff + len], i);
    }
    assert dst[..] == CopyIn(old(dst[..]), dOff, src[sOff..sOff + len]);
  }

  /** A single span performed on an array. */
  method CopyOne(dst: array<int>, src: array<int>, spans: seq<Span>)
    requires dst != src && |spans| == 1 && SpansFit(spans, dst.Length, src.Length)
    modifies dst
    ensures dst[..] == CopySpans(old(dst[..]), src[..], spans)
  {
    CopyWindow(dst, spans[0].dst, src, spans[0].src, spans[0].len);
    assert spans[..0] == [];
  }

  /** Span p performed after the first p spans. */
  method CopyStep(dst: array<int>, src: array<int>, spans: seq<Span>, p: int, ghost d0: seq<int>)
    requires dst != src && 0 <= p < |spans| && |d0| == dst.Length && SpansFit(spans, dst.Length, src.Length)
    requires dst[..] == CopySpans(d0, src[..], spans[..p])
    modifies dst
    ensures dst[..] == CopySpans(d0, src[..], spans[..p + 1])
  {
    CopyWindow(dst, spans[p].dst, src, spans[p].src, spans[p].len);
    CopySpansSnoc(d0, src[..], spans, p);
  }

  /** The per-plane loop of save_context and restore_context: plane p
      copies span sa[p] from srcA into dstA and span sl[p] from srcL into
      dstL. */
  method CopyPlanes(dstA: array<int>, srcA: array<int>, sa: seq<Span>, dstL: array<int>, srcL: array<int>, sl: seq<Span>)
    requires dstA != srcA && dstA != srcL && dstL != srcA && dstL != srcL && dstA != dstL
    requires |sa| == MAX_MB_PLANE && |sl| == MAX_MB_PLANE
    requires SpansFit(sa, dstA.Length, srcA.Length) && SpansFit(sl, dstL.Length, srcL.Length)
    modifies dstA, dstL
    ensures dstA[..] == CopySpans(old(dstA[..]), srcA[..], sa)
    ensures dstL[..] == CopySpans(old(dstL[..]), srcL[..], sl)
  {
    var p := 0;
    while p < MAX_MB_PLANE
      invariant 0 <= p <= MAX_MB_PLANE
      invariant dstA[..] == CopySpans(old(dstA[..]), srcA[..], sa[..p])
      invariant dstL[..] == CopySpans(old(dstL[..]), srcL[..], sl[..p])
    {
      CopyStep(dstA, srcA, sa, p, old(dstA[..]));
      CopyStep(dstL, srcL, sl, p, old(dstL[..]));
      p := p + 1;
    }
    assert sa[..p] == sa;
    assert sl[..p] == sl;
  }

  /** The six context arrays of MACROBLOCKD: above_context[p] (one
      allocation, plane p at p * aboveStride), left_context[MAX_MB_PLANE][16],
      above/left_seg_context and the transform-size contexts. */
  class MacroblockContexts {
    const layout: Layout
    const above: array<int>
    const left: array<int>
    const aboveSeg: array<int>
    const leftSeg: array<int>
    const aboveTxfm: array<int>
    const leftTxfm: array<int>

    function Repr(): set<object>
      reads this
    {
      {above, left, aboveSeg, leftSeg, aboveTxfm, leftTxfm}
    }

    predicate Valid()
      reads this
    {
      ValidLayout(layout)
      && above.Length == MAX_MB_PLANE * layout.aboveStride && left.Length == MAX_MB_PLANE * LEFT_STRIDE
      && leftSeg.Length == MI_BLOCK_SIZE && leftTxfm.Length == MI_BLOCK_SIZE
      && above != left && above != aboveSeg && above != leftSeg && above != aboveTxfm && above != leftTxfm
      && left != aboveSeg && left != leftSeg && left != aboveTxfm && left != leftTxfm
      && aboveSeg != leftSeg && aboveSeg != aboveTxfm && aboveSeg != leftTxfm
      && leftSeg != aboveTxfm && leftSeg != leftTxfm && aboveTxfm != leftTxfm
    }

    function State(): Contexts
      reads this, above, left, aboveSeg, leftSeg, aboveTxfm, leftTxfm
    {
      Contexts(above[..], left[..], aboveSeg[..], leftSeg[..], aboveTxfm[..], leftTxfm[..])
    }

    constructor(l: Layout, miColsAligned: nat)
      requires |l.ssx| == MAX_MB_PLANE && |l.ssy| == MAX_MB_PLANE && l.aboveStride == 2 * miColsAligned
      ensures Valid() && layout == l && fresh(Repr())
      ensures |aboveSeg[..]| == miColsAligned && |aboveTxfm[..]| == miColsAligned
    {
      layout := l;
      above := new int[MAX_MB_PLANE * l.aboveStride];
      left := new int[MAX_MB_PLANE * LEFT_STRIDE];
      aboveSeg := new int[miColsAligned];
      leftSeg := new int[MI_BLOCK_SIZE];
      aboveTxfm := new int[miColsAligned];
      leftTxfm := new int[MI_BLOCK_SIZE];
    }

    /** save_context. */
    method SaveContext(w: Where, b: ContextBuffers)
      requires Valid() && b.Valid() && Placed(layout, w, State()) && Repr() !! b.Repr()
      modifies b.a, b.l, b.sa, b.sl, b.ta, b.tl
      ensures b.State() == SaveOf(layout, w, old(State()), old(b.State()))
    {
      AllSpansFit(layout, w, State());
      CopyPlanes(b.a, above, AboveSpans(layout, w, false), b.l, left, LeftSpans(layout, w, false));
      CopyOne(b.sa, aboveSeg, AboveSegSpans(w, false));
      CopyOne(b.sl, leftSeg, LeftSegSpans(w, false));
      CopyOne(b.ta, aboveTxfm, AboveTxfmSpans(w, false));
      CopyOne(b.tl, leftTxfm, LeftTxfmSpans(w, false));
    }

    /** restore_context. */
    method RestoreContext(w: Where, b: ContextBuffers)
      requires Valid() && b.Valid() && Placed(layout, w, State()) && Repr() !! b.Repr()
      modifies above, left, aboveSeg, leftSeg, aboveTxfm, leftTxfm
      ensures State() == RestoreOf(layout, w, old(State()), old(b.State()))
    {
      AllSpansFit(layout, w, State());
      CopyPlanes(above, b.a, AboveSpans(layout, w, true), left, b.l, LeftSpans(layout, w, true));
      CopyOne(aboveSeg, b.sa, AboveSegSpans(w, true));
      CopyOne(leftSeg, b.sl, LeftSegSpans(w, true));
      CopyOne(aboveTxfm, b.ta, AboveTxfmSpans(w, true));
      CopyOne(leftTxfm, b.tl, LeftTxfmSpans(w, true));
    }
  }

  /** The local buffers of the RD search: ENTROPY_CONTEXT a[16 *
      MAX_MB_PLANE], l[16 * MAX_MB_PLANE], PARTITION_CONTEXT sa[8], sl[8],
      TXFM_CONTEXT ta[8], tl[8]. */
  class ContextBuffers {
    const a: array<int>
    const l: array<int>
    const sa: array<int>
    const sl: array<int>
    const ta: array<int>
    const tl: array<int>

    function Repr(): set<object>
      reads this
    {
      {a, l, sa, sl, ta, tl}
    }

    predicate Valid()
      reads this
    {
      a.Length == MAX_MB_PLANE * PLANE_BUFFER && l.Length == MAX_MB_PLANE * PLANE_BUFFER
      && sa.Length == MI_BLOCK_SIZE && sl.Length == MI_BLOCK_SIZE && ta.Length == MI_BLOCK_SIZE && tl.Length == MI_BLOCK_SIZE
      && a != l && a != sa && a != sl && a != ta && a != tl && l != sa && l != sl && l != ta && l != tl
      && sa != sl && sa != ta && sa != tl && sl != ta && sl != tl && ta != tl
    }

    function State(): Buffers
      reads this, a, l, sa, sl, ta, tl
    {
      Buffers(a[..], l[..], sa[..], sl[..], ta[..], tl[..])
    }

    constructor()
      ensures Valid() && fresh(Repr())
    {
      a := new int[MAX_MB_PLANE * PLANE_BUFFER];
      l := new int[MAX_MB_PLANE * PLANE_BUFFER];
      sa := new int[MI_BLOCK_SIZE];
      sl := new int[MI_BLOCK_SIZE];
      ta := new int[MI_BLOCK_SIZE];
      tl := new int[MI_BLOCK_SIZE];
    }
  }
}
