// Block sizes, partition shapes and the lookup tables the partition code
// consults. The tables are libvpx's vp10/common/common_data.h values; that
// header is not part of this model, so they are written out here as
// constants.

module Blocks {

  datatype Option<T> = None | Some(value: T)

  /** BLOCK_SIZE: 0 = BLOCK_4X4 ... 12 = BLOCK_64X64. */
  type BlockSize = b: int | 0 <= b <= 12

  const BLOCK_4X4: BlockSize := 0
  const BLOCK_4X8: BlockSize := 1
  const BLOCK_8X4: BlockSize := 2
  const BLOCK_8X8: BlockSize := 3
  const BLOCK_8X16: BlockSize := 4
  const BLOCK_16X8: BlockSize := 5
  const BLOCK_16X16: BlockSize := 6
  const BLOCK_16X32: BlockSize := 7
  const BLOCK_32X16: BlockSize := 8
  const BLOCK_32X32: BlockSize := 9
  const BLOCK_32X64: BlockSize := 10
  const BLOCK_64X32: BlockSize := 11
  const BLOCK_64X64: BlockSize := 12
  /** BLOCK_INVALID, the value of a table entry that names no block size. */
  const BLOCK_INVALID: int := 13
  const BLOCK_SIZES: int := 13

  /** Mode-info unit: 8x8 luma pixels; a superblock is 8x8 mode-info units. */
  const MI_SIZE: int := 8
  const MI_SIZE_LOG2: int := 3
  const MI_BLOCK_SIZE: int := 8
  const MI_MASK: int := 7
  const MAX_MB_PLANE: int := 3

  datatype Partition = PartitionNone | PartitionHorz | PartitionVert | PartitionSplit | PartitionInvalid

  const num8x8Wide: seq<int> := [1, 1, 1, 1, 1, 2, 2, 2, 4, 4, 4, 8, 8]
  const num8x8High: seq<int> := [1, 1, 1, 1, 2, 1, 2, 4, 2, 4, 8, 4, 8]
  const num4x4Wide: seq<int> := [1, 1, 2, 2, 2, 4, 4, 4, 8, 8, 8, 16, 16]
  const num4x4High: seq<int> := [1, 2, 1, 2, 4, 2, 4, 8, 4, 8, 16, 8, 16]
  const bWidthLog2: seq<int> := [0, 0, 1, 1, 1, 2, 2, 2, 3, 3, 3, 4, 4]
  const bHeightLog2: seq<int> := [0, 1, 0, 1, 2, 1, 2, 3, 2, 3, 4, 3, 4]
  const numPelsLog2: seq<int> := [4, 5, 5, 6, 7, 7, 8, 9, 9, 10, 11, 11, 12]

  /** The lookups are written as range tests, which the verifier evaluates
      without walking a table; TablesAgree checks each against its table. */
  /** 2 to the power k. */
  function Pow2(k: nat): (r: nat)
    ensures r >= 1
  {
    if k == 0 then 1 else 2 * Pow2(k - 1)
  }

  function Num8x8Wide(b: BlockSize): int
  {
    if b < 5 then 1 else if b < 8 then 2 else if b < 11 then 4 else 8
  }

  function Num8x8High(b: BlockSize): int
  {
    if b <= 3 || b == 5 then 1
    else if b == 4 || b == 6 || b == 8 then 2
    else if b == 7 || b == 9 || b == 11 then 4
    else 8
  }

  function Num4x4Wide(b: BlockSize): int
  {
    if b < 2 then 1 else if b < 5 then 2 else if b < 8 then 4 else if b < 11 then 8 else 16
  }

  function Num4x4High(b: BlockSize): int
  {
    if b == 0 || b == 2 then 1
    else if b == 1 || b == 3 || b == 5 then 2
    else if b == 4 || b == 6 || b == 8 then 4
    else if b == 7 || b == 9 || b == 11 then 8
    else 16
  }

  function BWidthLog2(b: BlockSize): int
  {
    (b + 1) / 3
  }

  function BHeightLog2(b: BlockSize): int
  {
    (b + 2) / 3 - (if b % 3 == 2 then 1 else 0)
  }

  function NumPelsLog2(b: BlockSize): int
  {
    BWidthLog2(b) + BHeightLog2(b) + 4
  }

  lemma TablesAgree(b: BlockSize)
    ensures Num8x8Wide(b) == num8x8Wide[b] && Num8x8High(b) == num8x8High[b]
    ensures Num4x4Wide(b) == num4x4Wide[b] && Num4x4High(b) == num4x4High[b]
    ensures BWidthLog2(b) == bWidthLog2[b] && BHeightLog2(b) == bHeightLog2[b]
    ensures NumPelsLog2(b) == numPelsLog2[b]
    ensures MaxTxsize(b) == maxTxsizeLookup[b]
  {
    assert b in {0, 1, 2, 3, 4, 5, 6, 7, 8, 9, 10, 11, 12};
  }

  /** The square sizes 4X4, 8X8, 16X16, 32X32, 64X64. */
  predicate IsSquare(b: BlockSize) { b % 3 == 0 }

  /** subsize_lookup[partition][bsize] (get_subsize). A partition the table
      has no row for yields BLOCK_INVALID. */
  function GetSubsize(b: BlockSize, p: Partition): int
  {
    match p
    case PartitionNone => b
    case PartitionHorz => if b % 3 == 0 && b > 0 then b - 1 else BLOCK_INVALID
    case PartitionVert => if b % 3 == 0 && b > 0 then b - 2 else BLOCK_INVALID
    case PartitionSplit => if b % 3 == 0 && b > 0 then b - 3 else BLOCK_INVALID
    case PartitionInvalid => BLOCK_INVALID
  }

  const N := PartitionNone
  const H := PartitionHorz
  const V := PartitionVert
  const S := PartitionSplit
  const I := PartitionInvalid

  /** partition_lookup[bsl][subsize]: the shape that splits a square block
      whose width log2 (in 4-pixel units) is bsl into blocks of subsize. */
  const partitionLookup: seq<seq<Partition>> := [
    [N, I, I, I, I, I, I, I, I, I, I, I, I],
    [S, V, H, N, I, I, I, I, I, I, I, I, I],
    [S, S, S, S, V, H, N, I, I, I, I, I, I],
    [S, S, S, S, S, S, S, V, H, N, I, I, I],
    [S, S, S, S, S, S, S, S, S, S, V, H, N]
  ]

  /** Row bsl of the table: the size three steps per row up is NONE, the
      two before it HORZ and VERT, smaller sizes SPLIT, larger ones
      INVALID. */
  function PartitionLookup(bsl: int, sub: int): Partition
    requires 0 <= bsl <= 4 && 0 <= sub < BLOCK_SIZES
  {
    var base := 3 * bsl;
    if sub == base then N
    else if sub == base - 1 then H
    else if sub == base - 2 then V
    else if sub < base - 2 then S
    else I
  }

  lemma LookupTableAgrees(bsl: int, sub: int)
    requires 0 <= bsl <= 4 && 0 <= sub < BLOCK_SIZES
    ensures PartitionLookup(bsl, sub) == partitionLookup[bsl][sub]
  {
    assert bsl in {0, 1, 2, 3, 4};
    assert sub in {0, 1, 2, 3, 4, 5, 6, 7, 8, 9, 10, 11, 12};
  }

  /** Transform sizes TX_4X4 .. TX_32X32 and frame transform modes. */
  type TxSize = t: int | 0 <= t <= 3
  const TX_4X4: TxSize := 0
  const TX_8X8: TxSize := 1
  const TX_16X16: TxSize := 2
  const TX_32X32: TxSize := 3

  type TxMode = m: int | 0 <= m <= 4
  const ONLY_4X4: TxMode := 0
  const ALLOW_8X8: TxMode := 1
  const ALLOW_16X16: TxMode := 2
  const ALLOW_32X32: TxMode := 3
  const TX_MODE_SELECT: TxMode := 4

  const maxTxsizeLookup: seq<TxSize> := [0, 0, 0, 1, 1, 1, 2, 2, 2, 3, 3, 3, 3]
  const txModeToBiggestTxSize: seq<TxSize> := [0, 1, 2, 3, 3]

  function MaxTxsize(b: BlockSize): TxSize
  {
    if b < 3 then TX_4X4 else if b < 6 then TX_8X8 else if b < 9 then TX_16X16 else TX_32X32
  }

  function BiggestTxSize(m: TxMode): TxSize
  {
    if m < 3 then m else TX_32X32
  }

  lemma TxTablesAgree(m: TxMode)
    ensures BiggestTxSize(m) == txModeToBiggestTxSize[m]
  {
    assert m in {0, 1, 2, 3, 4};
  }

  function Min(a: int, b: int): int { if a < b then a else b }
  function Max(a: int, b: int): int { if a < b then b else a }

  /** Decoding a shape from the size it produces gives the shape back:
      encode_sb and rd_use_partition rely on partition_lookup inverting
      get_subsize for every square block from 8X8 up. */
  lemma {:induction false} LookupInvertsSubsize(b: BlockSize, p: Partition)
    requires IsSquare(b) && b >= BLOCK_8X8 && p != PartitionInvalid
    ensures 0 <= GetSubsize(b, p) < BLOCK_SIZES
    ensures PartitionLookup(BWidthLog2(b), GetSubsize(b, p)) == p
  {
    assert b == 3 || b == 6 || b == 9 || b == 12;
  }

  /** Conversely, a size that a square block's row of partition_lookup maps
      to a shape other than SPLIT is exactly that shape's subsize. */
  lemma {:induction false} SubsizeInvertsLookup(b: BlockSize, sub: BlockSize)
    requires IsSquare(b) && b >= BLOCK_8X8
    requires PartitionLookup(BWidthLog2(b), sub) in {PartitionNone, PartitionHorz, PartitionVert}
    ensures GetSubsize(b, PartitionLookup(BWidthLog2(b), sub)) == sub
  {
    assert b == 3 || b == 6 || b == 9 || b == 12;
  }
}
