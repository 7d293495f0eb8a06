# Partition search of the VP10 encoder, in Dafny

This project models the superblock partitioning core of libvpx's
experimental VP10 encoder, `vp10/encoder/encodeframe.c`, and proves
properties of that model. It covers:

- the mode-info grid that the partition writers fill, `cm->mi` and
  `cm->mi_grid_visible`: `set_offsets`, `set_block_size` and the two fixed
  partitioners `set_fixed_partitioning` and `set_partial_b64x64_partition`;
- the variance-based partitioner: the variance tree (`fill_variance`,
  `get_variance`, `sum_2_variances`, `fill_variance_tree`), the thresholds
  (`set_vbp_thresholds`, `vp10_set_variance_partition_thresholds`),
  `compute_minmax_8x8`, `set_vt_partitioning` and `choose_partitioning`,
  including its inter-frame seed and its `force_split` bookkeeping;
- the partition-size ranges: `find_partition_size`,
  `get_sb_partition_size_range`, `rd_auto_partition_range` and
  `set_partition_range`;
- the entropy-context snapshot: `save_context` and `restore_context`;
- the rate-distortion searches: `rd_pick_sb_modes` as an oracle,
  `rd_pick_partition`, `rd_use_partition` and the blocks that `encode_sb`
  codes for a decided tree;
- the state commit: `update_state`, the transform-size fill of
  `encode_superblock` and `reset_skip_tx_size`;
- the frame-level decisions: `get_frame_type`, `select_tx_mode`,
  `check_dual_ref_flags`, `get_interp_filter`, reference-mode selection,
  threshold averaging, the transform-mode downgrade of `vp10_encode_frame`,
  and `vp10_init_tile_data`.

Code that changes state in place is modelled imperatively:

- the grid is a class `Grid` over arrays;
- the context arrays and the local save buffers are the classes
  `MacroblockContexts` and `ContextBuffers`;
- the tile tables are the classes `TileDataEnc` and `TileState`;
- the `force_split` and histogram arrays are Dafny arrays.

Each method is proved against a specification function on values. The
searches are recursive C functions whose loops and comparisons are written
as methods. They are proved equal to recursive functions (`Pick`, `Use`),
and the properties are proved about those functions.

The files, one module each:

| file | module | models |
|---|---|---|
| blocks.dfy | Blocks | block sizes, the lookup tables, `get_subsize` and `partition_lookup` |
| grid.dfy | ModeInfoGrid | the mode-info grid, `set_offsets`, `set_block_size` |
| variance.dfy | Variance | the variance tree, the thresholds, `compute_minmax_8x8` |
| vt_partition.dfy | VtPartition | `set_vt_partitioning` |
| choose_partitioning.dfy | ChoosePartitioning | `choose_partitioning` |
| partition_size.dfy | PartitionSize | `get_rd_var_based_fixed_partition`, `find_partition_size`, the fixed partitioners |
| partition_range.dfy | PartitionRange | the partition-size ranges |
| context.dfy | Context | `save_context`, `restore_context` |
| rd_common.dfy | RdCommon | RD costs, the mode-search oracle, `PC_TREE`, `encode_sb` |
| rd_pick.dfy | RdPick | `rd_pick_partition` |
| rd_use.dfy | RdUse | `rd_use_partition` |
| commit.dfy | Commit | `update_state`, the transform-size fill, `reset_skip_tx_size` |
| frame_decisions.dfy | FrameDecisions | the frame-level decisions of `vp10_encode_frame`, `vp10_init_tile_data` |

## Model

| member | source | states |
|---|---|---|
| Blocks.TablesAgree | vp10/encoder/encodeframe.c:226-237 | the closed forms used for the block-dimension lookups and max_txsize_lookup agree with the tables entry by entry |
| Blocks.LookupInvertsSubsize | vp10/encoder/encodeframe.c:2041-2047 | for a square block from 8X8 up, partition_lookup of get_subsize gives every valid shape back, which encode_sb relies on to read the shape from the size |
| Blocks.SubsizeInvertsLookup | vp10/encoder/encodeframe.c:2308-2309 | conversely, a size that partition_lookup maps to NONE, HORZ or VERT is exactly that shape's get_subsize, as rd_use_partition reads it |
| ModeInfoGrid.IndexInjective | vp10/encoder/encodeframe.c:208-218 | distinct cells of the grid have distinct indices into mi_grid_visible and mi |
| ModeInfoGrid.OffsetsLocal | vp10/encoder/encodeframe.c:220-281 | set_offsets points the block's cell at its own record, sets the segment id it was given, and changes no other cell or record |
| ModeInfoGrid.SetOffsets | vp10/encoder/encodeframe.c:208-218 | the grid after set_offsets is Offsets of the grid before |
| ModeInfoGrid.SetBlockSize | vp10/encoder/encodeframe.c:357-366 | set_block_size marks only a cell inside the frame, as SetSize states |
| ModeInfoGrid.PlaceAllOnlySizes | vp10/encoder/encodeframe.c:357-366 | a run of set_block_size calls changes nothing in a record but its sb_type |
| ModeInfoGrid.PlaceAllPointsHome | vp10/encoder/encodeframe.c:357-366 | a run of set_block_size calls leaves each cell's pointer alone or points it at the cell's own record |
| ModeInfoGrid.PlaceAllConcat | vp10/encoder/encodeframe.c:357-366 | two runs of set_block_size calls one after the other are the run of their concatenation |
| Variance.AvgLeafBuilt | vp10/encoder/encodeframe.c:676-752 | a leaf filled by fill_variance_4x4avg or fill_variance_8x8avg holds the sums of the single value it measures: the source average minus the reference average (128 on key frames) inside the frame, 0 outside |
| Variance.Sum2Built | vp10/encoder/encodeframe.c:475-479 | sum_2_variances of two nodes is the node of their concatenated leaves with one more level of count |
| Variance.FillTreeBuilt | vp10/encoder/encodeframe.c:481-491 | fill_variance_tree makes each half and the whole block the node of exactly the leaves it covers |
| Variance.VarianceNonNegative | vp10/encoder/encodeframe.c:470-473 | get_variance of a node built from leaves is never negative |
| Variance.VarianceZeroIffFlat | vp10/encoder/encodeframe.c:470-473 | up to 256 leaves, get_variance is zero exactly when all leaf values are equal |
| Variance.VarianceFitsInt | vp10/encoder/encodeframe.c:464-473 | with leaves that are differences of 8-bit averages, the variance is at most 256 * 255^2 and fits the int it is stored in |
| Variance.SetVbpThresholds | vp10/encoder/encodeframe.c:583-607 | a non-key frame leaves the 8x8 threshold as it was |
| Variance.ThresholdsOrdered | vp10/encoder/encodeframe.c:583-607 | the thresholds are non-negative; on key frames the 32x32 and 16x16 ones are equal and at most the 64x64 one, which is at most the 8x8 one; on other frames the 64x64 one is at most the 32x32 one, which is at most the 16x16 one at low resolution or speed 1 and up |
| Variance.SetVariancePartitionThresholds | vp10/encoder/encodeframe.c:609-632 | nothing changes unless the partition search type is variance-based or reference-based |
| Variance.VariancePartitionThresholdsProps | vp10/encoder/encodeframe.c:609-632 | the minimum classifier size is 8X8 exactly on key frames; the SAD threshold is 0 on key frames and at least 1000 and twice the dequantiser above CIF; the min/max threshold lies in 15..15+q and grows with q |
| Variance.ComputeMinmax8x8 | vp10/encoder/encodeframe.c:635-674 | the loop returns the largest in-frame 8x8 range minus the smallest, folded from 0 and 255 |
| Variance.MinmaxSpread | vp10/encoder/encodeframe.c:635-674 | with 8-bit ranges the spread lies in 0..255, is the difference of two in-frame ranges and bounds all such differences; with no quadrant in the frame it is -255 |
| VtPartition.ShapePlacements | vp10/encoder/encodeframe.c:493-577 | the set_block_size calls that keep a shape: one for NONE and two for a split into halves, each of the shape's subsize and inside the block |
| VtPartition.VtChoice | vp10/encoder/encodeframe.c:493-577 | a forced split, a block below the minimum size and a key-frame block over the threshold are not kept; a kept shape has all its variances below the threshold, and a kept half split needs a block above the minimum and a valid chroma size |
| VtPartition.VtPreference | vp10/encoder/encodeframe.c:493-577 | NONE is kept whenever both halves of the block start inside the frame and its variance is below the threshold; HORZ is kept only when VERT does not qualify; a block above the minimum size is refused only when HORZ does not qualify either |
| VtPartition.SetVtPartitioning | vp10/encoder/encodeframe.c:493-577 | returns whether VtChoice kept the block, and the grid holds exactly the kept shape's set_block_size calls, or is unchanged |
| ChoosePartitioning.PixelsInsideIsClamped | vp10/encoder/encodeframe.c:794-797 | pixels_wide and pixels_high are the pixels left in the frame, capped at 64 |
| ChoosePartitioning.Tree | vp10/encoder/encodeframe.c:899-970 | a variance tree built from the leaves up has counted nodes whose whole-block count is 4^levels leaves |
| ChoosePartitioning.ForceSplitUpwardClosed | vp10/encoder/encodeframe.c:899-998 | a 16x16 block that votes for a split forces its 32x32 block, and a forced 32x32 block forces the 64x64 one |
| ChoosePartitioning.Vote16 | vp10/encoder/encodeframe.c:924-968 | one 16x16 block sets its own flag and down-sampling flag, raises its parent's and the superblock's flags on a vote, and leaves every other entry alone |
| ChoosePartitioning.FirstPass | vp10/encoder/encodeframe.c:899-970 | the first loop leaves every 16x16 flag and down-sampling flag as its block decides, and each 32x32 flag and the 64x64 flag raised exactly by the votes beneath them |
| ChoosePartitioning.SecondPass | vp10/encoder/encodeframe.c:973-998 | the second loop forces a 32x32 block over its threshold and forces the 64x64 block whenever a 32x32 block is forced, leaving the 16x16 flags alone |
| ChoosePartitioning.ForceSplitFlags | vp10/encoder/encodeframe.c:899-998 | the two loops fill force_split[21] and variance4x4downsample[16] entry by entry with the flags the votes and thresholds define |
| ChoosePartitioning.CascadeGood | vp10/encoder/encodeframe.c:1002-1053 | every block the cascade sets lies inside its square and is never below 4X4 on key frames or 8X8 on other frames, nor above the level's size |
| ChoosePartitioning.SbPlacementsGood | vp10/encoder/encodeframe.c:866-1053 | every block choose_partitioning sets lies inside the superblock |
| ChoosePartitioning.SeedSad | vp10/encoder/encodeframe.c:815-840 | y_sad after the reference choice is the smaller of the LAST and GOLDEN SADs |
| ChoosePartitioning.SeedRecordChoosesReference | vp10/encoder/encodeframe.c:815-840 | the seeded record is a single-reference 64X64 BILINEAR inter block on GOLDEN exactly when GOLDEN's SAD is strictly smaller, with a zero vector on GOLDEN and the searched vector on LAST, other fields untouched |
| ChoosePartitioning.SeedSurvivesCascade | vp10/encoder/encodeframe.c:792-1053 | whatever the cascade sets, the superblock's cell still points at its own record, and on inter frames that record keeps the seed in everything but its size |
| ChoosePartitioning.SeedSb | vp10/encoder/encodeframe.c:828-839 | the seed writes on the superblock's record are Seeded of the grid before |
| ChoosePartitioning.Place64 | vp10/encoder/encodeframe.c:1002-1053 | the nested loops of the cascade make exactly the set_block_size calls of Cascade from the 64x64 block down |
| ChoosePartitioning.PartitionByVariance | vp10/encoder/encodeframe.c:899-1053 | building the tree, filling force_split and running the cascade makes exactly the calls of VarianceCascade |
| ChoosePartitioning.ChoosePartitioningSb | vp10/encoder/encodeframe.c:756-1055 | with the segment and thresholds SettleSb derives, after set_offsets and, on inter frames, the seed, the grid holds exactly the sizes of SbPlacements: the whole superblock on the low-SAD shortcut, otherwise the cascade |
| ChoosePartitioning.SettleSb | vp10/encoder/encodeframe.c:770-789 | the superblock's segment is the map's under cyclic-refresh AQ with segmentation and the base segment otherwise; a boosted segment gets set_vbp_thresholds of its own qindex, any other the frame's thresholds |
| ChoosePartitioning.BoostedSegmentRules | vp10/encoder/encodeframe.c:780-789 | a boosted superblock never takes the low-SAD shortcut (866), its 16x16 blocks vote on the 16x16 threshold alone (933), and an inter frame keeps the frame's 8x8 threshold; outside cyclic refresh the base segment and the frame's thresholds apply |
| PartitionSize.RdVarBasedFixedPartition | vp10/encoder/encodeframe.c:189-204 | the fixed size chosen from the source variance is square and at least 8X8 |
| PartitionSize.VarBasedMonotone | vp10/encoder/encodeframe.c:189-204 | a busier block never gets a larger size, and every square size from 8X8 to 64X64 is chosen for some variance |
| PartitionSize.FindPartitionSizeProps | vp10/encoder/encodeframe.c:2190-2205 | the result is never above the input; with no rows or columns left it is min(bsize, 8X8); otherwise it keeps the shape, fits what is left and is the largest such size, and *bh and *bw hold its dimensions whenever the loop ran |
| PartitionSize.FindPartitionSize | vp10/encoder/encodeframe.c:2190-2205 | the loop returns PartitionSizeFor's size, *bh and *bw |
| PartitionSize.SetPartialB64x64Partition | vp10/encoder/encodeframe.c:2207-2221 | the walk makes exactly the writes PartialCells lists, in order |
| PartitionSize.PartialCellsGood | vp10/encoder/encodeframe.c:2207-2221 | every write of a partial superblock lies inside it and is never larger than bsize; inside the tile it is the largest size of bsize's shape that fits, outside it is min(bsize, 8X8) |
| PartitionSize.SetFixedPartitioning | vp10/encoder/encodeframe.c:2228-2257 | a superblock wholly inside the tile gets the writes of FixedCells, any other the writes of PartialCells |
| PartitionSize.WholeSuperblockSized | vp10/encoder/encodeframe.c:2240-2250 | every write of a whole superblock lies inside it and has size bsize |
| PartitionSize.WholeSuperblockCovers | vp10/encoder/encodeframe.c:2240-2250 | every cell on the bsize lattice of a whole superblock is written |
| PartitionRange.RelaxBrackets | vp10/encoder/encodeframe.c:2665-2687 | min_partition_size and max_partition_size of a size are squares with the size between them |
| PartitionRange.NextSquareLargest | vp10/encoder/encodeframe.c:2712-2718 | next_square_size is the largest square size not above its argument |
| PartitionRange.ViewMinIsMin | vp10/encoder/encodeframe.c:2689-2709 | the folded minimum is at most the start and every entry, and is one of them |
| PartitionRange.ViewMaxIsMax | vp10/encoder/encodeframe.c:2689-2709 | the folded maximum is at least the start and every entry, and is one of them |
| PartitionRange.GetSbPartitionSizeRange | vp10/encoder/encodeframe.c:2689-2709 | the loops fold the view into the running min and max, a null pointer counting as 4X4, and add each size's count to bs_hist |
| PartitionRange.AutoRangeOrdered | vp10/encoder/encodeframe.c:2722-2796 | rd_auto_partition_range ends with min at most max, a max no larger than the observed one, and a max that fits the rows and columns left in the tile |
| PartitionRange.ObservedFromPrevious | vp10/encoder/encodeframe.c:2744-2757 | an inter frame without neighbours takes its range from the previous frame alone, min at most max |
| PartitionRange.RdAutoPartitionRange | vp10/encoder/encodeframe.c:2722-2796 | the method returns AutoRange's min and max |
| PartitionRange.PartitionRangeOrdered | vp10/encoder/encodeframe.c:2799-2850 | with anything to look at the min is at most the max, and with nothing it returns 64X64 and 4X4 |
| PartitionRange.SetPartitionRange | vp10/encoder/encodeframe.c:2799-2850 | the method returns PartitionRangeOf's min and max |
| Context.RestoreAfterSave | vp10/encoder/encodeframe.c:1923-2001 | restore_context after save_context on the same block returns every saved window of the six contexts to its value at the save, whatever was written in between |
| Context.RestoreKeepsOutside | vp10/encoder/encodeframe.c:1923-1960 | restore_context writes only the block's windows |
| Context.RestoreSavedIsIdentity | vp10/encoder/encodeframe.c:1923-2001 | restoring straight after saving leaves the contexts as they were |
| Context.PlaneSpansOk | vp10/encoder/encodeframe.c:1962-2001 | the per-plane copies fit their arrays, do not overlap on either side, and the restore copies mirror the save copies |
| Context.MacroblockContexts.SaveContext | vp10/encoder/encodeframe.c:1962-2001 | the local buffers after save_context are SaveOf of the contexts |
| Context.MacroblockContexts.RestoreContext | vp10/encoder/encodeframe.c:1923-1960 | the contexts after restore_context are RestoreOf of the buffers |
| RdCommon.SbModes | vp10/encoder/encodeframe.c:1526-1679 | an infeasible mode search (rate INT_MAX) reports the RD cost INT64_MAX; a feasible one is the search's own result |
| RdCommon.SbModesInfeasibleLoses | vp10/encoder/encodeframe.c:1662-1675 | an infeasible result never wins a strict comparison against any best cost up to INT64_MAX |
| RdCommon.EncodeSbLaid | vp10/encoder/encodeframe.c:2022-2185 | encode_sb codes blocks that start inside the frame, lie inside the block being coded and never overlap |
| RdPick.AllowedShapesSound | vp10/encoder/encodeframe.c:2939-2998 | NONE is tried only when both halves of the block start inside the frame; HORZ only when the right half does, VERT only when the bottom half does, each from 8X8 up and following the chroma subsampling; SPLIT exactly from 8X8 up and, with automatic bounds, above the minimum size; the bounds limit NONE, square-only allows rectangles only at the edges, and away from the edges without bounds NONE is always tried |
| RdPick.LeadIsFirstMinimum | vp10/encoder/encodeframe.c:3083-3620 | the running best is the first outcome with the least priced cost below the budget, or the budget when none beats it |
| RdPick.PickFollowsLead | vp10/encoder/encodeframe.c:2908-3655 | rd_pick_partition returns the first cheapest priced shape below the budget, with the tree's shape set to it, or else the reset cost carrying the budget and the shape it was given |
| RdPick.PickWithinBudget | vp10/encoder/encodeframe.c:2908-3655 | the returned RD cost never exceeds the budget |
| RdPick.PickPricedSummed | vp10/encoder/encodeframe.c:3066-3620 | every priced shape is made of feasible parts and costs their summed rate plus its signalling cost, with the RD cost recomputed |
| RdPick.PickCodes | vp10/encoder/encodeframe.c:3640-3646 | only a feasible result is coded, never the last quarter of a parent, and the coded blocks lie inside the block, are disjoint and start in the frame |
| RdPick.SplitLoopSummed | vp10/encoder/encodeframe.c:3248-3292 | the SPLIT loop's sum is its feasible quarters' sum, unless it stopped early at an infeasible quarter with INT64_MAX |
| RdPick.RdPickPartition | vp10/encoder/encodeframe.c:2908-3655 | the method's stages in order NONE, SPLIT, HORZ, VERT compute Pick's result |
| RdPick.TryNone | vp10/encoder/encodeframe.c:3066-3170 | the NONE stage method computes NoneStage, the stage Pick runs first |
| RdPick.SplitSearch | vp10/encoder/encodeframe.c:3173-3369 | the SPLIT stage method computes SplitStage, the stage Pick runs second |
| RdPick.TryRect | vp10/encoder/encodeframe.c:3371-3499 | the HORZ and VERT stage method computes RectStage, the stages Pick runs last |
| RdUse.QuarterOffsetsAgree | vp10/encoder/encodeframe.c:2276-2277 | rd_use_partition's quarter offset mi_step >> 1, taken from the 4x4 count, equals rd_pick_partition's mi_step, taken from the 8x8 count: half the block's width in cells (0 for 8X8). Its mi_step is the width in cells (1 for 8X8) |
| RdUse.NoneCandidate | vp10/encoder/encodeframe.c:2345-2366 | none_rdc, when priced, is its part plus the cost of signalling NONE; an infeasible part leaves it at INT64_MAX |
| RdUse.LastPart | vp10/encoder/encodeframe.c:2376-2519 | last_part_rdc, when priced, is its parts plus the cost of signalling the grid's shape; a failed part leaves it at INT64_MAX |
| RdUse.Quarters | vp10/encoder/encodeframe.c:2460-2513 | the loop over the SPLIT quarters holds the reset cost after a failure and otherwise exactly the sum of its parts |
| RdUse.QuartersStopped | vp10/encoder/encodeframe.c:2493-2499 | once a failed quarter has ended the loop, later quarters change nothing |
| RdUse.SplitTrial | vp10/encoder/encodeframe.c:2526-2613 | the one-level split trial, when priced, sums feasible quarters, each paying for NONE, plus the cost of SPLIT; a failed quarter leaves it at INT64_MAX |
| RdUse.TrialsStopped | vp10/encoder/encodeframe.c:2580-2585 | once a trial quarter has failed, later quarters change nothing |
| RdUse.UseSelects | vp10/encoder/encodeframe.c:2618-2633 | the result is the cheapest of the split trial, last_part and none_rdc; each later one replaces only when strictly cheaper, and the tree's shape follows the winner |
| RdUse.UseFailedPartsLose | vp10/encoder/encodeframe.c:2618-2633 | a candidate with a failed part costs INT64_MAX, and a finite result comes from a candidate whose parts were all feasible |
| RdUse.UseCodes | vp10/encoder/encodeframe.c:2645-2656 | the block's own closing encode_sb runs only when it is asked to reconstruct, and what it codes lies inside the block, is disjoint and starts in the frame |
| RdUse.RdUsePartition | vp10/encoder/encodeframe.c:2259-2663 | the method computes Use's result |
| Commit.CommittedReadsBack | vp10/encoder/encodeframe.c:1089-1136 | after update_state every in-frame cell of the block points at the block's record, which holds the committed mode info; every other cell points where it did |
| Commit.CommittedRecordKeepsMode | vp10/encoder/encodeframe.c:1089-1147 | the committed record keeps the picked size, references, filter, skip flag and transform size; only the segment id and, below 8X8, the vectors (from the last sub-block) change |
| Commit.CommittedAnchored | vp10/encoder/encodeframe.c:1130-1136 | update_state keeps every in-frame cell NULL or pointing at the record of an in-frame cell at or above and to the left of it |
| Commit.OffsetsAnchored | vp10/encoder/encodeframe.c:208-218 | set_offsets keeps the grid anchored |
| Commit.SetSizeAnchored | vp10/encoder/encodeframe.c:357-366 | set_block_size keeps the grid anchored |
| Commit.EdgeCellsExact | vp10/encoder/encodeframe.c:1130-1136 | the edge distance shifted back to cells is the number of cells left past the block |
| Commit.AliasBlock | vp10/encoder/encodeframe.c:1130-1136 | the restore loop points every in-frame cell of the block at the block's record |
| Commit.FillFrameMvs | vp10/encoder/encodeframe.c:1199-1208 | the frame_mvs loop writes the picked references and vectors into the x_mis by y_mis cells of the block |
| Commit.UpdateState | vp10/encoder/encodeframe.c:1057-1209 | the grid after update_state is Committed of the grid before, and the motion-vector field changes only when output is enabled |
| Commit.FillTxSizeFits | vp10/encoder/encodeframe.c:4513-4537 | the fill is skipped exactly for a TX_MODE_SELECT block from 8X8 up that is not a skipped inter block; an inter block gets the largest size its block and the frame's mode allow; an intra block keeps its size, or TX_4X4 below 8X8 |
| Commit.TxFilledReadsBack | vp10/encoder/encodeframe.c:4524-4537 | after the fill every in-frame cell of the block reads the filled size, and the record is otherwise unchanged |
| Commit.TxSizeFill | vp10/encoder/encodeframe.c:4524-4537 | the fill loop sets the block's record's transform size to FillTxSize's answer |
| Commit.ResetSkipTxSize | vp10/encoder/encodeframe.c:3806-3817 | the walk over the frame's cells caps every pointed-at record's transform size, as ResetSkipTx states |
| Commit.ResetSkipTxCaps | vp10/encoder/encodeframe.c:3806-3817 | after the reset every in-frame cell reads a transform size of at most max_tx_size, its old size when that already fitted, and nothing else changes |
| Commit.ResetSkipTxIdempotent | vp10/encoder/encodeframe.c:3806-3817 | the reset never raises a transform size, and a second reset with the same cap changes nothing |
| FrameDecisions.FrameTypeCases | vp10/encoder/encodeframe.c:3820-3831 | the frame type is INTRA exactly for intra-only frames, ALTREF for an alt-ref source refreshing golden, GOLDEN for other golden or alt-ref refreshes, and LAST otherwise |
| FrameDecisions.SelectTxModeCases | vp10/encoder/encodeframe.c:3833-3843 | a lossless frame uses ONLY_4X4; otherwise USE_LARGESTALL picks ALLOW_32X32, the full-RD and 8x8 searches pick TX_MODE_SELECT, and any other method keeps the current mode |
| FrameDecisions.DualRefMeansTwoReferences | vp10/encoder/encodeframe.c:3788-3803 | dual references are available exactly when the segment's reference feature is off and at least two of LAST, GOLDEN and ALTREF are enabled |
| FrameDecisions.ReferenceModeDominates | vp10/encoder/encodeframe.c:4099-4110 | single reference without a parameter update, on alt-ref frames or without compound prediction; compound only with dual references, a fully static frame and a compound threshold strictly above both others; select only when its threshold is at least single's, and single otherwise only when its threshold is strictly above select's |
| FrameDecisions.FrameReferenceModeSound | vp10/encoder/encodeframe.c:4054-4110 | with allow_comp_inter_inter from the sign biases, the frame type's threshold row and check_dual_ref_flags: compound needs an inter frame that is not an alt-ref source refreshing golden, ALTREF's bias opposite to both others, two usable references and the winning threshold; an intra-only frame or an ALTREF bias equal to LAST's or GOLDEN's always gives single; select needs the opposite biases too |
| FrameDecisions.ReferenceModeFromCountsSound | vp10/encoder/encodeframe.c:4124-4141 | only REFERENCE_MODE_SELECT is corrected; it stays exactly when both kinds were used, and a replacement is the kind that was used |
| FrameDecisions.FinalReferenceMode | vp10/encoder/encodeframe.c:4124-4141 | the counting loop over the comp_inter contexts yields ReferenceModeFromCounts of the column sums |
| FrameDecisions.InterpFilterIsBest | vp10/encoder/encodeframe.c:4019-4043 | the frame's filter has the largest threshold of the eligible filters and strictly beats SWITCHABLE's; SWITCHABLE stays exactly when no eligible filter beats it |
| FrameDecisions.CDivTruncates | vp10/encoder/encodeframe.c:4119 | C's division truncates: the remainder takes the dividend's sign and is smaller than the divisor |
| FrameDecisions.AverageBetween | vp10/encoder/encodeframe.c:4116-4123 | the new threshold lies between the old one and the frame's per-block difference |
| FrameDecisions.AverageThresholds | vp10/encoder/encodeframe.c:4116-4123 | the averaging loop sets every threshold to the average of its old value and its per-block difference |
| FrameDecisions.DowngradeKeepsUsedSizes | vp10/encoder/encodeframe.c:4143-4190 | the downgrade only lowers TX_MODE_SELECT, never drops a size a block used, and caps at exactly the new mode's largest size |
| FrameDecisions.SumTxCounts | vp10/encoder/encodeframe.c:4144-4161 | the counting loop yields TotalsOf the per-context counts |
| FrameDecisions.FinishTxMode | vp10/encoder/encodeframe.c:4143-4190 | the new transform mode is the downgrade's, and the grid is reset to the new largest size exactly when the downgrade caps it |
| FrameDecisions.TokenRangesDisjoint | vp10/encoder/encodeframe.c:3874-3884 | a later tile's tokens start at or after the end of an earlier tile's allocation |
| FrameDecisions.TileState.InitTileData | vp10/encoder/encodeframe.c:3845-3885 | the tile tables are reallocated and initialised (factors 32, identity mode maps) exactly when there are none or too few, otherwise kept; the token offsets are laid out one after another |

## Left out

- I/O, SIMD and the pixel kernels are inputs, not models: the variance and SAD kernels, `vpx_minmax_8x8`, the integral-projection motion search, `ySad` and `chromaValid`. The results of these calls are parameters (`SbKernels`, `SeedSearch`, `MinmaxKernel`, `VtFrame.chromaValid`).
- The mode pickers behind `rd_pick_sb_modes` (`vp10_rd_pick_intra_mode_sb` and the inter pickers), `RDCOST`, `partition_cost` and `partition_plane_context` are opaque functions in `Coder`. The mode oracle `Coder.modes` depends on the block's position, size and budget only, not on context state. So the `update_state` and `encode_superblock` calls between the rectangular halves, the `encode_sb` calls on quarters 0-2 of `rd_use_partition`'s split trial (encodeframe.c:2596, made whatever `do_recon` is), and the `save_context`/`restore_context` pairs around each search in `rd_pick_partition` and `rd_use_partition`, are not modelled inside the searches. Their geometry is modelled on its own in context.dfy and commit.dfy.
- RdCommon.SbModes: does not model the stores into the `PICK_MODE_CONTEXT` (`ctx`), the AQ rate-multiplier changes or the source-variance computation of `rd_pick_sb_modes`.
- RdCommon.EncodeSb: does not model the `td->counts->partition` update or `update_partition_context` of `encode_sb` (encodeframe.c:2022-2185). It models only which blocks `encode_b` codes.
- RdUse.RdUsePartition: uses one position-only partition context `pl` for NONE, last_part and the split trial. The C code re-reads `pl` at encodeframe.c:2355, 2514, 2599 and 2606, and the reads at 2514, 2599 and 2606 come after `encode_sb` calls have rewritten the partition contexts. The model can therefore add a different `partition_cost[pl][·]` from the C code's. LastPart and SplitTrial share this limitation.
- RdUse.RdUsePartition: the square-size assertion and the callers' guarantee that bsize is at least 8X8 are a precondition. When a block starts outside the frame, the C code returns without writing `*rate` and `*dist`. The model returns a zero cost instead, which no caller reads.
- RdPick.RdPickPartition: `SizeRange`'s `rangeAt` (`set_partition_range` at a 16X16 block) is a parameter of `Features`. Nothing ties it to `PartitionRange.SetPartitionRange`, which is proved on its own.
- RdPick.RdPickPartition: the `adaptive_pred_interp_filter`/`pred_interp_filter` stores, `store_pred_mv`/`load_pred_mv` and the motion-vector predictor bookkeeping are not modelled. They change no decision of the model.
- CONFIG_SUPERTX, CONFIG_VAR_TX, CONFIG_EXT_INTERP, CONFIG_EXT_REFS, CONFIG_EXT_TX and the first-pass macroblock statistics (`FP_MB_STATS`) are left out. The model mixes two builds on one point: context.dfy copies the CONFIG_VAR_TX transform-size contexts in save/restore, while `reset_skip_tx_size` (encodeframe.c:3805) and the transform-mode downgrade (4142) exist only when CONFIG_VAR_TX is off.
- C integer widths: the int64 RD costs and the INT_MAX/INT64_MAX sentinels are unbounded `int`s carrying those constant values. Overflow of the summed rates and distortions is not modelled.
- FrameDecisions.FinalReferenceMode: does not model the `vp10_zero(counts->comp_inter)` that clears the counts when the mode is corrected (encodeframe.c:4134 and 4137), since no modelled decision reads those counts afterwards.
- Commit.UpdateState: does not model the statistics counters (`rd_counts`, `td->counts`), the RD-threshold and mode-count updates, the coefficient-buffer pointer swaps, `x->skip`, the `zcoeff_blk` copy, `mbmi_ext` or the cyclic-refresh and AQ segment oracles. The segment id written is a parameter.
- Commit.TxSizeFill: models only the `output_enabled` branch of `encode_superblock` (encodeframe.c:4513), where the fill happens. Two counts in that same branch are not modelled: the `get_tx_counts` increment on the TX_MODE_SELECT branch (4522-4523) and the `tx_totals` increments (4538-4539). With output disabled, that section does nothing.
- FrameDecisions.TileState.InitTileData: `vp10_tile_init` and the tile bounds it computes are not modelled. The token allocation per tile (`allocated_tokens`) is a parameter.
- The quantiser set-up (`vp10_init_quantizer`, `y_dequant`) is not modelled. The dequantiser is a parameter of the threshold functions.
- ChoosePartitioning.SettleSb: the segment-map read (`get_segment_id` on `segmentation_map` or `last_frame_seg_map`) and the segment's qindex (`vp10_get_qindex`) are not modelled. Their results are the parameters `mapSegment` and `segmentDequant` of `SbConfig`. Under cyclic refresh with segmentation, `set_offsets` reads the same map at the same 64X64 position (encodeframe.c:264-269). The `segment` that `ChoosePartitioningSb` passes to it is a separate parameter that nothing ties to `mapSegment`.
- ChoosePartitioning.ChoosePartitioningSb: does not model the writes of `x->pred_mv[LAST_FRAME]` (encodeframe.c:842) and `x->color_sensitivity[]` (858). They feed later mode searches, not a partition decision.
- PartitionRange.RdAutoPartitionRange: `*bh` and `*bw`, which `find_partition_size` may leave unset, start at 0, since nothing reads them afterwards.
- The lookup tables from `common_data.h` and the encoder's headers (block dimensions, `subsize_lookup`, `partition_lookup`, `max_txsize_lookup`, `tx_mode_to_biggest_tx_size`, `min/max_partition_size`, `next_square_size`) and constants such as `SWITCHABLE_FILTER_CONTEXTS` (4) are written out from libvpx. Their header files are not part of this model.
- `PC_TREE` is a value (`PcTree`) holding only the shape, the index among siblings and the four children. The per-shape `PICK_MODE_CONTEXT`s are not modelled.
- The threading, the row loop `encode_rd_sb_row`/`encode_nonrd_sb_row`, `encode_tiles`, the non-RD partitioners and the first pass are outside the modelled core.
