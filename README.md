# Temporal-block dataset and anchor targets, in Dafny

This project models two pieces of an MMDetection fork for video object detection:

- **`CustomBlockDataset`** (`mmdet/datasets/custom_block.py`). A detection dataset whose every sample is a *block* of frames around an annotated centre frame:
  - The neighbours are found by shifting the centre's frame number by multiples of `block_gap`. They are named with `'%06d'` and the centre's extension.
  - Missing neighbours are patched from the centre outward.
  - The dataset also drops small images and keeps the proposals aligned with them. It sets aspect-ratio group flags and resamples skipped images within their group. It truncates the proposals and checks their column count.
- **Anchor targets** (`mmdet/core/anchor/anchor_target.py`). The region-proposal training targets:
  - which anchors lie inside the image (`anchor_inside_flags`);
  - the label, label-weight, regression-target and regression-weight buffers, written at the sampled positive and negative anchors (`anchor_target_single`);
  - the scatter of those buffers back to all anchors (`unmap`);
  - the in-place concatenation of each image's per-level anchors, the cut of the stacked targets into per-level slices (`images_to_levels`), and the batch's positive and negative counts (`anchor_target`).

Files, one module each:

| file | module | what |
|---|---|---|
| `wrappers.dfy` | `Wrappers` | `Option`, `Result` |
| `boxes.dfy` | `Boxes` | `(x1, y1, x2, y2)` rows |
| `decimal.dfy` | `Decimal` | `str.isdigit`, `int(...)`, `'%06d'`, their round trips |
| `frame_block.dfy` | `FrameBlock` | the neighbour window of a block and its gap filling |
| `proposals.dfy` | `Proposals` | `[:n]` truncation, the 4/5-column split of proposals |
| `custom_block.dfy` | `CustomBlock` | the class `CustomBlockDataset` |
| `masks.dfy` | `Masks` | boolean-mask selection and `unmap` |
| `levels.dfy` | `Levels` | `torch.cat` of levels and `images_to_levels` |
| `anchor_target.dfy` | `AnchorTarget` | inside flags, target buffers, `anchor_target_single`, `anchor_target` |

The outside world is passed in as parameters:

- **Paths.** `osp.join`, `dirname`, `basename` and `splitext` are given string functions. `osp.exists` is membership in a given set of files (`FrameBlock.Host`).
- **Randomness.** `np.random.choice` is a nondeterministic pick from the pool.
- **Assigner and sampler.** Their output (positive and negative indices, and the gt box assigned to each positive) is an input.
- **`bbox2delta`.** A given function of an anchor and a gt box.

Errors the source raises are `Err` values (`DatasetError`, `AnchorError`, `FillError`, `ShapeError`), not preconditions.

How the code is read where a plain description would differ:

- **Half-window size.** `hf_size = int((block_size - 1) / 2)` is true division followed by truncation toward zero, not floor division. `block_size = 0` gives `hf = 0`, a one-frame window. A negative `block_size` gives a negative `hf`: the window is empty and the block cannot be stacked (`EmptyBlock`).
- **Odd and even blocks.** An odd `block_size` gives exactly `block_size` frames. An even one gives one fewer.
- **`'%06d'` and `int`.** `'%06d'` of a negative number pads after the sign (`-00005`). `int` accepts an optional sign.
- **`int(fname)` in test mode.** This is called unconditionally, so a non-numeric stem is an error there, while training repeats the centre frame instead.
- **Windows of the two modes.** The test window rebuilds and probes even the centre slot. It equals the training window only for stems that `'%06d'` reproduces (`FrameBlock.TestWindowMatchesTrain`, `Decimal.StemReformat`).
- **Duplicate sampled indices.** The label-weight assertion of `anchor_target_single` fails exactly when some anchor is sampled twice, as positive or negative (`AnchorTarget.LabelWeightSumIffDistinct`).

## Model

| member | source | states |
|---|---|---|
| `Decimal.ParseInt` | mmdet/datasets/custom_block.py:326 | `int` of a digit string is its decimal value; success implies a non-empty string |
| `Decimal.Format06NonNegative` | mmdet/datasets/custom_block.py:202 | `'%06d'` of a non-negative number is all digits, at least six of them, and reads back as the number |
| `Decimal.Format06RoundTrip` | mmdet/datasets/custom_block.py:202 | `int('%06d' % n) == n` for every integer, negatives included |
| `Decimal.StemReformat` | mmdet/datasets/custom_block.py:189-190 | re-formatting a digit stem's value gives the stem back iff it is six digits, or longer without a leading zero |
| `Decimal.ParseDigitsInjective` | mmdet/datasets/custom_block.py:190 | two digit strings of equal length and equal value are equal |
| `FrameBlock.HalfSizeWindow` | mmdet/datasets/custom_block.py:193 | the window has `block_size` slots for odd sizes, `block_size - 1` for even ones, one for 0, none for negative sizes |
| `FrameBlock.Probe` | mmdet/datasets/custom_block.py:203-206 | a probed name is kept iff the file exists, and is then unchanged |
| `FrameBlock.BuildTrainSlots` | mmdet/datasets/custom_block.py:189-208 | the appended slots are the training window: the centre file at `hf`; elsewhere frame `fidx + (j - hf) * gap` in `'%06d'` if it exists; `None` for a non-digit stem |
| `FrameBlock.BuildTestSlots` | mmdet/datasets/custom_block.py:326-336 | the appended slots are the test window: every slot, the centre included, is the `'%06d'` name of its frame if it exists |
| `FrameBlock.FillGaps` | mmdet/datasets/custom_block.py:210-217 | fails iff the centre slot is empty; otherwise slot `j` receives the name of its nearest non-empty slot towards the centre |
| `FrameBlock.FillLeft` | mmdet/datasets/custom_block.py:212-214 | after the left loop every slot up to the centre holds its nearest non-empty slot towards the centre; the right half is untouched |
| `FrameBlock.FillRight` | mmdet/datasets/custom_block.py:215-217 | after the right loop every slot holds its nearest non-empty slot towards the centre |
| `FrameBlock.NearestIsClosestPresent` | mmdet/datasets/custom_block.py:210-217 | that source slot lies between `j` and the centre, holds a name, is `j` itself when `j` held one, and every slot strictly between is empty |
| `FrameBlock.FilledHasNoGaps` | mmdet/datasets/custom_block.py:210-217 | with the centre present, no slot is `None` after filling |
| `FrameBlock.TrainFrameOrigin` | mmdet/datasets/custom_block.py:195-217 | every training frame is the centre file, or an existing file named after frame `fidx + (k - hf) * gap` for the slot `k` it came from; a non-digit stem repeats the centre |
| `FrameBlock.NearestOrigin` | mmdet/datasets/custom_block.py:210-217 | a filled slot copies a non-empty slot, so it is the centre file, or an existing file of frame `fidx + (k - hf) * gap` for the slot `k` it was copied from |
| `FrameBlock.TestWindowMatchesTrain` | mmdet/datasets/custom_block.py:326-336 | for a canonical numeric stem whose file exists, the test window equals the training window |
| `FrameBlock.TestSlotMatchesTrain` | mmdet/datasets/custom_block.py:326-336 | slot by slot, the test window equals the training window when the centre frame's `'%06d'` name is the existing centre file |
| `Proposals.TakeRows` | mmdet/datasets/custom_block.py:226 | `[:n]` keeps a prefix of the rows and the columns, at most `n` rows for `n >= 0`, all rows when `n` exceeds them |
| `Proposals.SplitScores` | mmdet/datasets/custom_block.py:232-240 | fails iff the column count is not 4 or 5; the boxes are each row's first four values; scores exist iff there are 5 columns and are column 4 |
| `Proposals.SplitHstackRoundTrip` | mmdet/datasets/custom_block.py:280-284 | putting the score column back with `hstack` restores the original rows |
| `CustomBlock.ValidIndicesSpec` | mmdet/datasets/custom_block.py:149-155 | the filtered indices increase strictly and contain `i` iff `min(width, height) >= min_size` |
| `CustomBlock.GatherValidIsLargeImages` | mmdet/datasets/custom_block.py:74-78 | gathering the filtered indices keeps exactly the large-enough images, in order |
| `CustomBlock.LargeImagesAreLarge` | mmdet/datasets/custom_block.py:74-76 | every image the filter keeps has its shorter side at least `min_size` |
| `CustomBlock.GroupIsLandscape` | mmdet/datasets/custom_block.py:166-167 | for a positive height, the group is 1 iff width exceeds height, else 0 |
| `CustomBlock.CustomBlockDataset.Load` | mmdet/datasets/custom_block.py:64-72 | the fields hold the loaded annotations and proposals, before filtering |
| `CustomBlock.CustomBlockDataset.Create` | mmdet/datasets/custom_block.py:64-118 | out-of-range proposal index, bad multiscale mode and flip ratio outside [0, 1] are the errors, each exactly under its condition, in that order; the dataset is built exactly when none holds, and then outside test mode the images are the large-enough ones, the proposals are gathered with the same indices, and the group flags are set (`Valid`) |
| `CustomBlock.CustomBlockDataset.DropSmallImages` | mmdet/datasets/custom_block.py:74-78 | the images become the large-enough ones, in order; the proposals are gathered with the same indices, and an index past the proposals is reported as failure |
| `CustomBlock.CustomBlockDataset.FilterImgs` | mmdet/datasets/custom_block.py:149-155 | the loop returns, in increasing order, exactly the indices whose shorter side is at least `min_size` |
| `CustomBlock.CustomBlockDataset.SetGroupFlag` | mmdet/datasets/custom_block.py:157-167 | a fresh flag array with one entry per image, 1 where `width / height > 1` and 0 elsewhere |
| `CustomBlock.CustomBlockDataset.RandAnother` | mmdet/datasets/custom_block.py:169-171 | the picked index is in range and in the same group as `idx` |
| `CustomBlock.CustomBlockDataset.GetItem` | mmdet/datasets/custom_block.py:173-181 | test mode returns exactly `prepare_test_img(idx)`'s error or sample; training re-raises the error of the index tried, resamples within the group of `idx` only after a skip (`skipped` lists those indices, each with outcome `None`), returns the first sample produced, and gives `Ok(None)` exactly when the retries ran out |
| `CustomBlock.CustomBlockDataset.PrepareTrainImg` | mmdet/datasets/custom_block.py:183-316 | raises exactly the error of `TrainOutcome(idx)`, returns `None` exactly on its skips, and otherwise a sample holding the filled window, the original shape, the gt boxes, labels and ignored boxes as configured, and the split proposals |
| `CustomBlock.CustomBlockDataset.TrainOutcomeCases` | mmdet/datasets/custom_block.py:183-316 | an index past the images, an index past the proposals, a bad proposal shape, a missing annotation, extra augmentation and an empty block are each raised exactly under their condition in source order; `None` exactly for empty proposals or a skipped image without gt boxes; a sample exactly when none applies |
| `CustomBlock.CustomBlockDataset.PrepareTestImg` | mmdet/datasets/custom_block.py:318-400 | fails exactly with the error of `TestError(idx, host)`; otherwise the filled test window, the shape, the single scale and the split proposals |
| `CustomBlock.CustomBlockDataset.TestErrorCases` | mmdet/datasets/custom_block.py:318-400 | an index past the images, a non-integer stem, a missing centre frame, the two proposal errors, more than one scale and an empty block are each raised exactly under their condition in source order; a sample exactly when none applies |
| `Masks.Unmap` | mmdet/core/anchor/anchor_target.py:198-208 | a buffer of `count` items: `fill` where the mask is false; the masked positions, read in order, are `data` |
| `Masks.SelectScatter` | mmdet/core/anchor/anchor_target.py:198-208 | selecting the masked positions of an unmapped buffer gives the data back |
| `Masks.SelectAt` | mmdet/core/anchor/anchor_target.py:119 | the masked anchor at `i` is item `CountTrue(m[..i])` of `flat_anchors[inside_flags]` |
| `Masks.CountTrueZeroIffNone` | mmdet/core/anchor/anchor_target.py:116 | no anchor is inside iff the inside count is zero |
| `Masks.SumScatterZero` | mmdet/core/anchor/anchor_target.py:172-178 | unmapping with fill 0 does not change the sum of the label weights |
| `Levels.ImagesToLevels` | mmdet/core/anchor/anchor_target.py:86-98 | level `k` is every image's slice `[s_k, s_k + n_k)` with `s_k` the sum of the earlier counts; with one image the image dimension is dropped |
| `Levels.LevelsAdjacent` | mmdet/core/anchor/anchor_target.py:93-97 | level `k + 1` starts where level `k` ends |
| `Levels.LevelsTile` | mmdet/core/anchor/anchor_target.py:93-97 | the level slices of an image, concatenated, are its first `sum(sizes)` targets: no gap, no overlap |
| `Levels.FlattenLength` | mmdet/core/anchor/anchor_target.py:40 | the concatenation is as long as the level counts add up to |
| `Levels.SliceOfFlatten` | mmdet/core/anchor/anchor_target.py:36-41 | cutting the concatenation of levels at the levels' own sizes gives back level `k` |
| `Levels.SplitConcatenated` | mmdet/core/anchor/anchor_target.py:36-70 | concatenating each image's levels and then cutting them per level gives every image's original level `k` |
| `AnchorTarget.AnchorInsideFlags` | mmdet/core/anchor/anchor_target.py:184-195 | one flag per anchor; for a border `b >= 0`, flag `i` is set iff the anchor is valid and `x1 >= -b`, `y1 >= -b`, `x2 < w + b`, `y2 < h + b`; a negative border keeps the valid flags |
| `AnchorTarget.InsideFlagsMonotone` | mmdet/core/anchor/anchor_target.py:187-192 | widening a non-negative border never drops an anchor |
| `AnchorTarget.InsideFlagsZeroBorder` | mmdet/core/anchor/anchor_target.py:187-192 | with border 0 an anchor is inside iff it is valid and lies within `[0, w) x [0, h)` |
| `AnchorTarget.LastIndexOf` | mmdet/core/anchor/anchor_target.py:153-161 | the position of the last write to a slot: it holds the slot, no later position does, and one is found iff the slot was written |
| `AnchorTarget.WriteRows` | mmdet/core/anchor/anchor_target.py:153-169 | after `a[inds] = vals` a written slot holds the value of its last write, every other slot is unchanged |
| `AnchorTarget.WriteTargets` | mmdet/core/anchor/anchor_target.py:121-169 | regression targets `bbox2delta(anchor, assigned gt)`, regression weights 1 and labels 1 or the assigned gt label at the positives; label weights 1 at positives and negatives; 0 everywhere else |
| `AnchorTarget.ScatterConstant` | mmdet/core/anchor/anchor_target.py:125-131 | unmapping a constant buffer puts the constant on the inside anchors and the fill elsewhere |
| `AnchorTarget.UnmapTargets` | mmdet/core/anchor/anchor_target.py:172-177 | each of the four buffers over the inside anchors is scattered back over all anchors, zero elsewhere |
| `AnchorTarget.NoGtTargets` | mmdet/core/anchor/anchor_target.py:125-131 | without gt boxes: labels 0 everywhere, label weight 1 exactly on the inside anchors, zero regression targets and weights |
| `AnchorTarget.AnchorTargetSingle` | mmdet/core/anchor/anchor_target.py:101-181 | `None` iff no anchor is inside; without gt boxes, label weight 1 exactly on inside anchors and zeros elsewhere; with gt boxes, a positive `pos_weight` and then a repeated sample are the errors; otherwise the written buffers, unmapped on request |
| `AnchorTarget.DistinctCard` | mmdet/core/anchor/anchor_target.py:178-179 | a list of indices has as many distinct items as entries iff none repeats |
| `AnchorTarget.LabelWeightSumIffDistinct` | mmdet/core/anchor/anchor_target.py:178-179 | the label weights sum to `len(pos) + len(neg)` iff no anchor is sampled twice |
| `AnchorTarget.BboxWeightCount` | mmdet/core/anchor/anchor_target.py:78-80 | column 0 of the regression weights sums to the number of distinct positives |
| `AnchorTarget.SingleTargetCounts` | mmdet/core/anchor/anchor_target.py:75-81 | for one image, column 0 of the regression weights sums to the positives and the label weights to the positives plus negatives (every inside anchor without gt boxes) |
| `AnchorTarget.ConcatLevels` | mmdet/core/anchor/anchor_target.py:38-41 | succeeds iff every image's level counts agree; the images before the first mismatch are concatenated in place, the rest untouched |
| `AnchorTarget.ConcatImage` | mmdet/core/anchor/anchor_target.py:40-41 | image `i`'s anchors and flags become their concatenations; every other image is unchanged |
| `AnchorTarget.TargetsPerImage` | mmdet/core/anchor/anchor_target.py:48-62 | the first image whose assertion fails gives the error; otherwise each image's targets, `None` iff it has no inside anchor |
| `AnchorTarget.CountSamples` | mmdet/core/anchor/anchor_target.py:75-81 | `num_total_pos` sums column 0 of the regression weights, `num_total_neg` is the label-weight total minus it |
| `AnchorTarget.BatchSampleCounts` | mmdet/core/anchor/anchor_target.py:72-81 | `num_total_pos` is the batch's number of positives and `num_total_neg` its number of negatives |
| `AnchorTarget.SampleTotals` | mmdet/core/anchor/anchor_target.py:75-81 | summing the images' own positive and sample counts gives `num_total_pos`, and the difference gives `num_total_neg` |
| `AnchorTarget.BatchTargets` | mmdet/core/anchor/anchor_target.py:48-81 | per-image errors, `None` iff some image has no inside anchor, a stack error iff the lengths differ, else the per-level split of all four buffers and the two counts |
| `AnchorTarget.AnchorTarget` | mmdet/core/anchor/anchor_target.py:6-83 | image-count mismatch, empty batch and level-count mismatch are the errors, each exactly under its condition; the anchor and flag lists are concatenated in place up to the first mismatch; a well-formed batch yields `BatchTargets`' outcome, cut by the first image's level sizes |

## Left out

- Image and annotation I/O (`mmcv.load`, `mmcv.imread`): annotations and proposals are given values, and a sample carries frame names instead of pixels.
- Image, box, mask and segmentation transforms, `size_divisor`, normalisation and `resize_keep_ratio`: these are floating-point resampling code outside the modelled files. A sample carries the values the transforms would receive.
- Masks and semantic segmentation (`with_mask`, `with_semantic_seg`): these read files and annotation fields outside the modelled logic. A missing `masks` annotation is not raised as an error.
- Random flip and scale choice (`np.random.rand`, `random_scale`): these do not change which frames, boxes or proposals a sample holds.
- `DataContainer`, `to_tensor` and the result dictionaries: packaging only.
- The `warnings.warn` of `prepare_train_img` for a skipped image without gt boxes: a log message only; the skip itself is modelled.
- CustomBlock.CustomBlockDataset.Create: the `mmcv.is_list_of(img_scales, tuple)` assertion is not modelled, because scales are typed as pairs. Building `ExtraAugmentation` from its config is not modelled either; a configured extra augmentation still makes training raise.
- CustomBlock.CustomBlockDataset.GetItem: the retry loop has no bound in the source. Here it is bounded by `fuel`, and `Ok(None)` means the bound was reached.
- CustomBlock.CustomBlockDataset.RandAnother: the uniform distribution of the pick is not stated, only that the pick is in the pool.
- CustomBlock.CustomBlockDataset.PrepareTestImg: with a negative `block_size` the source fails on an unbound variable before stacking. The model reports `EmptyBlock` for both failures.
- Decimal.ParseInt: `int` also accepts surrounding whitespace, underscores between digits and non-ASCII digits. These are not modelled, and `str.isdigit` is likewise ASCII-only here.
- Negative dataset indices (Python's wrap-around on lists) are not modelled: indices are natural numbers.
- Floating point: coordinates, weights and sums are exact reals. `width / height` is real division.
- AnchorTarget.AnchorInsideFlags: one valid flag per anchor is required. Torch broadcasting of shorter flag tensors is not modelled.
- AnchorTarget.WriteRows: for repeated indices the last write wins, as on the CPU. Torch leaves that order unspecified on other devices.
- AnchorTarget.WriteTargets: the sampler's `pos_bboxes` and `pos_gt_bboxes` are taken to be the positive anchors and their assigned gt boxes. `bbox2delta`, `target_means` and `target_stds` are folded into the given `encode`.
- The assigner and sampler (`assign_and_sample`, `build_assigner`, `PseudoSampler`, the `sampling` flag, `label_channels`, `gt_bboxes_ignore`): they only produce the sampling result, which is an input.
- AnchorTarget.ConcatLevels: `torch.cat` of an image with no levels raises in torch. Here it gives an empty buffer.
- AnchorTarget.BatchTargets: the stack check compares the label buffers only; the other three buffers of an image have the same length (`AnchorTarget.SameLengths`).
- `multi_apply` is modelled as a loop over the images in order.
