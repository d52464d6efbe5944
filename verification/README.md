# YOLO loss and checkpoint rotation of Keras-SOLO, in Dafny

This project models the training loss of the Keras-SOLO detector (`train.py`) and the checkpoint rotation of its training loop. It proves properties of both.

Tensors become sequences of per-anchor records. Floats become `real`. The transcendental functions (`sigmoid`, `exp`, `log`, `atan`, and the constant pi) are abstract parameters. Only their ranges are assumed: the logistic function lies strictly between 0 and 1, the exponential is positive, and pi is positive.

Modules, in dependency order:

- `Numeric`: min, max, absolute value, squares, the `1e-9` guard, the transcendental record, and small arithmetic lemmas.
- `Reduce`: `reduce_sum` over one image and `reduce_mean` over the batch.
- `Geometry`: boxes in centre and corner form, per-axis overlap, intersection, enclosing box.
- `PlainIou`: `bbox_iou`, the unguarded IoU used to pick negative anchors.
- `CompleteIou`: `bbox_ciou`, with per-axis corner ordering, the guarded IoU, the enclosing diagonal, the centre distance and the two penalties.
- `Decode`: `decode`, with the flattened layout `k = (i·n + j)·A + a`, the grid offsets, and the decoded boxes, objectness and class probabilities.
- `LossLayer`: `loss_layer`, with the positive / negative / ignored masks, the size weight, the three per-anchor terms, the per-image sums and the batch mean.
- `YoloLoss`: `yolo_loss`, with three heads at strides 8, 16 and 32 paired with anchor groups 0, 1 and 2, and each component summed over the heads.
- `Checkpoint`: the `step%.8d.h5` names, the listing filter, `int(name[4:12])` with Python slicing, and the choice of the checkpoint to delete.

Three divisions are left unguarded in `train.py`, and the model keeps them so:

- In `bbox_ciou` only the IoU (train.py:87) and the `w / (h + 1e-9)` ratios (train.py:101-102) carry a `1e-9` guard. `p2 / enclose_c2` and `v / (1 - iou + v)` (train.py:104-106) do not. `CompleteIou.Ciou` therefore requires a non-zero `enclose_c2`. `CompleteIou.PenaltyNonNegative` proves that `1 - iou + v` is positive. `LossLayer.CiouDefined` proves that a decoded prediction always has a non-zero `enclose_c2`.
- `bbox_iou` divides by the union with no guard (train.py:131). `PlainIou.Iou` keeps the unguarded division and requires a non-zero union. `PlainIou.UnionPositive` and `LossLayer.IouDefinedForDecoded` show that the loss only divides by positive unions. The predictions come from `decode`, so they have positive size, and ground-truth boxes, padding included, have non-negative size.

## Model

| member | source | states |
|---|---|---|
| Geometry.ToCorners | train.py:119-122 | A box in centre form becomes ordered corners exactly when its width and height are non-negative |
| Geometry.CornersRoundTrip | train.py:59-62 | Converting centre form to corners and back loses nothing |
| Geometry.Ordered | train.py:68-71 | The per-axis min/max gives ordered corners for any signs of w and h, keeps the centre, spans the absolute width and height, and leaves ordered corners unchanged |
| Geometry.Overlap | train.py:84 | The clamped overlap of two intervals is non-negative and no longer than either proper interval |
| Geometry.OverlapPositive | train.py:80-84 | Two intervals share a positive length exactly when both are proper and each starts before the other ends |
| Geometry.Intersection | train.py:85 | The intersection area is never negative |
| Geometry.IntersectionSymmetric | train.py:125-129 | The intersection does not depend on argument order |
| Geometry.Enclose | train.py:90-91 | The enclosing box contains both boxes |
| Geometry.EncloseIsSmallest | train.py:90-91 | Any box that contains both boxes contains the enclosing box |
| Geometry.IntersectionWithinAreas | train.py:74-85 | For ordered corners the intersection is at most each box's area |
| Geometry.CornerArea | train.py:115-116 | The area from the corners equals w·h |
| PlainIou.UnionCoversBoth | train.py:115-130 | With non-negative sizes the union is at least each area and at least the intersection |
| PlainIou.UnionPositive | train.py:130-131 | A positive-size box against a non-negative-size box has a positive union, so the unguarded division is defined |
| PlainIou.IouBounds | train.py:115-131 | With non-negative sizes and a non-zero union, the IoU lies in [0, 1], and it is 0 exactly when the boxes do not overlap |
| PlainIou.IouSymmetric | train.py:110-132 | The union and the IoU do not depend on argument order |
| PlainIou.IouSelf | train.py:115-131 | A positive-size box has IoU 1 with itself |
| CompleteIou.CentreInside | train.py:59-71 | A box's centre lies within its ordered corners |
| CompleteIou.GuardedIou | train.py:74-87 | The `1e-9`-guarded IoU of ordered corners is defined for every pair and lies in [0, 1) |
| CompleteIou.CentreDistance | train.py:98 | `p2` is non-negative and zero exactly when the centres coincide |
| CompleteIou.CentreDistanceWithinDiagonal | train.py:90-98 | The centre distance is at most the enclosing box's squared diagonal |
| CompleteIou.CiouGeometry | train.py:59-98 | For any box pair, IoU is in [0, 1), `0 <= p2 <= enclose_c2`, and `p2 = 0` exactly when the centres coincide |
| CompleteIou.DiagonalPositive | train.py:94-95 | A first box of non-zero width makes `enclose_c2` positive |
| CompleteIou.AspectTerm | train.py:101-103 | The aspect-ratio term v is non-negative |
| CompleteIou.DistancePenalty | train.py:106 | `p2 / enclose_c2` lies in [0, 1] |
| CompleteIou.PenaltyNonNegative | train.py:104 | With v >= 0 and IoU < 1, `1 - iou + v` is positive and `a·v` is non-negative |
| CompleteIou.AspectPenalty | train.py:104-106 | The aspect penalty `a·v` is never negative |
| CompleteIou.Ciou | train.py:106 | CIoU is at most the IoU less the normalised centre distance, so it is below 1 |
| CompleteIou.CiouSymmetric | train.py:48-107 | CIoU does not depend on which box comes first |
| Decode.LayoutRoundTrip | train.py:200 | Row, column and slot recover the cell and anchor slot of a flattened index |
| Decode.LayoutCovers | train.py:200 | Every flattened index is the index of some row, column and slot |
| Decode.GridOffsetOfCell | train.py:205-209 | Row i, column j, any anchor slot gets the offset (x = j, y = i) |
| Decode.SigmoidEachInRange | train.py:214 | Each class probability lies strictly between 0 and 1 |
| Decode.CentreInCell | train.py:210 | A sigmoid offset in (0, 1) puts the centre strictly inside its cell, and the floor of centre / stride recovers the column |
| Decode.DecodedCentreInCell | train.py:205-210 | The anchor decoded at row i, column j has x in (j·stride, (j+1)·stride) and y in (i·stride, (i+1)·stride) |
| Decode.DecodedWellFormed | train.py:210-214 | With positive anchor priors, every decoded box has positive size, and the objectness and class probabilities lie in (0, 1) |
| Decode.ZeroOutputDecodesToPrior | train.py:210-211 | A zero raw output decodes to the cell centre and the anchor prior |
| LossLayer.IouDefinedForDecoded | train.py:171 | A positive-size prediction has a defined IoU with every ground truth of non-negative size |
| LossLayer.MaxIou | train.py:172 | `max_iou` is absent exactly for an empty ground-truth list; otherwise it is attained by some ground truth and no IoU exceeds it |
| LossLayer.BelowThresholdIffEveryTruthBelow | train.py:172-179 | `max_iou < thresh` holds exactly when every IoU is below the threshold |
| LossLayer.IgnoredAnchorHasNoWeight | train.py:179 | An anchor that some ground truth overlaps at least as much as the threshold gets `respond_bgd = 0` |
| LossLayer.MasksPartitionAnchors | train.py:179-187 | With `respond_bbox` in {0, 1}, `respond_bgd` is 0/1 and never 1 together with `respond_bbox`. The two masks mark positives, negatives and ignored anchors exactly as the reference classification does |
| LossLayer.LossScale | train.py:154 | `2 - w·h / input_size²` lies in [1, 2] for a box of non-negative size that fits the input |
| LossLayer.AreaRatioBounds | train.py:154 | A label box of non-negative size that fits the input covers a fraction between 0 and 1 of it |
| LossLayer.CiouDefined | train.py:101-106 | For a decoded prediction and a label box, every unguarded CIoU denominator is non-zero |
| LossLayer.ScaledCiouLoss | train.py:154-155 | `bbox_loss_scale · (1 - ciou)` is positive for a label box that fits the input |
| LossLayer.LocalisationTerm | train.py:155 | The masked CIoU loss is 0 when `respond_bbox = 0`, positive when it is positive and the box fits, and non-negative when it is non-negative and the box fits |
| LossLayer.ClassTerm | train.py:158 | The masked class loss is 0 when `respond_bbox = 0` |
| LossLayer.ObjectnessTerm | train.py:182-185 | The objectness loss is 0 when both masks are 0 |
| LossLayer.AnchorLoss | train.py:150-185 | A non-responsible anchor has no localisation or class loss, and an ignored anchor has no objectness loss either |
| LossLayer.OnlyResponsibleAnchorsCount | train.py:155-191 | Two images whose indicators agree, and whose anchors agree wherever the indicator is non-zero, have the same summed localisation and class losses, whatever their ground truths and thresholds |
| LossLayer.NoResponsibleNoLocalisation | train.py:155-189 | An image without responsible anchors has zero summed localisation and class loss |
| LossLayer.ImageLocalisationNonNegative | train.py:189 | With non-negative indicators and label boxes that fit the input, an image's summed localisation loss is non-negative |
| LossLayer.RolesCoverImage | train.py:179-187 | Positives, negatives and ignored anchors add up to all anchors, and `respond_bgd` selects exactly the negatives |
| LossLayer.OneResponsibleRestNegative | train.py:179-187 | With one responsible anchor and every IoU below the threshold, nothing is ignored and the other N - 1 anchors are negatives |
| LossLayer.HeadLocalisationNonNegative | train.py:189 | The batch-mean localisation loss of a head is non-negative under the same conditions |
| LossLayer.HeadWithoutObjects | train.py:189-191 | A batch without responsible anchors has zero localisation and class loss on the head |
| Reduce.MeanBounds | train.py:189-191 | The batch mean lies between the smallest and largest per-image value |
| Reduce.MeanAdd3 | train.py:232-234 | Three batch means add up to the batch mean of the per-image sums |
| YoloLoss.DecodedHeadIsValid | train.py:225-230 | Each head's decoded predictions meet everything the per-head loss demands |
| YoloLoss.BatchMeanAdditive | train.py:232-234 | Summing three heads' batch means, componentwise, is the batch mean of the image-by-image totals |
| YoloLoss.LossIsBatchMeanOfImageTotals | train.py:217-235 | The total loss equals the batch mean of each image's loss summed over the three heads, with strides 8/16/32 paired to anchor groups 0/1/2 |
| YoloLoss.NoObjectsOnlyObjectnessLoss | train.py:217-235 | A batch without objects has zero total localisation and class loss |
| Checkpoint.Slice | train.py:382 | Python slicing agrees with plain sub-sequences on in-range bounds, and it never grows the string |
| Checkpoint.ParseInt | train.py:383 | `int` succeeds exactly on a non-empty digit string or a sign followed by at least one digit, so a later non-digit such as the `.` of `1234567.` is rejected; digits give their decimal value, a `+` sign the value of its digits and a `-` sign its negation |
| Checkpoint.ParseDigitsOf | train.py:383 | Reading back the decimal digits of n gives n |
| Checkpoint.LeadingZeros | train.py:376-383 | Zero padding does not change the parsed value |
| Checkpoint.FormatStepQualifies | train.py:376-382 | Every saved name passes the `h5` / `step` filter |
| Checkpoint.FormatStepRoundTrip | train.py:376-383 | For 0 <= n < 10^8, the step parsed from the name saved at step n is n |
| Checkpoint.NineDigitStep | train.py:376-383 | For 10^8 <= n < 10^9, the name saved at step n parses as n / 10 |
| Checkpoint.Qualified | train.py:381-385 | The kept names all pass the filter and come from the listing |
| Checkpoint.QualifiedComplete | train.py:381-385 | No name that passes the filter is dropped |
| Checkpoint.IndexOfMin | train.py:387 | `steps.index(min(steps))` is the first position of the minimum |
| Checkpoint.CollectSteps | train.py:379-385 | The loop fails exactly when some qualifying name does not parse, and then on the first such name. Otherwise it yields each qualifying name's step in listing order |
| Checkpoint.Rotate | train.py:378-388 | A rotation fails exactly when some qualifying name does not parse, and then on the first such name. Otherwise it deletes exactly when more than ten names qualify, and it deletes the first qualifying name with the smallest step |
| Checkpoint.FullStepRoundTrip | train.py:376-383 | Reading everything between `step` and `.h5` parses every saved name back to its step |
| Checkpoint.QualifiedPrefix | train.py:381-385 | Filtering a prefix of the listing gives a prefix of the filtered listing |
| Checkpoint.QualifiedAll | train.py:381-385 | A listing whose every name passes the filter is kept whole |
| Checkpoint.OldestIsUnique | train.py:387 | At most one name is the first qualifying name with the smallest step |
| Checkpoint.NineDigitSaveParses | train.py:376-385 | After saving step n with 10^8 <= n < 10^9 beside at least ten checkpoints with steps between n / 10 and 10^8, every name qualifies and parses under both readings, so more than ten qualify |
| Checkpoint.NineDigitSaveOldest | train.py:383-387 | In that directory the eight-character field makes the checkpoint just saved the oldest |
| Checkpoint.NineDigitSaveCorrected | train.py:383-387 | In that directory, reading the whole field, the checkpoint just saved is not the oldest |
| Checkpoint.RotationDeletesNewest | train.py:376-388 | In that directory the rotation as written deletes the checkpoint it has just saved |
| Checkpoint.CorrectedRotationKeepsNewest | train.py:376-388 | In that directory the rotation reading the whole field keeps the checkpoint just saved and deletes the older checkpoint with the smallest step |
| Checkpoint.CorrectedOldestIsOldestStep | train.py:383-387 | In that directory, reading the whole field, the oldest name is the checkpoint of the smallest older step |
| Checkpoint.OldestOlderStep | train.py:383-387 | Reading the whole field, an oldest name other than the one just saved belongs to the smallest older step |
| Checkpoint.TenOlderStepsThenNineDigits | train.py:375-388 | Steps 99999990 to 99999999 followed by step 100000000 form such a directory |

## Left out

- File and process effects are not modelled: `model.save`, `os.listdir`, `os.remove`, logging and the TensorFlow session. `Checkpoint.Rotate` takes the listing as a sequence and returns the name to delete.
- The transcendental functions (`sigmoid`, `exp`, `log`, `atan`, pi) are abstract. Only their ranges are assumed, so no exact CIoU, cross-entropy or confidence loss value is computed.
- Floating-point rounding, infinities and NaN are not modelled: arithmetic is exact over `real`. `reduce_max` over an empty ground-truth axis, minus infinity in TensorFlow, is the `NoTruth` case of `LossLayer.MaxIou`.
- PlainIou.Iou: requires a non-zero union instead of producing TensorFlow's NaN or infinity; the loss never reaches that case, as `LossLayer.IouDefinedForDecoded` shows.
- CompleteIou.Ciou: requires a non-zero `enclose_c2` instead of producing NaN or infinity, and its result is bounded rather than computed, because `atan` and pi are abstract.
- LossLayer.LossScale: the [1, 2] bound is stated only for label boxes that fit the input, which is what the target encoder produces.
- LossLayer.MasksPartitionAnchors: the partition is stated for `respond_bbox` in {0, 1}; other indicator values are modelled but not classified.
- LossLayer.HeadLoss: requires a non-empty batch, because `reduce_mean` of an empty batch is NaN.
- Checkpoint.ParseInt: Python's `int` also accepts surrounding whitespace, underscores between digits and non-ASCII decimal digits; these are treated as parse errors. Every other string outside an optional sign followed by ASCII digits is rejected, as `int` rejects it.
- Reshape and broadcast plumbing and the `num_class` argument are not modelled separately: each head is a sequence of per-anchor records, and the class count is the length of each record's class sequence.
- The data-augmentation threads, dataset loading, debug image dumps, timing and ETA, evaluation, and the network itself are not part of this model.

## Findings

| source | as written | input that shows it | evidently intended | confidence | as-written member | corrected member |
|---|---|---|---|---|---|---|
| train.py:383 | `int(name[4:12])` reads at most eight digits, but `%.8d` prints nine from step 10^8 on | the ten checkpoints `step99999990.h5` to `step99999999.h5`, then `step100000000.h5`: eleven names qualify, the last parses as 10000000, and it is deleted just after it was saved | parse every digit between `step` and `.h5`, so the checkpoint with the smallest step, here `step99999990.h5`, is deleted | not executed; reachable only after 10^8 iterations | Checkpoint.RotationDeletesNewest | Checkpoint.CorrectedRotationKeepsNewest |
