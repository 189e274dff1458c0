# paddleocr.cpp pipeline stages, modelled in Dafny

This project models the `Run` methods of the four inference stages of
paddleocr.cpp. They are the bookkeeping code that sits around the ONNX
Runtime call:

- `DBDetector::Run` (text detection). It copies the probability map into
  `pred` and the byte map `cbuf`, binarises the byte map at
  `det_db_thresh_ * 255`, optionally dilates it with a 2 x 2 rectangle, and
  hands both maps to box extraction and filtering.
- `Classifier::Run` (text direction). It walks the crops in batches. Each crop
  is padded on the right to width 192. The argmax and maximum of every output
  row are written at the crop's own index of `cls_labels` / `cls_scores`.
- `CRNNRecognizer::Run` (text recognition). It orders the crops by aspect
  ratio and walks that order in batches. Each batch's `max_wh_ratio` and
  `batch_width` are tracked as running maxima. Every sample is decoded by
  greedy CTC, and each text and score is written back through the order to
  the crop's original slot. A sample with no kept step is skipped.
- `StructureTableRecognizer::Run` (table structure). It walks the crops in
  batches and records their original widths and heights. Every decoded tag
  sequence is wrapped in `<html><body><table>` ... `</table></body></html>`.
  The tags, score and boxes of each sample are appended to the caller's three
  lists.

Each stage is modelled in its own imperative form:

- Loops are `while` loops with invariants.
- Vectors written by index (`rec_texts`, `cls_labels`, `pred`, `cbuf`) are
  arrays, and the bit map is a two-dimensional array that dilation updates in
  place.
- Vectors that only grow by `push_back` (`times`, the table's output lists,
  `width_list`) are sequences passed in and returned.

Each method is proved against a specification function of its inputs, and the
properties the code promises are proved as lemmas about those functions.

Images are modelled by their geometry (`Mat(rows, cols)`). The inference
engine and the helper operations whose bodies are not part of this model are
function-valued parameters:

- `resize_op_`, `pad_op_`, the table post-processor, `BoxesFromBitmap` and
  `FilterTagDetRes`;
- the float-to-byte conversion of the detector.

The engine is constrained only by the output shape each stage relies on. The
clock enters as the phase durations it measures (`elapsed`), and the model
proves what `times` receives.

Modules:

- `Common`: images, tensors, the zero-filled input buffer, first-maximum argmax.
- `Batching`: the shared batch loop `for (beg = 0; beg < n; beg += size)`, its
  partition into chunks, its termination, and the running phase timings.
- `Order`: the ascending argsort of the aspect ratios and the scatter back
  through it.
- `Ctc`: greedy CTC decoding of one sample of a `[batch, steps, classes]`
  buffer.
- `Recognizer`, `Classifier`, `Table`, `Detector`: the four `Run` methods.

The greedy CTC collapse is modelled as the code computes it. `last_index`
is the argmax of the previous step whether or not that step was kept. So a
blank between two equal symbols keeps both, and collapsing is not idempotent:
`[2, 0, 2]` collapses to `[2, 2]`, which collapses again to `[2]`. A
description of this decoder as an idempotent collapse does not match the
code. The model follows the code, and `Ctc.CollapseNotIdempotent` exhibits the
difference.

## Model

| member | source | states |
|---|---|---|
| Common.Pack | src/ocr_rec.cpp:66-71 | the buffer sized `batch_num * 3 * h * w` and filled with zeros, as line 66 allocates it, holds exactly as many values as the product of the shape `{batch_num, 3, h, w}` declared separately at line 71 |
| Common.ArgMaxIsFirstMax | src/ocr_cls.cpp:120-125 | the argmax of a non-empty row indexes a value no smaller than any other and strictly larger than every value before it (the first maximum) |
| Batching.ChunksShape | src/ocr_rec.cpp:37-41 | the loop visits non-empty consecutive chunks that start at 0 and end at `img_num`; each holds at most `batch_num` images and all but the last exactly that many; there are none exactly when there are no images |
| Batching.ChunksPartition | src/ocr_cls.cpp:32-36 | every image index below `img_num` lies in some chunk and no other index does, and the chunks do not overlap |
| Batching.PositiveBatchExitsAfterChunks | src/structure_table.cpp:33-38 | with a positive batch size the loop condition holds for exactly as many iterations as there are chunks, then fails |
| Batching.NonPositiveBatchNeverExits | src/ocr_rec.cpp:37-38 | with a batch size of zero or less and at least one image the loop condition holds after any number of iterations: with size zero the loop never ends on its own |
| Batching.NegativeBatchCount | src/ocr_rec.cpp:40-41 | with a negative batch size and at least one image the first batch's `batch_num` is that negative size, which then sizes the input buffer |
| Batching.TotalMonotone | src/structure_table.cpp:25-30 | with non-negative measured durations, each of the three accumulators declared before the loop never decreases from one batch to a later one |
| Batching.RunningMillisAt | src/structure_table.cpp:157-159 | pushing after every batch appends three entries per batch, and entry `3a + p` is phase `p` of the running total after batch `a`, in milliseconds |
| Batching.RunningTotalsNeverDecrease | src/structure_table.cpp:155-159 | per phase, an entry pushed after a later batch is never smaller than one pushed after an earlier batch |
| Order.ArgSort | src/ocr_rec.cpp:35 | `indices` lists every position `0 .. n-1` exactly once, in ascending order of key |
| Order.ScatterSomeAt | src/ocr_rec.cpp:150-151 | writing through distinct indices puts each present value at its own slot; slots that receive no write keep their old value |
| Order.ScatterSomeGather | src/ocr_rec.cpp:150-151 | processing inputs in a permuted order and writing each result back through that order leaves every input's result at the input's own slot, whatever the order |
| Ctc.CollapseBelow | src/ocr_rec.cpp:139-142 | every kept symbol is one of the step argmaxes, so with a label for every class `label_list_` is only indexed in range |
| Ctc.CollapseHasNoBlank | src/ocr_rec.cpp:139 | the blank class 0 never reaches the decoded symbols |
| Ctc.StepExtends | src/ocr_rec.cpp:139-144 | one more step extends the symbols, the text and the score sum by that step alone, exactly when its argmax is not the blank and differs from the previous step's argmax |
| Ctc.ReadStep | src/ocr_rec.cpp:131-137 | `argmax_idx` names a class of step `n` of sample `m`, `max_value` is that class's probability, no class of the step is higher and every class before `argmax_idx` is lower (the first maximum) |
| Ctc.DecodeSample | src/ocr_rec.cpp:122-145 | the inner loop's `count` is the number of kept steps, `str_res` is the labels of the kept symbols and `score` is the sum of the kept steps' maxima |
| Ctc.BlankSeparatesRepeats | src/ocr_rec.cpp:139-144 | a blank between two equal symbols keeps both: `[a, 0, a]` decodes to `[a, a]` |
| Ctc.RepeatCollapses | src/ocr_rec.cpp:139-144 | equal symbols on consecutive steps decode to one: `[a, a]` decodes to `[a]` |
| Ctc.FiveStepExample | src/ocr_rec.cpp:139-144 | argmaxes `[0, 2, 2, 0, 3]` decode to `[2, 3]` |
| Ctc.FiveStepKeptSum | src/ocr_rec.cpp:139-146 | over argmaxes `[0, 2, 2, 0, 3]` the score sum is the maxima of steps 1 and 4 alone, whatever the step maxima, so with the two decoded symbols the score is their mean |
| Ctc.CollapseIsMergeThenDrop | src/ocr_rec.cpp:139-145 | the step-by-step decode equals standard greedy CTC: merge runs of equal consecutive argmaxes, blanks included, then remove the blanks |
| Ctc.CollapseNotIdempotent | src/ocr_rec.cpp:139-144 | decoding the decoded symbols of `[2, 0, 2]` again gives a different result |
| Ctc.CollapseFixpoint | src/ocr_rec.cpp:139-144 | a sequence without blanks and without equal neighbours decodes to itself |
| Ctc.KeptSumBounds | src/ocr_rec.cpp:140-146 | with every step maximum in `[lo, hi]` the score sum lies between `count * lo` and `count * hi`, so the mean score stays within the step maxima |
| Recognizer.ComputeRatios | src/ocr_rec.cpp:31-34 | the loop leaves `width_list` with one entry per crop, entry `i` the width/height ratio of crop `i` |
| Recognizer.BatchOfAt | src/ocr_rec.cpp:45-47 | crop `k` of a batch is the crop at sorted position `beg + k` |
| Recognizer.MaxRatioIsMax | src/ocr_rec.cpp:44-50 | `max_wh_ratio` is at least `imgW / imgH` and at least every ratio in the batch, and it equals one of them |
| Recognizer.MaxWidthIsMax | src/ocr_rec.cpp:52-63 | `batch_width` is at least `imgW` and at least every resized crop's width, and it equals one of them |
| Recognizer.BatchInputShape | src/ocr_rec.cpp:66-71 | the input holds exactly `batch_num * 3 * imgH * batch_width` zeros, as many as `input_shape` declares; its width covers `imgW` and every resized crop |
| Recognizer.ComputeMaxRatio | src/ocr_rec.cpp:44-50 | the running-maximum loop ends with the batch's `max_wh_ratio` |
| Recognizer.ResizeBatch | src/ocr_rec.cpp:52-64 | the resize loop yields the resized crops in batch order and ends with the batch's `batch_width` |
| Recognizer.Preprocess | src/ocr_rec.cpp:40-71 | the preprocess phase yields the input of the crops at sorted positions `beg .. end-1`, resized at the batch's ratio and packed |
| Recognizer.DecodeOutput | src/ocr_rec.cpp:121-149 | a sample is skipped exactly when no step is kept; otherwise its result is the decoded text with the mean of the kept maxima |
| Recognizer.ResultAtInBatch | src/ocr_rec.cpp:105-121 | the engine answers a batch with one sample per crop, and the result of sorted position `beg + m` is the decode of sample `m` |
| Recognizer.ResultsOfBatch | src/ocr_rec.cpp:121-151 | every batch the loop visits yields, in batch order, the results of the sorted positions it covers |
| Recognizer.WriteBatch | src/ocr_rec.cpp:121-152 | the decode loop of one batch writes each non-skipped result of sorted position `j` to slot `indices[j]`, and nothing else |
| Recognizer.RunBatch | src/ocr_rec.cpp:39-154 | one iteration ends at `min(img_num, beg + batch_num)` and adds exactly the write-back of its positions |
| Recognizer.RunSorted | src/ocr_rec.cpp:37-155 | the batch loop ends with the write-back, through the order, of every result, and with the accumulators summed over all batches |
| Recognizer.Run | src/ocr_rec.cpp:30-158 | for the order `indices` that `argsort` returns, whichever sorted permutation it is, each crop's slot in `rec_texts` / `rec_text_scores` holds its decoded text and mean score, or keeps its prior value when the sample is skipped; slots past the crops are untouched; `times` gains exactly three entries, the totals in milliseconds |
| Classifier.PadRight | src/ocr_cls.cpp:49-53 | a crop narrower than 192 is padded to exactly 192 columns; a wider or equal crop is unchanged; rows are kept |
| Classifier.PadRightIdempotent | src/ocr_cls.cpp:49-53 | a padded crop is at least 192 wide and no narrower than before, and padding it again changes nothing |
| Classifier.PaddedBatchAt | src/ocr_cls.cpp:40-55 | crop `k` of the packed batch is crop `beg + k`, resized and padded, in input order |
| Classifier.PaddedBatchFits | src/ocr_cls.cpp:44-54 | with a resize that yields 48 rows and at most 192 columns, every packed crop is exactly 48 x 192 |
| Classifier.InputAsWritten | src/ocr_cls.cpp:56-64 | as written, the buffer holds `batch_num * 3 * 48 * 192` values while the declared shape starts with `cls_batch_num_` |
| Classifier.AsWrittenLastBatchMismatch | src/ocr_cls.cpp:64 | with 7 crops and batches of 6, the last batch's buffer holds 27648 values while its declared shape claims 165888 |
| Classifier.AsWrittenAgreesIffFull | src/ocr_cls.cpp:56-64 | as written, buffer and declared shape agree exactly when the batch is full |
| Classifier.BatchInputMatchesShape | src/ocr_cls.cpp:56-64 | with the shape declared from the batch itself, every buffer, the last one included, holds exactly as many values as its shape |
| Classifier.RowResultIsFirstMax | src/ocr_cls.cpp:119-127 | `label` names a class of the row, it is the first largest score, and `score` is that largest score |
| Classifier.ResultAtInBatch | src/ocr_cls.cpp:100-128 | the engine answers a batch with one row per crop, and crop `beg + m` is decoded from row `m` |
| Classifier.ResultsOfBatch | src/ocr_cls.cpp:119-128 | every batch the loop visits yields, in batch order, the decode of the crops it covers |
| Classifier.WriteBatch | src/ocr_cls.cpp:119-128 | the decode loop writes row `b` to position `beg + b` of `cls_labels` and `cls_scores` and nothing else |
| Classifier.Preprocess | src/ocr_cls.cpp:38-59 | the preprocess loop yields the resized, padded crops `beg .. end-1` in a buffer of `batch_num * 3 * 48 * 192` zeros, under the shape `{batch_num, 3, 48, 192}` of the corrected line 64 |
| Classifier.RunBatch | src/ocr_cls.cpp:34-130 | with the corrected input shape of line 64, one iteration ends at `min(img_num, beg + batch_num)` and writes exactly the decode of its crops |
| Classifier.RunBatches | src/ocr_cls.cpp:32-131 | with the corrected input shape of line 64, the batch loop writes the decode of every crop at its own index and sums the accumulators over all batches |
| Classifier.Run | src/ocr_cls.cpp:30-134 | with the corrected input shape of line 64, position `i` of `cls_labels` / `cls_scores` holds the label and score of crop `i`; positions past the crops are unchanged; `times` gains exactly three entries, the totals in milliseconds |
| Table.UnwrapWrap | src/structure_table.cpp:141-149 | wrapping adds exactly six tags, starts with the three opening tags, ends with the three closing ones, and keeps the inner tags unchanged and in order |
| Table.WrapUnwrap | src/structure_table.cpp:141-149 | a wrapped tag sequence is the wrap of the tags it holds inside |
| Table.WrapTags | src/structure_table.cpp:141-149 | three inserts at the front and three push_backs turn a tag vector into its wrap |
| Table.WrapAllWrapped | src/structure_table.cpp:141-149 | every tag sequence of a batch is wrapped once the wrap loop has run |
| Table.BatchInputMatchesShape | src/structure_table.cpp:56-63 | the input holds `batch_num * 3 * table_max_len_ * table_max_len_` zeros, exactly as many as `input_shape` declares |
| Table.BatchAppend | src/structure_table.cpp:139-154 | one batch adds the same number of entries, `predict_shape0[0]`, to each of the three lists |
| Table.JoinedParallel | src/structure_table.cpp:139-154 | lists that grow by equal numbers per batch grow by equal numbers over all batches |
| Table.JoinedWrapped | src/structure_table.cpp:139-154 | when every batch appends only wrapped tag sequences, all appended tag sequences are wrapped |
| Table.AppendedParallelAndWrapped | src/structure_table.cpp:139-154 | over the whole call the three lists grow by the same number of entries, and every appended tag sequence is wrapped |
| Table.Preprocess | src/structure_table.cpp:39-63 | `width_list[k]` and `height_list[k]` are the original columns and rows of crop `beg + k`, and the input is the batch packed at `table_max_len_` square |
| Table.AppendBatch | src/structure_table.cpp:139-154 | the append loop adds the wrap of each of the first `predict_shape0[0]` tag sequences, its score and its boxes behind the existing entries, in batch order |
| Table.RunBatch | src/structure_table.cpp:35-156 | one iteration appends exactly what its batch yields to the three lists |
| Table.RunBatches | src/structure_table.cpp:33-160 | the batch loop appends every batch's entries in batch order and pushes the running totals after every batch |
| Table.Run | src/structure_table.cpp:32-160 | the three lists end as their old entries followed by the wrapped tags, scores and boxes of all batches; `times` gains three running-total entries per batch |
| Detector.DetInput | src/ocr_det.cpp:37-41 | the input holds `1 * 3 * rows * cols` values, exactly as many as `input_shape` declares |
| Detector.FillMaps | src/ocr_det.cpp:88-98 | `pred` holds the first `n2 * n3` output values in order, `cbuf` holds their bytes, and every byte lies in `[0, 255]` |
| Detector.BinarisedCells | src/ocr_det.cpp:103-106 | a bit map cell is 255 exactly when its byte is strictly greater than `det_db_thresh_ * 255`, and 0 exactly otherwise |
| Detector.BinarisedBinary | src/ocr_det.cpp:103-106 | after thresholding every cell is 0 or 255 |
| Detector.ThresholdMonotone | src/ocr_det.cpp:103-106 | raising the threshold never adds a foreground cell |
| Detector.Threshold | src/ocr_det.cpp:100-106 | thresholding the `n2 x n3` byte map yields a fresh `n2 x n3` bit map, cell by cell the thresholded byte |
| Detector.DilatedCells | src/ocr_det.cpp:107-111 | dilation keeps a bit map binary and keeps every foreground cell; a cell becomes foreground exactly when the 2 x 2 kernel placed on it covers a foreground cell |
| Detector.Dilate | src/ocr_det.cpp:107-111 | dilating in place leaves the array as the dilation of its old contents |
| Detector.BitMapCells | src/ocr_det.cpp:103-111 | the bit map handed on is binary; without `use_dilation_` it is the thresholded map, and with it it keeps every thresholded foreground cell |
| Detector.Run | src/ocr_det.cpp:22-127 | `boxes` ends as the filtered extraction from the probability map and the bit map, nothing else; `times` gains the three phase durations in milliseconds |

## Left out

- ONNX Runtime plumbing (session, input and output name enumeration, `CreateTensor`, `session->Run`) and `LoadModel` (file I/O, console output): foreign calls. The engine is one function from the input tensor to a flat buffer and a shape.
- Pixel values: the normalise and permute steps only move pixel values into the buffer. The model keeps the buffer's size and zero initialisation, and the images it was packed from, but not which value lands where.
- `resize_op_`, `pad_op_`, the table post-processor, `BoxesFromBitmap` and `FilterTagDetRes` are function parameters. Their bodies are not part of this model.
- `Utility::argsort` and `Utility::argmax`: their source is not part of this model. argsort is a parameter of `Recognizer.Run`, required to return for any keys a permutation of their indices in ascending key order. The order it gives equal keys is its own; `Order.ArgSort`, a stable insertion sort, shows such a function exists. argmax is modelled as `std::max_element` (first maximum).
- `src/structure_layout.cpp`: its decode lives in a post-processor that is not part of this model.
- Clocks: `steady_clock` readings are parameters (the measured phase durations per batch). Float rounding of `duration<float>` and of the `* 1000` is not modelled.
- Batching.Total: the three accumulators start at zero. The source starts each at the difference of two consecutive `steady_clock::now()` readings, a tiny duration of unspecified sign, which the model drops; the totals in `times` are exact sums of the measured phases.
- Floating point: scores, ratios and probabilities are reals. NaN appears only as the skip of a sample with no kept step, where the source's `0 / 0` check is modelled by the count being zero.
- Detector.FillMaps: the `(unsigned char)(out_data[i] * 255)` conversion is an abstract function assumed to give a byte in `[0, 255]`. The out-of-range float-to-byte cast is not modelled.
- Detector.Run: the output shape entries are read as unbounded integers. The int64-to-int narrowing of `n2` and `n3` and a possible overflow of `n2 * n3` are not modelled, and the shape is required to hold at least `n2 * n3` values.
- Detector.DilatedCells: the 2 x 2 kernel covers the cell and its neighbours above, left and above-left, as for OpenCV's default anchor `(1, 1)`. Kernel cells outside the image are ignored, as OpenCV's default dilation border does. Other anchors and border modes are not modelled.
- Recognizer.Run: requires every crop to have at least one row. With zero rows the source's ratio is a floating-point infinity or NaN, which the real-number model does not represent.
- Recognizer.Run: requires an engine that answers a batch of `b` crops with exactly `b` samples whose classes all have a label. With fewer samples the source leaves the batch's remaining crops unwritten. With more, sample `m` writes through `indices[beg_img_no + m]` into the slot of a crop of a later batch, which that batch overwrites unless its own sample is skipped; in the last batch it reads past the end of `indices`. An argmax without a label reads past `label_list_`. None of these cases is described.
- Recognizer.Run: requires `rec_image_shape_[1]` (imgH) to be positive. With zero, `imgW * 1.0 / imgH` at src/ocr_rec.cpp:44 is a floating-point infinity, or NaN when imgW is zero too, which reals do not represent. A negative entry of the source's `int` shape is excluded by modelling the shape entries as natural numbers.
- Recognizer.Run: requires a positive `rec_batch_num_`. With a size of zero and at least one crop the loop never ends (`Batching.NonPositiveBatchNeverExits`). With a negative size the first batch's `batch_num` is negative (`Batching.NegativeBatchCount`), and the `std::vector` of a negative count fails to allocate; that failure is not modelled. With no crops the source returns at once whatever the batch size; that case is excluded along with the rest.
- Classifier.Run: requires a positive `cls_batch_num_`, for the same reasons (zero: the loop never ends; negative: the first allocation fails; no crops with a size of zero or less: not covered), and an engine that answers with one row per crop.
- Table.Run: requires a positive `table_batch_num_`, for the same reasons, and a post-processor that fills at least `predict_shape0[0]` entries in each list.
- Classifier.Run: describes the stage with the input shape declared as `{batch_num, 3, 48, 192}`, the corrected line 64 (see Findings), so every batch's buffer matches its shape and the engine answers with one row per crop. As written, a partial last batch is handed over under the shape `{cls_batch_num_, 3, 48, 192}` (`Classifier.InputAsWritten`), which ONNX Runtime would refuse or an engine could answer with `cls_batch_num_` rows; the model does not describe what the as-written program then writes.
- Classifier.RunBatch: runs one batch with the corrected shape of line 64, as `Classifier.Run` does.
- Classifier.RunBatches: runs every batch with the corrected shape of line 64, as `Classifier.Run` does.
- Classifier.Preprocess: packs the batch under the corrected shape of line 64; the as-written tensor is `Classifier.InputAsWritten`.
- Classifier.PaddedBatchFits: holds only for a resize that yields 48 rows and at most 192 columns, since `ClsResizeImg` is not part of this model.
- Integer widths: batch cursors, sizes and indices are unbounded integers. The 32-bit `int` of the loop cursor and of `batch_num * 3 * h * w` is not modelled.

## Findings

| source | as written | input that shows it | evidently intended | confidence | as-written member | corrected member |
|---|---|---|---|---|---|---|
| src/ocr_cls.cpp:64 | `input_shape` declares `cls_batch_num_` as the batch dimension, while the buffer holds `batch_num * 3 * 48 * 192` values (src/ocr_cls.cpp:56-58) | 7 crops with `cls_batch_num_ = 6`: the last batch has 1 crop, a buffer of 27648 values and a declared shape of 6 x 3 x 48 x 192 = 165888 values | declare `{batch_num, 3, 48, 192}`, as the recognizer and the table stage do | not executed | Classifier.AsWrittenLastBatchMismatch | Classifier.BatchInputMatchesShape |
