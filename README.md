# EoMT mobile inference: letterbox, flattening and capture model

A Dafny model of the deterministic core of an on-device EoMT panoptic
segmentation evaluator. The app is an iOS CoreML app with a Python
reference script.

- **Letterbox, app side.** The file-level function `resizeWithPadding`
  next to the app's `ModelHandler` class scales each image by `min(640 / w, 640 / h)` and centres it on a black
  640 x 640 canvas. `predict` runs the model and returns the two logit
  arrays together with the placement rectangle, or nothing when a step
  fails.
- **Evaluation, app side.** `EoMTEvaluator` walks a fixed list of images.
  It skips an image that is missing or whose prediction fails. For every
  other image it adds half of the elapsed time to each of two totals and
  saves a capture of three files:
  - `class_queries_logits_<id>.bin`;
  - `masks_queries_logits_<id>.bin`;
  - `metadata_<id>.json`.

  Each binary file holds the array flattened in row-major order by four
  nested loops with a running `arrayIndex`. At the end the evaluator
  publishes two averages and a frame rate.
- **Reference script.** The Python script `mlpackage_inference.py` does
  the same letterbox with integer sizes: `int()` truncation and `//`
  centring. Before post-processing it gives 2-D class logits and 3-D mask
  logits a leading batch axis of length 1; after segmentation it crops the
  padding away from the 640 x 640 map.

How the model is organised:

- `tensors.dfy` (`Tensors`) holds the array model: a shape and an element
  for every index tuple. It defines row-major position (`Offset`) and its
  inverse (`Unravel`), and proves that they form a bijection onto
  `0 .. Count(shape) - 1`.
- `numerics.dfy` (`Numerics`) holds the number model:
  - `real` arithmetic stands in for the app's `CGFloat`/`Double`;
  - `Truncate` is Swift `Int(_:)` and Python `int()`;
  - `Divide` yields IEEE infinities and NaN for a zero divisor.
- `model_handler.dfy` (`ModelHandler`) holds the app's letterbox geometry
  and `predict`. The foreign steps of `predict` are given as an environment
  of outcomes: pixel-buffer creation, input provider, CoreML prediction and
  output lookup.
- `eomt_eval.dfy` (`EoMTEval`) holds the evaluation side:
  - the flattening, as the imperative method `FlattenMultiArray`, proved
    equal to the specification function `Flatten`;
  - pad info, metadata and file names;
  - the documents directory, as a map from file name to content;
  - the batch loop, as the class `Evaluator`, whose `StartEvaluation` is
    proved equal to the fold `RunItems` and to `FinalMetrics`.
- `mlpackage_inference.dfy` (`MlpackageInference`) holds the script's
  integer letterbox, the paste onto the canvas, the crop, and the rank
  normalisation.
- `letterbox_comparison.dfy` (`LetterboxComparison`) relates the two
  letterbox versions:
  - the script's size is the app's exact size truncated;
  - the two paste origins differ by at most one pixel, and the lemma
    `PasteOriginsCanDiffer` gives an input where they do differ;
  - in exact arithmetic, the app's `newW`/`newH`, which are always 640,
    match the script's resized size only along the axis that touches the
    canvas.

Behaviour at the edges, as the code has it:

- **Ranks other than 3 and 4.** The code reports no error and writes a
  buffer of the full element count, all zeros
  (`UnsupportedRankLeavesZeros`).
- **Empty list.** Both averages and the frame rate are `0 / 0`, that is
  NaN (`EmptyListGivesNaN`).
- **Skipped images.** They are not counted, and the averages divide by the
  full list length (`MetricsOfRun`).

## Model

| member | source | states |
|---|---|---|
| Tensors.Unravel | eomt_secondtry/EoMTEval.swift:196-213 | every flat position below the element count has an in-bounds index tuple whose row-major position it is |
| Tensors.OffsetBound | eomt_secondtry/EoMTEval.swift:211-213 | an in-bounds index lands inside the buffer of `multiArray.count` slots: no write goes out of bounds |
| Tensors.UnravelOffset | eomt_secondtry/EoMTEval.swift:196-213 | row-major position and index tuple are inverse: unravelling the position of an index gives the index back |
| Tensors.EveryPositionHasOneIndex | eomt_secondtry/EoMTEval.swift:195-217 | each flat position belongs to exactly one in-bounds index |
| Tensors.OffsetInjective | eomt_secondtry/EoMTEval.swift:195-217 | distinct in-bounds indices have distinct positions, so no slot is written twice |
| Tensors.Offset3 | eomt_secondtry/EoMTEval.swift:204-205 | the position of `[b, q, c]` in a `[B, Q, C]` array is `(b * Q + q) * C + c` |
| Tensors.Offset4 | eomt_secondtry/EoMTEval.swift:202-203 | the position of `[b, q, h, w]` in a `[B, Q, H, W]` array is `((b * Q + q) * H + h) * W + w` |
| Tensors.Count3 | eomt_secondtry/EoMTEval.swift:184 | the element count of a rank-3 shape is the product of its three sides |
| Tensors.Count4 | eomt_secondtry/EoMTEval.swift:184 | the element count of a rank-4 shape is the product of its four sides |
| Tensors.CountPrependOne | mlpackage_inference.py:72-73 | a leading axis of length 1 leaves the element count unchanged |
| Numerics.Truncate | eomt_secondtry/EoMTEval.swift:93-94 | `Int(_:)` / `int()` round toward zero: for a non-negative value the result is the largest integer not above it, for a negative one the smallest not below it |
| Numerics.Divide | eomt_secondtry/EoMTEval.swift:118-120 | division is finite with `q * d == n` exactly when the divisor is non-zero; a zero divisor gives +infinity, -infinity or NaN according to the sign of the dividend |
| Numerics.LetterboxScale | eomt_secondtry/modelhandler.swift:81-84 | scaling by `min(tw / ow, th / oh)` fits both sides into the target, makes one side equal to it, preserves the aspect ratio and keeps non-negative targets non-negative |
| Numerics.TruncateWithin | mlpackage_inference.py:38-39 | truncating a value between 0 and `n` stays between 0 and `n`, and a value equal to `n` stays `n` |
| ModelHandler.ResizeWithPadding | eomt_secondtry/modelhandler.swift:75-89 | the draw rectangle fits the canvas, touches it along at least one axis, keeps the image's aspect ratio, has a non-negative origin and is exactly centred (`2x + width == tw`, `2y + height == th`) |
| ModelHandler.SmallImageIsUpscaled | eomt_secondtry/modelhandler.swift:81-84 | there is no downscale-only guard: an image smaller than the canvas gets a ratio above 1 and is drawn larger than it is |
| ModelHandler.FittingImageFillsCanvas | eomt_secondtry/modelhandler.swift:81-89 | an image already of the target size is drawn at `(0, 0, tw, th)` |
| ModelHandler.Predict | eomt_secondtry/modelhandler.swift:32-70 | `predict` returns a result exactly when pixel-buffer creation, the input provider and the prediction succeed and both `class_logits` and `mask_logits` are present as multi-arrays; the result holds the `class_logits` and `mask_logits` outputs and the 640 x 640 letterbox rectangle unchanged |
| EoMTEval.Flatten | eomt_secondtry/EoMTEval.swift:181-217 | the buffer has exactly one slot per element of the array (`multiArray.count`) |
| EoMTEval.FillRow | eomt_secondtry/EoMTEval.swift:199-214 | the innermost loop stores the next `dim3` slots in row-major order for ranks 3 and 4, and skips every iteration for any other rank |
| EoMTEval.FlattenMultiArray | eomt_secondtry/EoMTEval.swift:181-217 | the flattening loop produces exactly `Flatten(t)`; `arrayIndex` ends at the element count for ranks 3 and 4 and at 0 for any other rank |
| EoMTEval.Rank3Slot | eomt_secondtry/EoMTEval.swift:190-213 | for `[B, Q, C]`, slot `(b * Q + q) * C + c` holds element `[b, q, c]` |
| EoMTEval.Rank4Slot | eomt_secondtry/EoMTEval.swift:196-213 | for `[B, Q, H, W]`, slot `((b * Q + q) * H + h) * W + w` holds element `[b, q, h, w]` |
| EoMTEval.EverySlotWrittenOnce | eomt_secondtry/EoMTEval.swift:195-217 | for ranks 3 and 4 every slot holds the element of an in-bounds index, and only one index maps to that slot |
| EoMTEval.UnsupportedRankLeavesZeros | eomt_secondtry/EoMTEval.swift:206-209 | any other rank still yields a buffer of the full element count, every slot zero |
| EoMTEval.FlattenRoundTrip | eomt_secondtry/EoMTEval.swift:196-213 | a reader that knows the shape recovers every element of a rank-3 or rank-4 array from its flat buffer |
| EoMTEval.MakePadInfo | eomt_secondtry/EoMTEval.swift:83-99 | `pasteX`/`pasteY` are the rectangle origin truncated and `originalW`/`originalH` the image size truncated; `newW` and `newH` are 640 whatever was drawn |
| EoMTEval.PadInfoOfLetterbox | eomt_secondtry/EoMTEval.swift:83-99 | for a letterboxed image the recorded origin is non-negative and at most half the canvas; `newW`/`newH` differ from the drawn size along any axis that does not touch the canvas edge |
| EoMTEval.MetadataFileNameInjective | eomt_secondtry/EoMTEval.swift:163 | different image ids give different `metadata_<id>.json` names |
| EoMTEval.BinFileNameInjective | eomt_secondtry/EoMTEval.swift:220 | for one tensor name, different image ids give different `<name>_<id>.bin` names |
| EoMTEval.BinIsNotMetadata | eomt_secondtry/EoMTEval.swift:220 | a `.bin` name never equals a `.json` metadata name |
| EoMTEval.ClassIsNotMask | eomt_secondtry/EoMTEval.swift:147-148 | the class-logits and mask-logits files never share a name |
| EoMTEval.CaptureFilesDisjoint | eomt_secondtry/EoMTEval.swift:146-163 | one image's capture consists of three distinct files, and captures of different images share no file |
| EoMTEval.SavedCaptureIsConsistent | eomt_secondtry/EoMTEval.swift:146-163 | after saving, the metadata holds both tensors' shapes and the pad info, each binary file has one slot per element of its recorded shape, and every other file is untouched |
| EoMTEval.SkippedItemChangesNothing | eomt_secondtry/EoMTEval.swift:48-62 | a missing image or failed prediction changes neither the directory nor the totals |
| EoMTEval.TotalsSplitEvenly | eomt_secondtry/EoMTEval.swift:72-73 | both totals always equal half of the elapsed time of the captured images |
| EoMTEval.RunLeavesOtherFiles | eomt_secondtry/EoMTEval.swift:45-115 | a run over some images leaves every file outside their captures unchanged |
| EoMTEval.OtherImagesAvoidFile | eomt_secondtry/EoMTEval.swift:40 | with distinct image names, a file of one image's capture belongs to no other image's capture |
| EoMTEval.CapturedImageIsSaved | eomt_secondtry/EoMTEval.swift:45-115 | with distinct names, every captured image ends with its flattened logits and its metadata on disk, whatever happened to the other images |
| EoMTEval.SkippedImageWritesNothing | eomt_secondtry/EoMTEval.swift:48-62 | with distinct names, a skipped image's three files are exactly as they were before the run |
| EoMTEval.MetricsOfEvenSplit | eomt_secondtry/EoMTEval.swift:117-120 | with both totals half of `total`, each average is `total / 2 / count`, the two add up to `total / count`, and the frame rate is `count / total`, or +infinity when `total` is 0 |
| EoMTEval.MetricsOfRun | eomt_secondtry/EoMTEval.swift:117-120 | the averages divide the captured time by the whole list length, skipped images included, and the frame rate is list length over captured time |
| EoMTEval.EmptyListGivesNaN | eomt_secondtry/EoMTEval.swift:117-120 | an empty list gives NaN for both averages and the frame rate |
| EoMTEval.NothingCapturedMeansNoTime | eomt_secondtry/EoMTEval.swift:45-73 | when every image is skipped no time is accumulated |
| EoMTEval.NothingCapturedGivesInfiniteFps | eomt_secondtry/EoMTEval.swift:117-120 | when every image of a non-empty list is skipped, both averages are 0 and the frame rate is +infinity |
| EoMTEval.ImageNamesDistinct | eomt_secondtry/EoMTEval.swift:40 | the app's ten image ids are distinct, so the capture lemmas that assume distinct names apply to the app's list |
| EoMTEval.Evaluator.constructor | eomt_secondtry/EoMTEval.swift:29-31 | the published metrics start at 0 |
| EoMTEval.Evaluator.SaveMultiArrayAsBin | eomt_secondtry/EoMTEval.swift:181-220 | writes the flattened array to `<name>_<imageId>.bin` and changes no other file |
| EoMTEval.Evaluator.ProcessAndSavePanopticData | eomt_secondtry/EoMTEval.swift:138-163 | writes the two binary files and the metadata record of one capture and changes no other file |
| EoMTEval.Evaluator.StartEvaluation | eomt_secondtry/EoMTEval.swift:36-120 | the loop skips missing or failed images, accumulates half the elapsed time per captured image into each total and saves its capture; the final directory and metrics are those of the fold `RunItems` and of `FinalMetrics` |
| MlpackageInference.ResizeWithPadding | mlpackage_inference.py:32-49 | the resized size lies within the target and, in exact arithmetic, touches it along one axis; the paste origin is non-negative, the pasted image lies inside the canvas, and left/right (top/bottom) margins differ by at most one pixel |
| MlpackageInference.ResizedSize | mlpackage_inference.py:37-39 | `int(orig * ratio)` lies between 0 and the target side, and in exact arithmetic one side equals its target |
| MlpackageInference.ScaledSides | mlpackage_inference.py:37-39 | before truncation both scaled sides lie between 0 and the target and, in exact arithmetic, one equals it |
| MlpackageInference.TruncatedSides | mlpackage_inference.py:38-39 | truncation keeps both sides within the target and keeps a touching side touching |
| MlpackageInference.FloorCentred | mlpackage_inference.py:45-46 | floor-division centring puts the image inside the extent with margins differing by at most one |
| MlpackageInference.PasteOnCanvas | mlpackage_inference.py:44-47 | the canvas is exactly `target_size`; cells under the pasted image come from it, all others are the background |
| MlpackageInference.Slice | mlpackage_inference.py:91 | Python slicing with non-negative bounds: in-range bounds give the exact sub-sequence, and bounds past the end are clamped |
| MlpackageInference.CropOfWindow | mlpackage_inference.py:91 | a window inside the map crops to exactly `new_h` x `new_w` cells, cell `(i, j)` being map cell `(paste_y + i, paste_x + j)` |
| MlpackageInference.CropUndoesPaste | mlpackage_inference.py:91 | cropping the canvas at the paste window returns exactly the pasted image |
| MlpackageInference.LetterboxCropInsideMap | mlpackage_inference.py:91 | for any positive image size the crop of a 640 x 640 map at the letterbox placement has `new_h` x `new_w` cells taken from that window |
| MlpackageInference.ExpandDims0 | mlpackage_inference.py:72-73 | `expand_dims(x, 0)` prepends an axis of length 1, keeps the element count, and element `[0] + idx` is element `idx` |
| MlpackageInference.RankNormalisation | mlpackage_inference.py:72-73 | 2-D class logits and 3-D mask logits gain a leading axis of length 1 with the same elements; every other rank is unchanged; class logits of rank 2 or 3 end at rank 3, mask logits of rank 3 or 4 at rank 4 |
| LetterboxComparison.ScriptSizeIsTruncatedAppSize | mlpackage_inference.py:37-39 | for any integer image and target size, the script's `new_w`/`new_h` are the app's exact drawn width and height truncated |
| LetterboxComparison.OriginsWithinOne | mlpackage_inference.py:45-46 | floor-centring the truncated size is at most one above truncating the exact centred origin, and never below it |
| LetterboxComparison.PasteOriginsDifferByAtMostOne | eomt_secondtry/EoMTEval.swift:93-94 | the app's recorded `pasteX`/`pasteY` never exceed the script's `paste_x`/`paste_y` and fall short by at most one pixel |
| LetterboxComparison.PasteOriginsCanDiffer | eomt_secondtry/EoMTEval.swift:93-94 | the one-pixel difference happens: for a 1277 x 1280 image the app records `pasteX` 0 where the script pastes at 1 |
| LetterboxComparison.NewSizeFieldsAgreeOnlyAlongTouchingAxis | eomt_secondtry/EoMTEval.swift:87-88 | in exact arithmetic, the app's `newW` equals the script's `new_w` exactly when the image is at least as wide as tall, and `newH` equals `new_h` exactly when it is at least as tall as wide |
| LetterboxComparison.ScriptSizeOfWideImage | mlpackage_inference.py:37-39 | in exact arithmetic, an image at least as wide as tall is resized 640 wide, and less than 640 high unless it is square |
| LetterboxComparison.ScriptSizeOfTallImage | mlpackage_inference.py:37-39 | in exact arithmetic, an image at least as tall as wide is resized 640 high, and less than 640 wide unless it is square |
| LetterboxComparison.WiderImageScalesByWidth | eomt_secondtry/modelhandler.swift:81 | for an image at least as wide as tall the ratio is `640 / width`, and the drawn width is 640 |
| LetterboxComparison.TallerImageIsNarrower | eomt_secondtry/modelhandler.swift:81-83 | for an image taller than wide the drawn width stays below 640 |

## Left out

- CoreML model loading and prediction, and the conversion of the canvas to a `CVPixelBuffer`, are foreign framework calls. `predict` sees only their outcomes, through `InferenceEnv`.
- The rendering of the canvas is not modelled; only the placement rectangle is. This covers the black fill and the draw of the image with its rasteriser rounding, and pixel contents in general.
- Writing to the Documents directory and JSON encoding are not modelled. A write always succeeds and replaces the named file in the `Documents` map, so the "no Documents directory" guard and the write-error branches are not represented.
- The byte image of the buffer is not modelled: `withUnsafeBytes` writes 4 native-endian bytes per element. Element values are opaque 32-bit patterns and each file is its sequence of elements.
- Wall-clock time is an input: the elapsed time of each image is given by `ItemEnv`. `Task.sleep`, the status text, `currentImage`, `selectedImages` and the main-actor/publishing machinery are not modelled.
- MlpackageInference.ResizedSize, MlpackageInference.ResizeWithPadding, LetterboxComparison.ScriptSizeOfWideImage, LetterboxComparison.ScriptSizeOfTallImage and LetterboxComparison.NewSizeFieldsAgreeOnlyAlongTouchingAxis: the "touching side equals its target" facts hold in exact arithmetic only. In IEEE doubles `77 * (640 / 77)` is `639.9999999999999`, and `int()` turns that one-ulp shortfall into a whole pixel. So the script resizes a 77 x 77 image to 639 x 639, touching neither side, where the model gives 640 x 640. Widths such as 154, 303, 581, 606 and 616 behave the same way.
- Floating-point rounding is not modelled. The ratio, the drawn size, the averages and the frame rate are exact rationals; only a zero divisor is given its IEEE result.
- The image list of `startEvaluation` is a parameter; `EoMTEval.ImageNames` records the app's ten ids.
- In the Python script, these are not part of this model:
  - the PIL resizes;
  - the HF processor's panoptic post-processing;
  - the int32 conversion;
  - the seeded colours and plotting.
- `convert_fixed3.py` and `ContentView.swift` are not part of this model.
- ModelHandler.ResizeWithPadding: requires a positive image size. For a zero side the app divides by zero, and that path is not modelled.
- MlpackageInference.ResizeWithPadding: requires a positive image size. For a zero side the script raises `ZeroDivisionError`, and that path is not modelled.
- EoMTEval.FlattenMultiArray: requires at least two axes. With fewer, the app traps on `shape[1]` (or `shape[0]`), and that trap is not modelled.
- EoMTEval.Evaluator.StartEvaluation: requires the `class_logits` and `mask_logits` outputs, when they are multi-arrays, to have at least two axes, for the same reason.
- EoMTEval.Evaluator.StartEvaluation: requires every image in the catalogue to have a positive size.
- MlpackageInference.Slice: negative slice bounds are not modelled. The script's bounds are never negative.
