/**
 * The evaluation side of the app (`EoMTEvaluator`): the row-major flattening
 * of an output multi-array into a zero-initialised `Float32` buffer, the
 * pad-info and metadata records and their file names, and the batch loop
 * that skips failing images and turns the accumulated time into averages
 * and a frame rate.
 */
module EoMTEval {
  import opened Wrappers
  import opened Numerics
  import opened Tensors
  import opened ModelHandler

  // ---------------------------------------------------------------------------
  // Row-major flattening
  // ---------------------------------------------------------------------------

  /** The ranks whose elements the flattening loop reads: `[B, Q, C]` and `[B, Q, H, W]`. */
  predicate SupportedRank(shape: seq<nat>)
  {
    |shape| == 3 || |shape| == 4
  }

  /**
   * The buffer `saveMLMultiArrayasBin` produces: one slot per element; for a
   * supported rank slot `k` holds the element at row-major position `k`, for
   * any other rank every slot keeps its initial zero.
   */
  function Flatten(t: Tensor): (floats: seq<Float32>)
    ensures |floats| == Count(t.shape)
  {
    if SupportedRank(t.shape) then
      seq(Count(t.shape), k requires 0 <= k < Count(t.shape) => t.at(Unravel(t.shape, k)))
    else
      seq(Count(t.shape), _ => PositiveZero)
  }

  /**
   * How a reader of the flat file recovers the element at `idx`, given the
   * shape recorded in the metadata.
   */
  function ElementAt(floats: seq<Float32>, shape: seq<nat>, idx: seq<nat>): Float32
    requires InBounds(shape, idx) && |floats| == Count(shape)
  {
    OffsetBound(shape, idx);
    floats[Offset(shape, idx)]
  }

  /** Slots `0 .. n - 1` already hold their final values `flat[k]`, the rest are still zero. */
  ghost predicate FilledUpTo(a: array<Float32>, flat: seq<Float32>, n: nat)
    reads a
  {
    a.Length == |flat| && n <= a.Length &&
    (forall k :: 0 <= k < n ==> a[k] == flat[k]) &&
    (forall k :: n <= k < a.Length ==> a[k] == PositiveZero)
  }

  /** One step of the loop: slot `n` receives its final value `v`. */
  method StoreElement(a: array<Float32>, ghost flat: seq<Float32>, n: nat, v: Float32)
    requires FilledUpTo(a, flat, n) && n < |flat| && flat[n] == v
    modifies a
    ensures FilledUpTo(a, flat, n + 1)
  {
    a[n] := v;
  }

  /** When the loop ends the buffer is `Flatten(t)`, whichever rank it saw. */
  lemma FilledIsFlatten(a: array<Float32>, t: Tensor, n: nat)
    requires FilledUpTo(a, Flatten(t), n)
    requires SupportedRank(t.shape) ==> n == Count(t.shape)
    requires !SupportedRank(t.shape) ==> n == 0
    ensures a[..] == Flatten(t)
  {
  }

  /** The element at `index` is the value of slot `n`, its row-major position. */
  lemma SlotHolds(t: Tensor, index: seq<nat>, n: nat)
    requires SupportedRank(t.shape) && InBounds(t.shape, index) && Offset(t.shape, index) == n
    ensures n < |Flatten(t)| && Flatten(t)[n] == t.at(index)
  {
    UnravelOffset(t.shape, index);
  }

  lemma MulSucc(x: int, d: int)
    ensures (x + 1) * d == x * d + d
  {
  }

  /**
   * The innermost loop of the flattening, over the last axis `d3` for a
   * fixed `b`, `q`, `d2`: ranks 3 and 4 store the next `dim3` slots in
   * order, any other rank skips every iteration.
   */
  method FillRow(floatArray: array<Float32>, t: Tensor, ghost flat: seq<Float32>, b: nat, q: nat, d2: nat,
                 dim3: nat, arrayIndex: nat) returns (next: nat)
    requires flat == Flatten(t) && |t.shape| >= 2
    requires dim3 == if |t.shape| > 3 then t.shape[3] else 1
    requires b < t.shape[0] && q < t.shape[1] && (|t.shape| > 2 ==> d2 < t.shape[2])
    requires |t.shape| == 4 ==> arrayIndex == ((b * t.shape[1] + q) * t.shape[2] + d2) * t.shape[3]
    requires |t.shape| == 3 ==> arrayIndex == (b * t.shape[1] + q) * t.shape[2] + d2
    requires !SupportedRank(t.shape) ==> arrayIndex == 0
    requires FilledUpTo(floatArray, flat, arrayIndex)
    modifies floatArray
    ensures next == if SupportedRank(t.shape) then arrayIndex + dim3 else 0
    ensures FilledUpTo(floatArray, flat, next)
  {
    var shape := t.shape;
    next := arrayIndex;
    for d3 := 0 to dim3
      invariant next == if SupportedRank(shape) then arrayIndex + d3 else 0
      invariant FilledUpTo(floatArray, flat, next)
    {
      var index: seq<nat>;
      if |shape| == 4 {
        index := [b, q, d2, d3];
        Offset4(shape, b, q, d2, d3);
      } else if |shape| == 3 {
        index := [b, q, d2];
        Offset3(shape, b, q, d2);
      } else {
        continue;
      }
      assert InBounds(shape, index) && Offset(shape, index) == next;
      SlotHolds(t, index, next);
      StoreElement(floatArray, flat, next, t.at(index));
      next := next + 1;
    }
  }

  /**
   * The flattening loop of `saveMLMultiArrayasBin`: four nested loops over
   * `b`, `q`, `d2`, `d3` (the two inner bounds are 1 when the shape has no
   * such axis) with a running `arrayIndex`. Ranks 3 and 4 write every slot
   * once, in row-major order; any other rank skips every iteration, so the
   * buffer stays all zeros. `written` is the final `arrayIndex`.
   */
  method FlattenMultiArray(t: Tensor) returns (floats: seq<Float32>, written: nat)
    requires |t.shape| >= 2
    ensures floats == Flatten(t)
    ensures written == if SupportedRank(t.shape) then Count(t.shape) else 0
  {
    var shape := t.shape;
    var totalCount := Count(shape);
    var floatArray := new Float32[totalCount](_ => PositiveZero);

    var batchSize := shape[0];
    var dim1 := shape[1];
    var dim2 := if |shape| > 2 then shape[2] else 1;
    var dim3 := if |shape| > 3 then shape[3] else 1;
    ghost var supported := SupportedRank(shape);
    ghost var flat := Flatten(t);

    var arrayIndex := 0;
    for b := 0 to batchSize
      invariant supported ==> arrayIndex == ((b * dim1) * dim2) * dim3
      invariant !supported ==> arrayIndex == 0
      invariant FilledUpTo(floatArray, flat, arrayIndex)
    {
      ghost var batchStart := b * dim1;
      for q := 0 to dim1
        invariant supported ==> arrayIndex == ((batchStart + q) * dim2) * dim3
        invariant !supported ==> arrayIndex == 0
        invariant FilledUpTo(floatArray, flat, arrayIndex)
      {
        ghost var queryStart := (batchStart + q) * dim2;
        for d2 := 0 to dim2
          invariant supported ==> arrayIndex == (queryStart + d2) * dim3
          invariant !supported ==> arrayIndex == 0
          invariant FilledUpTo(floatArray, flat, arrayIndex)
        {
          arrayIndex := FillRow(floatArray, t, flat, b, q, d2, dim3, arrayIndex);
          MulSucc(queryStart + d2, dim3);
        }
        MulSucc(batchStart + q, dim2);
      }
      MulSucc(b, dim1);
    }

    if supported {
      if |shape| == 4 { Count4(shape); } else { Count3(shape); }
    }
    FilledIsFlatten(floatArray, t, arrayIndex);
    floats := floatArray[..];
    written := arrayIndex;
  }

  /** Rank 3 `[B, Q, C]`: slot `(b * Q + q) * C + c` holds element `[b, q, c]`. */
  lemma Rank3Slot(t: Tensor, b: nat, q: nat, c: nat)
    requires |t.shape| == 3
    requires b < t.shape[0] && q < t.shape[1] && c < t.shape[2]
    ensures (b * t.shape[1] + q) * t.shape[2] + c < |Flatten(t)|
    ensures Flatten(t)[(b * t.shape[1] + q) * t.shape[2] + c] == t.at([b, q, c])
  {
    assert InBounds(t.shape, [b, q, c]);
    Offset3(t.shape, b, q, c);
    UnravelOffset(t.shape, [b, q, c]);
  }

  /** Rank 4 `[B, Q, H, W]`: slot `((b * Q + q) * H + h) * W + w` holds element `[b, q, h, w]`. */
  lemma Rank4Slot(t: Tensor, b: nat, q: nat, h: nat, w: nat)
    requires |t.shape| == 4
    requires b < t.shape[0] && q < t.shape[1] && h < t.shape[2] && w < t.shape[3]
    ensures ((b * t.shape[1] + q) * t.shape[2] + h) * t.shape[3] + w < |Flatten(t)|
    ensures Flatten(t)[((b * t.shape[1] + q) * t.shape[2] + h) * t.shape[3] + w] == t.at([b, q, h, w])
  {
    assert InBounds(t.shape, [b, q, h, w]);
    Offset4(t.shape, b, q, h, w);
    UnravelOffset(t.shape, [b, q, h, w]);
  }

  /**
   * For ranks 3 and 4 every slot of the buffer is written exactly once: each
   * slot holds the element of one in-bounds index, and no other in-bounds
   * index maps to that slot.
   */
  lemma EverySlotWrittenOnce(t: Tensor, k: nat)
    requires SupportedRank(t.shape) && k < |Flatten(t)|
    ensures exists idx :: InBounds(t.shape, idx) && Offset(t.shape, idx) == k && Flatten(t)[k] == t.at(idx)
    ensures forall i, j :: InBounds(t.shape, i) && InBounds(t.shape, j) && Offset(t.shape, i) == k && Offset(t.shape, j) == k ==> i == j
  {
    var idx := Unravel(t.shape, k);
    assert InBounds(t.shape, idx) && Offset(t.shape, idx) == k && Flatten(t)[k] == t.at(idx);
    EveryPositionHasOneIndex(t.shape, k);
  }

  /**
   * Any other rank writes nothing: the buffer still has one slot per element
   * of the array, and every slot is zero.
   */
  lemma UnsupportedRankLeavesZeros(t: Tensor)
    requires !SupportedRank(t.shape)
    ensures |Flatten(t)| == Count(t.shape)
    ensures forall k :: 0 <= k < |Flatten(t)| ==> Flatten(t)[k] == PositiveZero
  {
  }

  /**
   * A reader that knows the shape gets every element back from the flat
   * buffer of a rank-3 or rank-4 array.
   */
  lemma FlattenRoundTrip(t: Tensor, idx: seq<nat>)
    requires SupportedRank(t.shape) && InBounds(t.shape, idx)
    ensures ElementAt(Flatten(t), t.shape, idx) == t.at(idx)
  {
    UnravelOffset(t.shape, idx);
  }

  // ---------------------------------------------------------------------------
  // Pad info, metadata and file names
  // ---------------------------------------------------------------------------

  /** The placement recorded next to the logits. */
  datatype PadInfo = PadInfo(pasteX: int, pasteY: int, newW: int, newH: int, originalW: int, originalH: int)

  /** The canvas side written into `newW` and `newH`. */
  const ModelInputSide := 640

  /**
   * The pad info built from the placement rectangle of `predict` and the
   * image: the origin and the image size are truncated toward zero, while
   * `newW` and `newH` are the canvas side 640, whatever size was drawn.
   */
  function MakePadInfo(padRect: Rect, image: Image): (p: PadInfo)
    ensures padRect.x >= 0.0 ==> p.pasteX as real <= padRect.x < p.pasteX as real + 1.0
    ensures padRect.y >= 0.0 ==> p.pasteY as real <= padRect.y < p.pasteY as real + 1.0
    ensures image.size.width >= 0.0 ==> p.originalW as real <= image.size.width < p.originalW as real + 1.0
    ensures image.size.height >= 0.0 ==> p.originalH as real <= image.size.height < p.originalH as real + 1.0
    ensures p.newW == ModelInputSide && p.newH == ModelInputSide
  {
    PadInfo(
      pasteX := Truncate(padRect.x),
      pasteY := Truncate(padRect.y),
      newW := ModelInputSide,
      newH := ModelInputSide,
      originalW := Truncate(image.size.width),
      originalH := Truncate(image.size.height))
  }

  /**
   * The pad info of a letterboxed image: the origin is the truncated,
   * non-negative origin of the centred rectangle, so the drawn region starts
   * inside the canvas; `newW`/`newH` record the canvas, and they differ from
   * the drawn size along the axis that does not touch the canvas edge.
   */
  lemma PadInfoOfLetterbox(image: Image)
    requires ValidImage(image)
    ensures var rect := ResizeWithPadding(image.size, TargetSize);
      var p := MakePadInfo(rect, image);
      0 <= p.pasteX && 0 <= p.pasteY &&
      p.pasteX as real <= rect.x < p.pasteX as real + 1.0 &&
      p.pasteY as real <= rect.y < p.pasteY as real + 1.0 &&
      2 * p.pasteX <= ModelInputSide && 2 * p.pasteY <= ModelInputSide &&
      p.newW == ModelInputSide && p.newH == ModelInputSide &&
      (rect.width < 640.0 ==> p.newW as real != rect.width) &&
      (rect.height < 640.0 ==> p.newH as real != rect.height)
  {
    var rect := ResizeWithPadding(image.size, TargetSize);
    assert 0.0 <= rect.x <= 320.0 && 0.0 <= rect.y <= 320.0;
  }

  /** The metadata JSON record. */
  datatype Metadata = Metadata(classLogitsShape: seq<nat>, maskLogitsShape: seq<nat>, padInfo: PadInfo)

  const ClassLogitsName := "class_queries_logits"
  const MaskLogitsName := "masks_queries_logits"

  /** `<name>_<imageId>.bin` */
  function BinFileName(name: string, imageId: string): string
  {
    name + "_" + imageId + ".bin"
  }

  /** `metadata_<imageId>.json` */
  function MetadataFileName(imageId: string): string
  {
    "metadata_" + imageId + ".json"
  }

  /** The three files of one image's capture. */
  function CaptureFiles(imageId: string): set<string>
  {
    {BinFileName(ClassLogitsName, imageId), BinFileName(MaskLogitsName, imageId), MetadataFileName(imageId)}
  }

  /** Different image ids give different metadata files. */
  lemma MetadataFileNameInjective(a: string, b: string)
    requires MetadataFileName(a) == MetadataFileName(b)
    ensures a == b
  {
    var s := MetadataFileName(a);
    assert a == s[9..|s| - 5];
    assert b == MetadataFileName(b)[9..|s| - 5];
  }

  /** For a fixed tensor name, different image ids give different binary files. */
  lemma BinFileNameInjective(name: string, a: string, b: string)
    requires BinFileName(name, a) == BinFileName(name, b)
    ensures a == b
  {
    var s := BinFileName(name, a);
    assert a == s[|name| + 1..|s| - 4];
    assert b == BinFileName(name, b)[|name| + 1..|s| - 4];
  }

  /** A binary file name never equals a metadata file name. */
  lemma BinIsNotMetadata(name: string, a: string, b: string)
    ensures BinFileName(name, a) != MetadataFileName(b)
  {
    var s, m := BinFileName(name, a), MetadataFileName(b);
    assert s[|s| - 2] == 'i' && m[|m| - 2] == 'o';
  }

  /** The class and mask files never collide, whatever the two image ids. */
  lemma ClassIsNotMask(a: string, b: string)
    ensures BinFileName(ClassLogitsName, a) != BinFileName(MaskLogitsName, b)
  {
    assert BinFileName(ClassLogitsName, a)[0] == 'c';
    assert BinFileName(MaskLogitsName, b)[0] == 'm';
  }

  /**
   * One image's capture consists of three distinct files, and captures of
   * different images share no file.
   */
  lemma CaptureFilesDisjoint(a: string, b: string)
    ensures |CaptureFiles(a)| == 3
    ensures a != b ==> CaptureFiles(a) !! CaptureFiles(b)
  {
    BinIsNotMetadata(ClassLogitsName, a, a);
    BinIsNotMetadata(MaskLogitsName, a, a);
    ClassIsNotMask(a, a);
    if a != b {
      BinIsNotMetadata(ClassLogitsName, a, b);
      BinIsNotMetadata(MaskLogitsName, a, b);
      BinIsNotMetadata(ClassLogitsName, b, a);
      BinIsNotMetadata(MaskLogitsName, b, a);
      ClassIsNotMask(a, b);
      ClassIsNotMask(b, a);
      if MetadataFileName(a) == MetadataFileName(b) { MetadataFileNameInjective(a, b); }
      if BinFileName(ClassLogitsName, a) == BinFileName(ClassLogitsName, b) { BinFileNameInjective(ClassLogitsName, a, b); }
      if BinFileName(MaskLogitsName, a) == BinFileName(MaskLogitsName, b) { BinFileNameInjective(MaskLogitsName, a, b); }
    }
  }

  // ---------------------------------------------------------------------------
  // Saved captures and the batch loop
  // ---------------------------------------------------------------------------

  /** The content of a file in the documents directory. */
  datatype Document = FloatFile(floats: seq<Float32>) | MetadataFile(metadata: Metadata)

  /** The documents directory: files by name; writing a name again replaces its content. */
  type Documents = map<string, Document>

  /** The directory after `processAndSavePanopticData` saved one image's capture. */
  function SaveCapture(docs: Documents, imageId: string, classLogits: Tensor, maskLogits: Tensor, padInfo: PadInfo): Documents
  {
    docs[BinFileName(ClassLogitsName, imageId) := FloatFile(Flatten(classLogits))]
        [BinFileName(MaskLogitsName, imageId) := FloatFile(Flatten(maskLogits))]
        [MetadataFileName(imageId) := MetadataFile(Metadata(classLogits.shape, maskLogits.shape, padInfo))]
  }

  /**
   * A saved capture is self-describing once paired: the metadata file holds
   * the two shapes, each binary file holds one element per element of its
   * shape, and every other file is untouched.
   */
  lemma SavedCaptureIsConsistent(docs: Documents, imageId: string, classLogits: Tensor, maskLogits: Tensor, padInfo: PadInfo)
    ensures var saved := SaveCapture(docs, imageId, classLogits, maskLogits, padInfo);
      var meta := saved[MetadataFileName(imageId)];
      var classFile := saved[BinFileName(ClassLogitsName, imageId)];
      var maskFile := saved[BinFileName(MaskLogitsName, imageId)];
      meta.MetadataFile? && classFile.FloatFile? && maskFile.FloatFile? &&
      meta.metadata.classLogitsShape == classLogits.shape &&
      meta.metadata.maskLogitsShape == maskLogits.shape &&
      meta.metadata.padInfo == padInfo &&
      |classFile.floats| == Count(meta.metadata.classLogitsShape) &&
      |maskFile.floats| == Count(meta.metadata.maskLogitsShape) &&
      forall name :: name !in CaptureFiles(imageId) ==>
        (name in saved <==> name in docs) && (name in docs ==> saved[name] == docs[name])
  {
    CaptureFilesDisjoint(imageId, imageId);
  }

  /** The per-image inputs of the batch loop that lie outside the app: the foreign calls of `predict` and the elapsed time. */
  datatype ItemEnv = ItemEnv(inference: InferenceEnv, elapsed: real)

  /** The image asset catalogue: `UIImage(named:)` finds the names in it. */
  predicate ValidAssets(assets: map<string, Image>)
  {
    forall name :: name in assets ==> ValidImage(assets[name])
  }

  datatype Capture = Capture(image: Image, prediction: Prediction)

  /** What one iteration obtains: nothing when the image is missing or `predict` fails. */
  function ItemCapture(imageName: string, assets: map<string, Image>, env: ItemEnv): Option<Capture>
    requires ValidAssets(assets)
  {
    if imageName !in assets then None
    else
      match Predict(assets[imageName], env.inference)
      case None => None
      case Some(prediction) => Some(Capture(assets[imageName], prediction))
  }

  /** The state the loop carries: the directory and the two running totals. */
  datatype Progress = Progress(documents: Documents, totalPreprocessTime: real, totalPredictionTime: real)

  /** One iteration: skip, or add half the elapsed time to each total and save the capture. */
  function Step(p: Progress, imageName: string, assets: map<string, Image>, env: ItemEnv): Progress
    requires ValidAssets(assets)
  {
    match ItemCapture(imageName, assets, env)
    case None => p
    case Some(c) =>
      Progress(
        SaveCapture(p.documents, imageName, c.prediction.classLogits, c.prediction.maskLogits,
                    MakePadInfo(c.prediction.padRect, c.image)),
        p.totalPreprocessTime + env.elapsed * 0.5,
        p.totalPredictionTime + env.elapsed * 0.5)
  }

  /** The state after the first `k` images of the list. */
  function RunItems(start: Progress, names: seq<string>, assets: map<string, Image>, envs: seq<ItemEnv>, k: nat): Progress
    requires ValidAssets(assets) && |envs| == |names| && k <= |names|
  {
    if k == 0 then start
    else Step(RunItems(start, names, assets, envs, k - 1), names[k - 1], assets, envs[k - 1])
  }

  /** The total elapsed time of the images among the first `k` that were captured. */
  function CapturedTime(names: seq<string>, assets: map<string, Image>, envs: seq<ItemEnv>, k: nat): real
    requires ValidAssets(assets) && |envs| == |names| && k <= |names|
  {
    if k == 0 then 0.0
    else
      CapturedTime(names, assets, envs, k - 1) +
      (if ItemCapture(names[k - 1], assets, envs[k - 1]).Some? then envs[k - 1].elapsed else 0.0)
  }

  /** A skipped image changes neither the directory nor the totals. */
  lemma SkippedItemChangesNothing(start: Progress, names: seq<string>, assets: map<string, Image>, envs: seq<ItemEnv>, k: nat)
    requires ValidAssets(assets) && |envs| == |names| && k < |names|
    requires ItemCapture(names[k], assets, envs[k]).None?
    ensures RunItems(start, names, assets, envs, k + 1) == RunItems(start, names, assets, envs, k)
  {
  }

  /**
   * The 50/50 split: starting from zero, both totals always equal half the
   * elapsed time of the captured images.
   */
  lemma {:induction false} TotalsSplitEvenly(docs: Documents, names: seq<string>, assets: map<string, Image>, envs: seq<ItemEnv>, k: nat)
    requires ValidAssets(assets) && |envs| == |names| && k <= |names|
    ensures var p := RunItems(Progress(docs, 0.0, 0.0), names, assets, envs, k);
      p.totalPreprocessTime == p.totalPredictionTime == CapturedTime(names, assets, envs, k) / 2.0
  {
    if k > 0 {
      TotalsSplitEvenly(docs, names, assets, envs, k - 1);
    }
  }

  /** Files outside the captures of images `from .. k - 1` are left as they were. */
  lemma {:induction false} RunLeavesOtherFiles(start: Progress, names: seq<string>, assets: map<string, Image>, envs: seq<ItemEnv>,
                                               from: nat, k: nat, file: string)
    requires ValidAssets(assets) && |envs| == |names| && from <= k <= |names|
    requires forall i :: from <= i < k ==> file !in CaptureFiles(names[i])
    ensures var before := RunItems(start, names, assets, envs, from).documents;
      var after := RunItems(start, names, assets, envs, k).documents;
      (file in after <==> file in before) && (file in before ==> after[file] == before[file])
  {
    if from < k {
      RunLeavesOtherFiles(start, names, assets, envs, from, k - 1, file);
    }
  }

  /** No image name occurs twice in the list. */
  predicate Distinct(names: seq<string>)
  {
    forall i, i' :: 0 <= i < i' < |names| ==> names[i] != names[i']
  }

  /** In a list of distinct names, a file of one image's capture is no file of any other image's capture. */
  lemma OtherImagesAvoidFile(names: seq<string>, j: nat, file: string)
    requires Distinct(names) && j < |names| && file in CaptureFiles(names[j])
    ensures forall i :: 0 <= i < |names| && i != j ==> file !in CaptureFiles(names[i])
  {
    forall i | 0 <= i < |names| && i != j
      ensures file !in CaptureFiles(names[i])
    {
      CaptureFilesDisjoint(names[j], names[i]);
    }
  }

  /**
   * Batch resilience, captured image: with distinct names, after the whole
   * list the image's three files hold its flattened logits and its metadata,
   * whatever happened to the images around it.
   */
  lemma CapturedImageIsSaved(start: Progress, names: seq<string>, assets: map<string, Image>, envs: seq<ItemEnv>, j: nat)
    requires ValidAssets(assets) && |envs| == |names| && j < |names| && Distinct(names)
    requires ItemCapture(names[j], assets, envs[j]).Some?
    ensures var c := ItemCapture(names[j], assets, envs[j]).value;
      var docs := RunItems(start, names, assets, envs, |names|).documents;
      BinFileName(ClassLogitsName, names[j]) in docs &&
      docs[BinFileName(ClassLogitsName, names[j])] == FloatFile(Flatten(c.prediction.classLogits)) &&
      BinFileName(MaskLogitsName, names[j]) in docs &&
      docs[BinFileName(MaskLogitsName, names[j])] == FloatFile(Flatten(c.prediction.maskLogits)) &&
      MetadataFileName(names[j]) in docs &&
      docs[MetadataFileName(names[j])] ==
        MetadataFile(Metadata(c.prediction.classLogits.shape, c.prediction.maskLogits.shape,
                              MakePadInfo(c.prediction.padRect, c.image)))
  {
    var c := ItemCapture(names[j], assets, envs[j]).value;
    var before := RunItems(start, names, assets, envs, j);
    SavedCaptureIsConsistent(before.documents, names[j], c.prediction.classLogits, c.prediction.maskLogits,
                             MakePadInfo(c.prediction.padRect, c.image));
    CaptureFilesDisjoint(names[j], names[j]);
    var classFile, maskFile, metaFile :=
      BinFileName(ClassLogitsName, names[j]), BinFileName(MaskLogitsName, names[j]), MetadataFileName(names[j]);
    OtherImagesAvoidFile(names, j, classFile);
    RunLeavesOtherFiles(start, names, assets, envs, j + 1, |names|, classFile);
    OtherImagesAvoidFile(names, j, maskFile);
    RunLeavesOtherFiles(start, names, assets, envs, j + 1, |names|, maskFile);
    OtherImagesAvoidFile(names, j, metaFile);
    RunLeavesOtherFiles(start, names, assets, envs, j + 1, |names|, metaFile);
  }

  /**
   * Batch resilience, skipped image: with distinct names, a missing image or
   * a failed prediction leaves the image's three files exactly as they were
   * before the run.
   */
  lemma SkippedImageWritesNothing(start: Progress, names: seq<string>, assets: map<string, Image>, envs: seq<ItemEnv>, j: nat, file: string)
    requires ValidAssets(assets) && |envs| == |names| && j < |names| && Distinct(names)
    requires ItemCapture(names[j], assets, envs[j]).None?
    requires file in CaptureFiles(names[j])
    ensures var docs := RunItems(start, names, assets, envs, |names|).documents;
      (file in docs <==> file in start.documents) && (file in start.documents ==> docs[file] == start.documents[file])
  {
    OtherImagesAvoidFile(names, j, file);
    RunLeavesOtherFiles(start, names, assets, envs, 0, j, file);
    RunLeavesOtherFiles(start, names, assets, envs, j + 1, |names|, file);
  }

  /** The metrics the batch publishes. */
  datatype Metrics = Metrics(avgPreprocessTime: Double, avgPredictionTime: Double, fps: Double)

  /**
   * The final metrics: each total divided by the length of the whole list,
   * and the list length divided by the sum of the totals.
   */
  function FinalMetrics(p: Progress, totalCount: nat): Metrics
  {
    Metrics(
      Divide(p.totalPreprocessTime, totalCount as real),
      Divide(p.totalPredictionTime, totalCount as real),
      Divide(totalCount as real, p.totalPreprocessTime + p.totalPredictionTime))
  }

  /**
   * Metrics whose averages are both `total / 2` over `count`, which add up to
   * `total / count`, and whose frame rate is `count / total`, or +infinity
   * when `total` is zero.
   */
  predicate EvenSplitMetrics(m: Metrics, count: nat, total: real)
    requires count > 0
  {
    var n := count as real;
    m.avgPreprocessTime == m.avgPredictionTime == Finite(total / 2.0 / n) &&
    m.avgPreprocessTime.value + m.avgPredictionTime.value == total / n &&
    (total != 0.0 ==> m.fps == Finite(n / total)) &&
    (total == 0.0 ==> m.fps == PositiveInfinity)
  }

  /** The arithmetic of `FinalMetrics` when both totals are half of `total`. */
  lemma MetricsOfEvenSplit(p: Progress, count: nat, total: real)
    requires count > 0
    requires p.totalPreprocessTime == total / 2.0 && p.totalPredictionTime == total / 2.0
    ensures EvenSplitMetrics(FinalMetrics(p, count), count, total)
  {
    var n := count as real;
    assert p.totalPreprocessTime + p.totalPredictionTime == total;
    assert total / 2.0 / n + total / 2.0 / n == total / n;
  }

  /**
   * The metrics of a run over a non-empty list: both averages are half the
   * captured time over the WHOLE list length (skipped images count in the
   * denominator), they add up to captured time per listed image, and the
   * frame rate is list length over captured time, or +infinity when nothing
   * was timed.
   */
  lemma MetricsOfRun(docs: Documents, names: seq<string>, assets: map<string, Image>, envs: seq<ItemEnv>)
    requires ValidAssets(assets) && |envs| == |names| && |names| > 0
    ensures EvenSplitMetrics(FinalMetrics(RunItems(Progress(docs, 0.0, 0.0), names, assets, envs, |names|), |names|),
                             |names|, CapturedTime(names, assets, envs, |names|))
  {
    var p := RunItems(Progress(docs, 0.0, 0.0), names, assets, envs, |names|);
    TotalsSplitEvenly(docs, names, assets, envs, |names|);
    MetricsOfEvenSplit(p, |names|, CapturedTime(names, assets, envs, |names|));
  }

  /**
   * An empty list is not rejected: both averages and the frame rate are
   * `0 / 0`, that is NaN.
   */
  lemma EmptyListGivesNaN(docs: Documents, assets: map<string, Image>)
    requires ValidAssets(assets)
    ensures FinalMetrics(RunItems(Progress(docs, 0.0, 0.0), [], assets, [], 0), 0) == Metrics(NaN, NaN, NaN)
  {
  }

  /** When every one of the first `k` images is skipped, no time is accumulated. */
  lemma {:induction false} NothingCapturedMeansNoTime(names: seq<string>, assets: map<string, Image>, envs: seq<ItemEnv>, k: nat)
    requires ValidAssets(assets) && |envs| == |names| && k <= |names|
    requires forall i :: 0 <= i < k ==> ItemCapture(names[i], assets, envs[i]).None?
    ensures CapturedTime(names, assets, envs, k) == 0.0
  {
    if k > 0 {
      NothingCapturedMeansNoTime(names, assets, envs, k - 1);
    }
  }

  /**
   * When every image of a non-empty list is skipped, both averages are 0
   * and the frame rate is `count / 0`, that is +infinity.
   */
  lemma NothingCapturedGivesInfiniteFps(docs: Documents, names: seq<string>, assets: map<string, Image>, envs: seq<ItemEnv>)
    requires ValidAssets(assets) && |envs| == |names| && |names| > 0
    requires forall i :: 0 <= i < |names| ==> ItemCapture(names[i], assets, envs[i]).None?
    ensures var m := FinalMetrics(RunItems(Progress(docs, 0.0, 0.0), names, assets, envs, |names|), |names|);
      m.avgPreprocessTime == Finite(0.0) && m.avgPredictionTime == Finite(0.0) && m.fps == PositiveInfinity
  {
    var m := FinalMetrics(RunItems(Progress(docs, 0.0, 0.0), names, assets, envs, |names|), |names|);
    NothingCapturedMeansNoTime(names, assets, envs, |names|);
    MetricsOfRun(docs, names, assets, envs);
    assert EvenSplitMetrics(m, |names|, 0.0);
    assert 0.0 / 2.0 / (|names| as real) == 0.0;
  }

  // ---------------------------------------------------------------------------
  // The evaluator
  // ---------------------------------------------------------------------------

  /** The image list the app evaluates. */
  const ImageNames: seq<string> := [
    "000000015497", "000000104572", "000000130699", "000000131273", "000000161861",
    "000000261116", "000000356424", "000000377393", "000000389315", "000000391648"]

  /** The app's list names each image once, so the batch lemmas that need distinct names apply to it. */
  lemma ImageNamesDistinct()
    ensures Distinct(ImageNames)
  {
  }

  /** `EoMTEvaluator`: the published metrics and the documents directory it writes to. */
  class Evaluator {
    var avgPreprocessTime: Double
    var avgPredictionTime: Double
    var fps: Double
    var documents: Documents

    constructor (docs: Documents)
      ensures avgPreprocessTime == Finite(0.0) && avgPredictionTime == Finite(0.0) && fps == Finite(0.0)
      ensures documents == docs
    {
      avgPreprocessTime, avgPredictionTime, fps := Finite(0.0), Finite(0.0), Finite(0.0);
      documents := docs;
    }

    /** `saveMLMultiArrayasBin`: flatten the array and write it to `<name>_<imageId>.bin`. */
    method SaveMultiArrayAsBin(t: Tensor, name: string, imageId: string)
      requires |t.shape| >= 2
      modifies this`documents
      ensures documents == old(documents)[BinFileName(name, imageId) := FloatFile(Flatten(t))]
    {
      var floats, _ := FlattenMultiArray(t);
      documents := documents[BinFileName(name, imageId) := FloatFile(floats)];
    }

    /** `processAndSavePanopticData`: both binary files, then the metadata file. */
    method ProcessAndSavePanopticData(classLogits: Tensor, maskLogits: Tensor, imageId: string, padInfo: PadInfo)
      requires |classLogits.shape| >= 2 && |maskLogits.shape| >= 2
      modifies this`documents
      ensures documents == SaveCapture(old(documents), imageId, classLogits, maskLogits, padInfo)
    {
      SaveMultiArrayAsBin(classLogits, ClassLogitsName, imageId);
      SaveMultiArrayAsBin(maskLogits, MaskLogitsName, imageId);
      var metadata := Metadata(classLogits.shape, maskLogits.shape, padInfo);
      documents := documents[MetadataFileName(imageId) := MetadataFile(metadata)];
    }

    /**
     * `startEvaluation` over a list of image names: an image that is missing
     * or whose prediction fails is skipped; every other image adds half its
     * elapsed time to each total and has its capture saved. The metrics
     * divide by the length of the whole list.
     */
    method StartEvaluation(names: seq<string>, assets: map<string, Image>, envs: seq<ItemEnv>)
      requires ValidAssets(assets) && |envs| == |names|
      requires forall i :: 0 <= i < |envs| ==> OutputsHaveTwoAxes(envs[i].inference)
      modifies this
      ensures var p := RunItems(Progress(old(documents), 0.0, 0.0), names, assets, envs, |names|);
        documents == p.documents &&
        Metrics(avgPreprocessTime, avgPredictionTime, fps) == FinalMetrics(p, |names|)
    {
      var totalPreprocessTime := 0.0;
      var totalPredictionTime := 0.0;
      ghost var start := Progress(documents, 0.0, 0.0);

      for index := 0 to |names|
        invariant Progress(documents, totalPreprocessTime, totalPredictionTime) == RunItems(start, names, assets, envs, index)
      {
        var imageName := names[index];
        if imageName !in assets {
          continue;
        }
        var image := assets[imageName];
        var result := Predict(image, envs[index].inference);
        if result.None? {
          continue;
        }
        var totalTime := envs[index].elapsed;
        totalPreprocessTime := totalPreprocessTime + totalTime * 0.5;
        totalPredictionTime := totalPredictionTime + totalTime * 0.5;

        var padInfo := MakePadInfo(result.value.padRect, image);
        ProcessAndSavePanopticData(result.value.classLogits, result.value.maskLogits, imageName, padInfo);
      }

      var totalCount := |names| as real;
      avgPreprocessTime := Divide(totalPreprocessTime, totalCount);
      avgPredictionTime := Divide(totalPredictionTime, totalCount);
      fps := Divide(totalCount, totalPreprocessTime + totalPredictionTime);
    }
  }
}
