/**
 * The image-side half of the app's `ModelHandler`: the letterbox geometry of
 * `resizeWithPadding` over exact rationals, and `predict` as a guard chain
 * whose foreign steps (pixel-buffer creation, the CoreML call, the output
 * lookups) are supplied as an environment of outcomes.
 */
module ModelHandler {
  import opened Wrappers
  import opened Numerics
  import opened Tensors

  datatype Size = Size(width: real, height: real)

  /** A `CGRect`: origin and size. */
  datatype Rect = Rect(x: real, y: real, width: real, height: real)

  /** An image, seen only through its size; pixel contents are not modelled. */
  datatype Image = Image(size: Size)

  /** The model's fixed 640 x 640 input canvas. */
  const TargetSize := Size(640.0, 640.0)

  predicate ValidImage(image: Image)
  {
    image.size.width > 0.0 && image.size.height > 0.0
  }

  /** The scale `min(tw / ow, th / oh)` applied to the original image. */
  function Ratio(original: Size, target: Size): real
    requires original.width > 0.0 && original.height > 0.0
  {
    Min(target.width / original.width, target.height / original.height)
  }

  /**
   * The rectangle into which `resizeWithPadding` draws the image on a canvas
   * of size `target`: scaled by `Ratio` and centred. It fits the canvas,
   * touches it along at least one axis, keeps the aspect ratio, and is
   * centred exactly.
   */
  function ResizeWithPadding(original: Size, target: Size): (r: Rect)
    requires original.width > 0.0 && original.height > 0.0
    ensures r.width <= target.width && r.height <= target.height
    ensures r.width == target.width || r.height == target.height
    ensures r.width * original.height == r.height * original.width
    ensures r.x >= 0.0 && r.y >= 0.0
    ensures 2.0 * r.x + r.width == target.width && 2.0 * r.y + r.height == target.height
  {
    var ratio := Ratio(original, target);
    var newWidth := original.width * ratio;
    var newHeight := original.height * ratio;
    LetterboxScale(original.width, original.height, target.width, target.height);
    var x := (target.width - newWidth) / 2.0;
    var y := (target.height - newHeight) / 2.0;
    Rect(x, y, newWidth, newHeight)
  }

  /** There is no downscale-only guard: an image smaller than the canvas is scaled up. */
  lemma SmallImageIsUpscaled(original: Size, target: Size)
    requires 0.0 < original.width < target.width && 0.0 < original.height < target.height
    ensures Ratio(original, target) > 1.0
    ensures ResizeWithPadding(original, target).width > original.width
    ensures ResizeWithPadding(original, target).height > original.height
  {
    var ratio := Ratio(original, target);
    QuotientAboveOne(target.width, original.width);
    QuotientAboveOne(target.height, original.height);
    assert ResizeWithPadding(original, target).width == original.width * ratio;
    assert ResizeWithPadding(original, target).height == original.height * ratio;
    MulLeftStrict(original.width, 1.0, ratio);
    MulLeftStrict(original.height, 1.0, ratio);
  }

  /** An image already at the target size is drawn over the whole canvas. */
  lemma FittingImageFillsCanvas(target: Size)
    requires target.width > 0.0 && target.height > 0.0
    ensures ResizeWithPadding(target, target) == Rect(0.0, 0.0, target.width, target.height)
  {
    assert target.width / target.width == 1.0;
    assert target.height / target.height == 1.0;
  }

  /** A named output value of the CoreML prediction. */
  datatype Feature = MultiArray(multiArray: Tensor) | OtherFeature

  /**
   * What the foreign calls of one `predict` produce: whether the canvas
   * could be turned into a pixel buffer, whether the input feature provider
   * could be built, and the prediction's named outputs (`None` when the
   * prediction throws).
   */
  datatype InferenceEnv = InferenceEnv(
    pixelBufferCreated: bool,
    inputFeaturesCreated: bool,
    outputs: Option<map<string, Feature>>)

  const ClassLogitsKey := "class_logits"
  const MaskLogitsKey := "mask_logits"

  /** `featureValue(for: key)?.multiArrayValue`. */
  function MultiArrayValue(features: map<string, Feature>, key: string): Option<Tensor>
  {
    if key in features && features[key].MultiArray? then Some(features[key].multiArray) else None
  }

  datatype Prediction = Prediction(classLogits: Tensor, maskLogits: Tensor, padRect: Rect)

  /**
   * `predict`: letterbox onto the 640 x 640 canvas, then run the model.
   * It yields a result exactly when every foreign step succeeds and both
   * outputs are multi-arrays; the result carries the two outputs and the
   * placement rectangle of the letterbox, unchanged.
   */
  function Predict(image: Image, env: InferenceEnv): (r: Option<Prediction>)
    requires ValidImage(image)
    ensures r.Some? <==>
      env.pixelBufferCreated && env.inputFeaturesCreated && env.outputs.Some? &&
      ClassLogitsKey in env.outputs.value && env.outputs.value[ClassLogitsKey].MultiArray? &&
      MaskLogitsKey in env.outputs.value && env.outputs.value[MaskLogitsKey].MultiArray?
    ensures r.Some? ==>
      r.value.padRect == ResizeWithPadding(image.size, TargetSize) &&
      r.value.classLogits == env.outputs.value[ClassLogitsKey].multiArray &&
      r.value.maskLogits == env.outputs.value[MaskLogitsKey].multiArray
  {
    var padRect := ResizeWithPadding(image.size, TargetSize);
    if !env.pixelBufferCreated then None
    else if !env.inputFeaturesCreated then None
    else if env.outputs.None? then None
    else
      var classLogits := MultiArrayValue(env.outputs.value, ClassLogitsKey);
      var maskLogits := MultiArrayValue(env.outputs.value, MaskLogitsKey);
      if classLogits.None? || maskLogits.None? then None
      else Some(Prediction(classLogits.value, maskLogits.value, padRect))
  }

  /** The `class_logits` and `mask_logits` outputs, when they are multi-arrays, have at least two axes. */
  predicate OutputsHaveTwoAxes(env: InferenceEnv)
  {
    env.outputs.Some? ==>
      (ClassLogitsKey in env.outputs.value && env.outputs.value[ClassLogitsKey].MultiArray? ==>
         |env.outputs.value[ClassLogitsKey].multiArray.shape| >= 2) &&
      (MaskLogitsKey in env.outputs.value && env.outputs.value[MaskLogitsKey].MultiArray? ==>
         |env.outputs.value[MaskLogitsKey].multiArray.shape| >= 2)
  }
}
