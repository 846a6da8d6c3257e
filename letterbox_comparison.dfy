/**
 * The app's letterbox metadata next to the Python script's. Both compute
 * the same ratio; the app keeps the drawn size exact and truncates only the
 * origin, and records the canvas side as `newW`/`newH`, whereas the script
 * truncates the size first, centres it with floor division, and returns the
 * resized size, which its crop needs.
 */
module LetterboxComparison {
  import opened Numerics
  import ModelHandler
  import EoMTEval
  import MlpackageInference

  /** The app's pad info for an image of integer size `ow` x `oh`. */
  function AppPadInfo(ow: nat, oh: nat): EoMTEval.PadInfo
    requires ow > 0 && oh > 0
  {
    var image := ModelHandler.Image(ModelHandler.Size(ow as real, oh as real));
    EoMTEval.MakePadInfo(ModelHandler.ResizeWithPadding(image.size, ModelHandler.TargetSize), image)
  }

  /** The script's placement for the same image on its 640 x 640 canvas. */
  function ScriptPadInfo(ow: nat, oh: nat): MlpackageInference.PadInfo
    requires ow > 0 && oh > 0
  {
    MlpackageInference.ResizeWithPadding(ow, oh, 640, 640)
  }

  /** The script's `new_w`/`new_h` are the app's exact drawn size, truncated. */
  lemma ScriptSizeIsTruncatedAppSize(ow: nat, oh: nat, tw: nat, th: nat)
    requires ow > 0 && oh > 0
    ensures var rect := ModelHandler.ResizeWithPadding(
              ModelHandler.Size(ow as real, oh as real), ModelHandler.Size(tw as real, th as real));
      var p := MlpackageInference.ResizeWithPadding(ow, oh, tw, th);
      p.newW == Truncate(rect.width) && p.newH == Truncate(rect.height)
  {
    AppSizeIsScaled(ow, oh, tw, th);
    ScriptSizeIsTruncatedScale(ow, oh, tw, th);
  }

  lemma AppSizeIsScaled(ow: nat, oh: nat, tw: nat, th: nat)
    requires ow > 0 && oh > 0
    ensures var rect := ModelHandler.ResizeWithPadding(
              ModelHandler.Size(ow as real, oh as real), ModelHandler.Size(tw as real, th as real));
      var ratio := Min(tw as real / ow as real, th as real / oh as real);
      rect.width == ow as real * ratio && rect.height == oh as real * ratio
  {
  }

  lemma ScriptSizeIsTruncatedScale(ow: nat, oh: nat, tw: nat, th: nat)
    requires ow > 0 && oh > 0
    ensures var ratio := Min(tw as real / ow as real, th as real / oh as real);
      var p := MlpackageInference.ResizeWithPadding(ow, oh, tw, th);
      p.newW == Truncate(ow as real * ratio) && p.newH == Truncate(oh as real * ratio)
  {
  }

  /** Truncating the centred real origin versus floor-centring the truncated size. */
  lemma OriginsWithinOne(extent: int, size: real)
    requires 0.0 <= size <= extent as real
    ensures 0 <= (extent - Truncate(size)) / 2 - Truncate((extent as real - size) / 2.0) <= 1
  {
    var w := Truncate(size);
    var p := (extent - w) / 2;
    var x := (extent as real - size) / 2.0;
    assert 2 * p <= extent - w <= 2 * p + 1;
    assert x <= (extent - w) as real / 2.0;
    assert x > (extent - w - 1) as real / 2.0;
  }

  /**
   * The app's `pasteX`/`pasteY` never exceed the script's `paste_x`/`paste_y`
   * and fall short of them by at most one pixel.
   */
  lemma PasteOriginsDifferByAtMostOne(ow: nat, oh: nat)
    requires ow > 0 && oh > 0
    ensures 0 <= ScriptPadInfo(ow, oh).pasteX - AppPadInfo(ow, oh).pasteX <= 1
    ensures 0 <= ScriptPadInfo(ow, oh).pasteY - AppPadInfo(ow, oh).pasteY <= 1
  {
    var rect := ModelHandler.ResizeWithPadding(ModelHandler.Size(ow as real, oh as real), ModelHandler.TargetSize);
    ScriptSizeIsTruncatedAppSize(ow, oh, 640, 640);
    OriginsWithinOne(640, rect.width);
    OriginsWithinOne(640, rect.height);
  }

  /**
   * The one-pixel difference happens: a 1277 x 1280 image is drawn 638.5
   * wide at x = 0.75, so the app records `pasteX` 0 where the script
   * pastes its 638-pixel-wide resize at `paste_x` 1.
   */
  lemma PasteOriginsCanDiffer()
    ensures AppPadInfo(1277, 1280).pasteX == 0
    ensures ScriptPadInfo(1277, 1280).pasteX == 1
  {
    var ratio := Min(640.0 / 1277.0, 640.0 / 1280.0);
    assert ratio == 0.5;
    assert ModelHandler.ResizeWithPadding(ModelHandler.Size(1277.0, 1280.0), ModelHandler.TargetSize).x == 0.75;
    assert MlpackageInference.ResizedSize(1277, 1280, 640, 640).0 == Truncate(638.5) == 638;
  }

  /**
   * Over exact rationals, the app's `newW` (always 640) matches the
   * script's `new_w` exactly when the image is at least as wide as it is
   * tall, and `newH` matches `new_h` exactly when it is at least as tall as
   * it is wide.
   */
  lemma NewSizeFieldsAgreeOnlyAlongTouchingAxis(ow: nat, oh: nat)
    requires ow > 0 && oh > 0
    ensures AppPadInfo(ow, oh).newW == ScriptPadInfo(ow, oh).newW <==> ow >= oh
    ensures AppPadInfo(ow, oh).newH == ScriptPadInfo(ow, oh).newH <==> oh >= ow
  {
    if ow >= oh {
      ScriptSizeOfWideImage(ow, oh);
    }
    if oh >= ow {
      ScriptSizeOfTallImage(ow, oh);
    }
  }

  /** Over exact rationals, an image at least as wide as tall is resized 640 wide, and less than 640 high unless square. */
  lemma ScriptSizeOfWideImage(ow: nat, oh: nat)
    requires 0 < oh <= ow
    ensures ScriptPadInfo(ow, oh).newW == 640
    ensures oh < ow ==> ScriptPadInfo(ow, oh).newH < 640
  {
    var w, h := ow as real, oh as real;
    var ratio := Min(640.0 / w, 640.0 / h);
    ScriptSizeIsTruncatedScale(ow, oh, 640, 640);
    WiderImageScalesByWidth(w, h);
    if oh < ow {
      TallerImageIsNarrower(h, w, ratio);
      TruncateWithin(h * ratio, 640);
    }
  }

  /** Over exact rationals, an image at least as tall as wide is resized 640 high, and less than 640 wide unless square. */
  lemma ScriptSizeOfTallImage(ow: nat, oh: nat)
    requires 0 < ow <= oh
    ensures ScriptPadInfo(ow, oh).newH == 640
    ensures ow < oh ==> ScriptPadInfo(ow, oh).newW < 640
  {
    var w, h := ow as real, oh as real;
    var ratio := Min(640.0 / w, 640.0 / h);
    ScriptSizeIsTruncatedScale(ow, oh, 640, 640);
    WiderImageScalesByWidth(h, w);
    if ow < oh {
      TallerImageIsNarrower(w, h, ratio);
      TruncateWithin(w * ratio, 640);
    }
  }

  /** For an image at least as wide as tall, the ratio is `640 / width` and the drawn width is 640. */
  lemma WiderImageScalesByWidth(w: real, h: real)
    requires 0.0 < h <= w
    ensures Min(640.0 / w, 640.0 / h) == 640.0 / w && Min(640.0 / h, 640.0 / w) == 640.0 / w
    ensures w * (640.0 / w) == 640.0
  {
    var a, b := 640.0 / w, 640.0 / h;
    assert a * w == 640.0 && b * h == 640.0;
    QuotientAboveZero(640.0, h);
    if a > b {
      MulLeftStrict(w, b, a);
      MulLeftMono(b, h, w);
      assert false;
    }
  }

  /** For an image taller than wide, the drawn width `w * 640 / h` stays below 640. */
  lemma TallerImageIsNarrower(w: real, h: real, r: real)
    requires 0.0 < w < h && r == Min(640.0 / w, 640.0 / h)
    ensures w * r < 640.0
  {
    WiderImageScalesByWidth(h, w);
    QuotientAboveZero(640.0, h);
    assert r == 640.0 / h;
    assert h * r == 640.0;
    MulStrictBelow(r, w, h, 640.0);
  }

  lemma QuotientAboveZero(t: real, o: real)
    requires t > 0.0 && o > 0.0
    ensures t / o > 0.0
  {
  }
}
