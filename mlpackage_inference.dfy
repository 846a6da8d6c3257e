/**
 * The Python reference script: the integer letterbox of
 * `resize_with_padding`, pasting the resized image on a black canvas, the
 * crop that removes the padding from the 640 x 640 segmentation, and the
 * leading-axis fix of the CoreML logits.
 */
module MlpackageInference {
  import opened Numerics
  import opened Tensors

  /** The tuple `(paste_x, paste_y, new_w, new_h)`. */
  datatype PadInfo = PadInfo(pasteX: int, pasteY: int, newW: int, newH: int)

  /**
   * `resize_with_padding`'s placement: `ratio = min(tw / ow, th / oh)`, the
   * resized size truncated by `int()`, and the origin centred with floor
   * division (Dafny's `/` on `int` with divisor 2 is floor division).
   * Over exact rationals the resized image fits the canvas and touches it
   * along one axis, and the left/right (top/bottom) margins differ by at
   * most one pixel.
   */
  function ResizeWithPadding(ow: nat, oh: nat, tw: nat, th: nat): (p: PadInfo)
    requires ow > 0 && oh > 0
    ensures 0 <= p.newW <= tw && 0 <= p.newH <= th
    ensures p.newW == tw || p.newH == th
    ensures 0 <= p.pasteX && p.pasteX + p.newW <= tw
    ensures 0 <= p.pasteY && p.pasteY + p.newH <= th
    ensures p.pasteX <= tw - p.newW - p.pasteX <= p.pasteX + 1
    ensures p.pasteY <= th - p.newH - p.pasteY <= p.pasteY + 1
  {
    var size := ResizedSize(ow, oh, tw, th);
    var newW, newH := size.0, size.1;
    FloorCentred(tw, newW);
    FloorCentred(th, newH);
    PadInfo((tw - newW) / 2, (th - newH) / 2, newW, newH)
  }

  /**
   * `(new_w, new_h)`: the original size scaled by `ratio` and truncated by
   * `int()`; both lie between 0 and the target, and over exact rationals
   * one equals it.
   */
  function ResizedSize(ow: nat, oh: nat, tw: nat, th: nat): (size: (int, int))
    requires ow > 0 && oh > 0
    ensures 0 <= size.0 <= tw && 0 <= size.1 <= th
    ensures size.0 == tw || size.1 == th
  {
    var ratio := Min(tw as real / ow as real, th as real / oh as real);
    ScaledSides(ow, oh, tw, th, ratio);
    TruncatedSides(ow as real * ratio, oh as real * ratio, tw, th);
    (Truncate(ow as real * ratio), Truncate(oh as real * ratio))
  }

  /** Scaled by `ratio`, both sides fit the target and one matches it. */
  lemma ScaledSides(ow: nat, oh: nat, tw: nat, th: nat, ratio: real)
    requires ow > 0 && oh > 0
    requires ratio == Min(tw as real / ow as real, th as real / oh as real)
    ensures 0.0 <= ow as real * ratio <= tw as real && 0.0 <= oh as real * ratio <= th as real
    ensures ow as real * ratio == tw as real || oh as real * ratio == th as real
  {
    LetterboxScale(ow as real, oh as real, tw as real, th as real);
  }

  /** Truncation keeps both sides within the target, and a side equal to it stays equal. */
  lemma TruncatedSides(w: real, h: real, tw: nat, th: nat)
    requires 0.0 <= w <= tw as real && 0.0 <= h <= th as real
    requires w == tw as real || h == th as real
    ensures 0 <= Truncate(w) <= tw && 0 <= Truncate(h) <= th
    ensures Truncate(w) == tw || Truncate(h) == th
  {
    TruncateWithin(w, tw);
    TruncateWithin(h, th);
  }

  /** Centring `size` in `extent` by floor division leaves margins that differ by at most one. */
  lemma FloorCentred(extent: int, size: int)
    requires 0 <= size <= extent
    ensures 0 <= (extent - size) / 2 && (extent - size) / 2 + size <= extent
    ensures (extent - size) / 2 <= extent - size - (extent - size) / 2 <= (extent - size) / 2 + 1
  {
  }

  /** `g` has `rows` rows of `cols` cells each. */
  predicate IsGrid<T>(g: seq<seq<T>>, rows: nat, cols: nat)
  {
    |g| == rows && forall r :: 0 <= r < rows ==> |g[r]| == cols
  }

  /**
   * `Image.new(..., target_size, background)` followed by `paste` of the
   * resized image at `(pasteX, pasteY)`: a `th` x `tw` canvas; cells under
   * the pasted image come from it, the others are the background, and parts
   * of the image beyond the canvas are clipped.
   */
  function PasteOnCanvas<T>(tw: nat, th: nat, background: T, resized: seq<seq<T>>, newW: nat, newH: nat,
                            pasteX: nat, pasteY: nat): (canvas: seq<seq<T>>)
    requires IsGrid(resized, newH, newW)
    ensures IsGrid(canvas, th, tw)
    ensures forall y, x :: 0 <= y < th && 0 <= x < tw ==>
      canvas[y][x] == if pasteY <= y < pasteY + newH && pasteX <= x < pasteX + newW
                      then resized[y - pasteY][x - pasteX] else background
  {
    seq(th, y requires 0 <= y < th =>
      seq(tw, x requires 0 <= x < tw =>
        if pasteY <= y < pasteY + newH && pasteX <= x < pasteX + newW
        then resized[y - pasteY][x - pasteX] else background))
  }

  /** Python's `s[lo:hi]` for non-negative bounds: both bounds are clamped to the length. */
  function Slice<T>(s: seq<T>, lo: nat, hi: nat): (r: seq<T>)
    ensures lo <= hi <= |s| ==> r == s[lo..hi]
    ensures |s| <= lo ==> r == []
    ensures lo <= |s| <= hi ==> r == s[lo..]
  {
    var l := if lo < |s| then lo else |s|;
    var h := if hi < |s| then hi else |s|;
    if h <= l then [] else s[l..h]
  }

  /** `seg[pasteY : pasteY + newH, pasteX : pasteX + newW]`. */
  function Crop<T>(seg: seq<seq<T>>, pasteX: nat, pasteY: nat, newW: nat, newH: nat): seq<seq<T>>
  {
    var rows := Slice(seg, pasteY, pasteY + newH);
    seq(|rows|, i requires 0 <= i < |rows| => Slice(rows[i], pasteX, pasteX + newW))
  }

  /**
   * A window inside the map crops to exactly `newH` x `newW` cells, cell
   * `(i, j)` being cell `(pasteY + i, pasteX + j)` of the map.
   */
  lemma CropOfWindow<T>(seg: seq<seq<T>>, rows: nat, cols: nat, pasteX: nat, pasteY: nat, newW: nat, newH: nat)
    requires IsGrid(seg, rows, cols)
    requires pasteX + newW <= cols && pasteY + newH <= rows
    ensures IsGrid(Crop(seg, pasteX, pasteY, newW, newH), newH, newW)
    ensures forall i, j :: 0 <= i < newH && 0 <= j < newW ==>
      Crop(seg, pasteX, pasteY, newW, newH)[i][j] == seg[pasteY + i][pasteX + j]
  {
    var c := Crop(seg, pasteX, pasteY, newW, newH);
    assert |c| == newH;
    forall i | 0 <= i < newH
      ensures |c[i]| == newW && forall j :: 0 <= j < newW ==> c[i][j] == seg[pasteY + i][pasteX + j]
    {
      assert c[i] == Slice(seg[pasteY + i], pasteX, pasteX + newW);
    }
  }

  /** The crop undoes the letterbox paste: it returns exactly the pasted image. */
  lemma CropUndoesPaste<T>(tw: nat, th: nat, background: T, resized: seq<seq<T>>, newW: nat, newH: nat,
                           pasteX: nat, pasteY: nat)
    requires IsGrid(resized, newH, newW)
    requires pasteX + newW <= tw && pasteY + newH <= th
    ensures Crop(PasteOnCanvas(tw, th, background, resized, newW, newH, pasteX, pasteY), pasteX, pasteY, newW, newH) == resized
  {
    var canvas := PasteOnCanvas(tw, th, background, resized, newW, newH, pasteX, pasteY);
    var c := Crop(canvas, pasteX, pasteY, newW, newH);
    CropOfWindow(canvas, th, tw, pasteX, pasteY, newW, newH);
    forall i | 0 <= i < newH
      ensures c[i] == resized[i]
    {
      forall j | 0 <= j < newW
        ensures c[i][j] == resized[i][j]
      {
        assert c[i][j] == canvas[pasteY + i][pasteX + j];
      }
    }
  }

  /**
   * The script's case: the placement of an image of positive size on the
   * 640 x 640 canvas lies inside the map, so cropping the 640 x 640
   * segmentation yields `new_h` x `new_w` cells taken from the placement
   * rectangle.
   */
  lemma LetterboxCropInsideMap<T>(ow: nat, oh: nat, seg: seq<seq<T>>)
    requires ow > 0 && oh > 0
    requires IsGrid(seg, 640, 640)
    ensures var p := ResizeWithPadding(ow, oh, 640, 640);
      IsGrid(Crop(seg, p.pasteX, p.pasteY, p.newW, p.newH), p.newH, p.newW) &&
      forall i, j :: 0 <= i < p.newH && 0 <= j < p.newW ==>
        Crop(seg, p.pasteX, p.pasteY, p.newW, p.newH)[i][j] == seg[p.pasteY + i][p.pasteX + j]
  {
    var p := ResizeWithPadding(ow, oh, 640, 640);
    CropOfWindow(seg, 640, 640, p.pasteX, p.pasteY, p.newW, p.newH);
  }

  /** `np.expand_dims(x, 0)`: a leading axis of length 1, the same elements. */
  function ExpandDims0(t: Tensor): (r: Tensor)
    ensures r.shape == [1] + t.shape
    ensures Count(r.shape) == Count(t.shape)
    ensures forall idx :: InBounds(t.shape, idx) ==> InBounds(r.shape, [0] + idx) && r.at([0] + idx) == t.at(idx)
  {
    CountPrependOne(t.shape);
    assert forall idx: seq<nat> :: ([0] + idx)[1..] == idx;
    Tensor([1] + t.shape, idx => if |idx| > 0 then t.at(idx[1..]) else t.at(idx))
  }

  /** Class logits of rank 2 gain a leading axis of length 1; any other rank is kept. */
  function NormalizeClassLogits(c: Tensor): Tensor
  {
    if |c.shape| == 2 then ExpandDims0(c) else c
  }

  /** Mask logits of rank 3 gain a leading axis of length 1; any other rank is kept. */
  function NormalizeMaskLogits(m: Tensor): Tensor
  {
    if |m.shape| == 3 then ExpandDims0(m) else m
  }

  /**
   * Rank normalisation: 2-D class logits and 3-D mask logits gain a leading
   * axis of size 1 (elements unchanged), every other rank is left alone; so
   * class logits of rank 2 or 3 end with rank 3 and mask logits of rank 3
   * or 4 end with rank 4.
   */
  lemma RankNormalisation(c: Tensor, m: Tensor)
    ensures |c.shape| == 2 ==> NormalizeClassLogits(c).shape == [1] + c.shape
    ensures |c.shape| != 2 ==> NormalizeClassLogits(c) == c
    ensures |m.shape| == 3 ==> NormalizeMaskLogits(m).shape == [1] + m.shape
    ensures |m.shape| != 3 ==> NormalizeMaskLogits(m) == m
    ensures |c.shape| == 2 || |c.shape| == 3 ==> |NormalizeClassLogits(c).shape| == 3
    ensures |m.shape| == 3 || |m.shape| == 4 ==> |NormalizeMaskLogits(m).shape| == 4
    ensures forall idx :: InBounds(c.shape, idx) && |c.shape| == 2 ==> NormalizeClassLogits(c).at([0] + idx) == c.at(idx)
    ensures forall idx :: InBounds(m.shape, idx) && |m.shape| == 3 ==> NormalizeMaskLogits(m).at([0] + idx) == m.at(idx)
  {
  }
}
