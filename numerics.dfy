/**
 * Numeric conversions shared by the Swift app and the Python reference script.
 * Floating point is modelled by exact rationals (`real`); the only IEEE
 * behaviour kept is what a division by zero yields.
 */
module Numerics {

  /** `min(a, b)` as Swift and Python compute it. */
  function Min(a: real, b: real): (m: real)
    ensures m <= a && m <= b
    ensures m == a || m == b
  {
    if b < a then b else a
  }

  /**
   * Conversion of a real to an integer that rounds toward zero, as Swift's
   * `Int(_: CGFloat)` and Python's `int(float)` both do.
   */
  function Truncate(r: real): (i: int)
    ensures r >= 0.0 ==> 0 <= i && i as real <= r < i as real + 1.0
    ensures r < 0.0 ==> i <= 0 && i as real - 1.0 < r <= i as real
  {
    if r >= 0.0 then r.Floor else -((-r).Floor)
  }

  /** A double-precision result: a finite value, or what IEEE 754 gives for `x / 0`. */
  datatype Double = Finite(value: real) | PositiveInfinity | NegativeInfinity | NaN

  /** IEEE 754 division of two finite operands (rounding aside). */
  function Divide(n: real, d: real): (q: Double)
    ensures q.Finite? <==> d != 0.0
    ensures q.Finite? ==> q.value * d == n
    ensures d == 0.0 && n > 0.0 ==> q == PositiveInfinity
    ensures d == 0.0 && n < 0.0 ==> q == NegativeInfinity
    ensures d == 0.0 && n == 0.0 ==> q == NaN
  {
    if d != 0.0 then Finite(n / d)
    else if n > 0.0 then PositiveInfinity
    else if n < 0.0 then NegativeInfinity
    else NaN
  }

  lemma MulLeftMono(c: real, a: real, b: real)
    requires c > 0.0 && a <= b
    ensures c * a <= c * b
  {
    assert c * b - c * a == c * (b - a);
  }

  lemma MulLeftStrict(c: real, a: real, b: real)
    requires c > 0.0 && a < b
    ensures c * a < c * b
  {
    assert c * b - c * a == c * (b - a);
  }

  lemma MulStrictBelow(c: real, a: real, b: real, t: real)
    requires c > 0.0 && a < b && c * b == t
    ensures c * a < t && a * c < t
  {
    MulLeftStrict(c, a, b);
  }

  lemma QuotientAboveOne(t: real, o: real)
    requires 0.0 < o < t
    ensures t / o > 1.0
  {
    assert o * (t / o) == t;
    if t / o <= 1.0 {
      MulLeftMono(o, t / o, 1.0);
    }
  }

  lemma QuotientNonNegative(t: real, o: real)
    requires t >= 0.0 && o > 0.0
    ensures t / o >= 0.0
  {
  }

  /** Truncating a value between 0 and `n` gives an integer between 0 and `n`, and `n` itself for `n`. */
  lemma TruncateWithin(r: real, n: int)
    requires 0.0 <= r <= n as real
    ensures 0 <= Truncate(r) <= n
    ensures r == n as real ==> Truncate(r) == n
  {
  }

  /**
   * The letterbox scale `ratio = min(tw / ow, th / oh)`: the scaled image
   * fits the target, touches it along at least one axis, and keeps the
   * aspect ratio of the original.
   */
  lemma LetterboxScale(ow: real, oh: real, tw: real, th: real)
    requires ow > 0.0 && oh > 0.0
    ensures ow * Min(tw / ow, th / oh) <= tw
    ensures oh * Min(tw / ow, th / oh) <= th
    ensures ow * Min(tw / ow, th / oh) == tw || oh * Min(tw / ow, th / oh) == th
    ensures (ow * Min(tw / ow, th / oh)) * oh == (oh * Min(tw / ow, th / oh)) * ow
    ensures tw >= 0.0 && th >= 0.0 ==> ow * Min(tw / ow, th / oh) >= 0.0 && oh * Min(tw / ow, th / oh) >= 0.0
  {
    var ratio := Min(tw / ow, th / oh);
    if tw >= 0.0 && th >= 0.0 {
      QuotientNonNegative(tw, ow);
      QuotientNonNegative(th, oh);
      MulLeftMono(ow, 0.0, ratio);
      MulLeftMono(oh, 0.0, ratio);
    }
    assert ow * (tw / ow) == tw;
    assert oh * (th / oh) == th;
    MulLeftMono(ow, ratio, tw / ow);
    MulLeftMono(oh, ratio, th / oh);
  }
}
