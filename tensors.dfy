/**
 * Multi-dimensional arrays as CoreML's `MLMultiArray` and numpy present them:
 * a shape and an element for every index tuple. The row-major (C order)
 * correspondence between index tuples and flat positions is defined here,
 * with the facts that make it a bijection.
 */
module Tensors {

  /** A 32-bit float element, kept as its bit pattern: element values are opaque here. */
  datatype Float32 = Float32(bits: bv32)

  /** `0.0` as a `Float32`. */
  const PositiveZero := Float32(0)

  /** An array of the given shape; `at` gives the element at an index tuple. */
  datatype Tensor = Tensor(shape: seq<nat>, at: seq<nat> -> Float32)

  function Init(s: seq<nat>): seq<nat>
    requires |s| > 0
  {
    s[..|s| - 1]
  }

  function Last(s: seq<nat>): nat
    requires |s| > 0
  {
    s[|s| - 1]
  }

  /** The number of elements of an array of this shape (`MLMultiArray.count`). */
  function Count(shape: seq<nat>): nat
  {
    if |shape| == 0 then 1 else Count(Init(shape)) * Last(shape)
  }

  /** `idx` addresses an element of an array of this shape. */
  predicate InBounds(shape: seq<nat>, idx: seq<nat>)
  {
    |idx| == |shape| && forall i :: 0 <= i < |idx| ==> idx[i] < shape[i]
  }

  /** The flat row-major position of `idx`: the last axis varies fastest. */
  function Offset(shape: seq<nat>, idx: seq<nat>): nat
    requires |idx| == |shape|
    decreases |idx|
  {
    if |idx| == 0 then 0 else Offset(Init(shape), Init(idx)) * Last(shape) + Last(idx)
  }

  /** The index tuple at flat row-major position `k`. */
  function Unravel(shape: seq<nat>, k: nat): (idx: seq<nat>)
    requires k < Count(shape)
    ensures InBounds(shape, idx) && Offset(shape, idx) == k
    decreases |shape|
  {
    if |shape| == 0 then []
    else
      var d := Last(shape);
      QuotientBound(k, Count(Init(shape)), d);
      var prefix := Unravel(Init(shape), k / d);
      assert Init(prefix + [k % d]) == prefix;
      prefix + [k % d]
  }

  lemma MulMono(a: nat, b: nat, d: nat)
    requires a <= b
    ensures a * d <= b * d
  {
  }

  lemma QuotientBound(k: nat, c: nat, d: nat)
    requires k < c * d
    ensures d > 0 && k / d < c
  {
    if d > 0 && k / d >= c {
      MulMono(c, k / d, d);
      assert false;
    }
  }

  lemma DivModOf(o: nat, i: nat, d: nat)
    requires i < d
    ensures (o * d + i) / d == o && (o * d + i) % d == i
  {
    var k := o * d + i;
    var q, r := k / d, k % d;
    assert q * d + r == o * d + i;
    if q > o {
      MulMono(o + 1, q, d);
      assert false;
    } else if q < o {
      MulMono(q + 1, o, d);
      assert false;
    }
  }

  /** Every in-bounds index lands inside the flat buffer. */
  lemma {:induction false} OffsetBound(shape: seq<nat>, idx: seq<nat>)
    requires InBounds(shape, idx)
    ensures Offset(shape, idx) < Count(shape)
  {
    if |shape| > 0 {
      assert InBounds(Init(shape), Init(idx));
      OffsetBound(Init(shape), Init(idx));
      var o, d, c := Offset(Init(shape), Init(idx)), Last(shape), Count(Init(shape));
      assert Offset(shape, idx) == o * d + Last(idx) && Count(shape) == c * d;
      MulMono(o + 1, c, d);
      assert (o + 1) * d == o * d + d;
    }
  }

  /** Flat position and index tuple are inverse: `Unravel` recovers the index from its position. */
  lemma {:induction false} UnravelOffset(shape: seq<nat>, idx: seq<nat>)
    requires InBounds(shape, idx)
    ensures Offset(shape, idx) < Count(shape)
    ensures Unravel(shape, Offset(shape, idx)) == idx
  {
    OffsetBound(shape, idx);
    if |shape| > 0 {
      assert InBounds(Init(shape), Init(idx));
      UnravelOffset(Init(shape), Init(idx));
      var o, d := Offset(Init(shape), Init(idx)), Last(shape);
      DivModOf(o, Last(idx), d);
      assert idx == Init(idx) + [Last(idx)];
    }
  }

  /**
   * Row-major order is a bijection between in-bounds index tuples and the
   * positions `0 .. Count(shape) - 1`: every position has exactly one index.
   */
  lemma EveryPositionHasOneIndex(shape: seq<nat>, k: nat)
    requires k < Count(shape)
    ensures forall idx :: InBounds(shape, idx) && Offset(shape, idx) == k ==> idx == Unravel(shape, k)
  {
    forall idx | InBounds(shape, idx) && Offset(shape, idx) == k
      ensures idx == Unravel(shape, k)
    {
      UnravelOffset(shape, idx);
    }
  }

  /** Distinct in-bounds indices have distinct flat positions. */
  lemma OffsetInjective(shape: seq<nat>, i: seq<nat>, j: seq<nat>)
    requires InBounds(shape, i) && InBounds(shape, j) && i != j
    ensures Offset(shape, i) != Offset(shape, j)
  {
    UnravelOffset(shape, i);
    UnravelOffset(shape, j);
  }

  /** The rank-3 position of `[b, q, c]` is `(b * Q + q) * C + c`. */
  lemma Offset3(shape: seq<nat>, b: nat, q: nat, c: nat)
    requires |shape| == 3
    ensures Offset(shape, [b, q, c]) == (b * shape[1] + q) * shape[2] + c
  {
    var s2, s1 := Init(shape), Init(Init(shape));
    assert Init([b, q, c]) == [b, q] && Init([b, q]) == [b];
    assert Offset(s1, [b]) == b by {
      assert Init([b]) == [];
      assert Offset(Init(s1), []) == 0;
    }
    assert Offset(s2, [b, q]) == b * shape[1] + q;
  }

  /** The rank-4 position of `[b, q, h, w]` is `((b * Q + q) * H + h) * W + w`. */
  lemma Offset4(shape: seq<nat>, b: nat, q: nat, h: nat, w: nat)
    requires |shape| == 4
    ensures Offset(shape, [b, q, h, w]) == ((b * shape[1] + q) * shape[2] + h) * shape[3] + w
  {
    assert Init([b, q, h, w]) == [b, q, h];
    Offset3(Init(shape), b, q, h);
  }

  lemma Count3(shape: seq<nat>)
    requires |shape| == 3
    ensures Count(shape) == (shape[0] * shape[1]) * shape[2]
  {
    var s2 := Init(shape);
    var s1 := Init(s2);
    assert Count(Init(s1)) == 1;
    assert Count(s1) == shape[0];
    assert Count(s2) == shape[0] * shape[1];
  }

  lemma Count4(shape: seq<nat>)
    requires |shape| == 4
    ensures Count(shape) == ((shape[0] * shape[1]) * shape[2]) * shape[3]
  {
    Count3(Init(shape));
  }

  /** A leading axis of length 1 does not change the number of elements. */
  lemma {:induction false} CountPrependOne(shape: seq<nat>)
    ensures Count([1] + shape) == Count(shape)
  {
    if |shape| > 0 {
      assert Init([1] + shape) == [1] + Init(shape);
      CountPrependOne(Init(shape));
    }
  }
}
