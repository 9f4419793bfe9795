/** Array shapes: element counts and row-major (C order) positions of multi-indices. */
module Shapes {

  /** The number of elements of an array of this shape (numpy's prod). */
  function Product(s: seq<int>): (p: int)
    ensures (forall i :: 0 <= i < |s| ==> s[i] >= 0) ==> p >= 0
  {
    if |s| == 0 then 1 else s[0] * Product(s[1..])
  }

  lemma MulMonotone(a: int, b: int, c: nat)
    requires a <= b
    ensures a * c <= b * c
  {
  }

  lemma {:induction false} ProductSnoc(s: seq<int>, x: int)
    ensures Product(s + [x]) == Product(s) * x
  {
    if |s| > 0 {
      assert (s + [x])[1..] == s[1..] + [x];
      ProductSnoc(s[1..], x);
      assert Product(s + [x]) == s[0] * (Product(s[1..]) * x);
    } else {
      assert s + [x] == [x];
    }
  }

  lemma MulLeftCommute(a: int, b: int, c: int)
    ensures a * (b * c) == b * (a * c)
  {
  }

  /** Replacing one dimension scales the element count by that dimension. */
  lemma {:induction false} ProductUpdate(s: seq<int>, p: nat, v: int)
    requires p < |s|
    ensures Product(s[p := v]) == v * Product(s[p := 1])
  {
    if p == 0 {
      assert s[0 := v][1..] == s[1..] == s[0 := 1][1..];
    } else {
      var t := s[1..];
      assert s[p := v][1..] == t[p - 1 := v];
      assert s[p := 1][1..] == t[p - 1 := 1];
      ProductUpdate(t, p - 1, v);
      var rest := Product(t[p - 1 := 1]);
      calc {
        Product(s[p := v]);
        s[0] * Product(t[p - 1 := v]);
        s[0] * (v * rest);
        { MulLeftCommute(s[0], v, rest); }
        v * (s[0] * rest);
        v * Product(s[p := 1]);
      }
    }
  }

  /** idx is a valid multi-index into an array of this shape. */
  predicate IsIndex(idx: seq<int>, shape: seq<nat>) {
    |idx| == |shape| && forall i :: 0 <= i < |idx| ==> 0 <= idx[i] < shape[i]
  }

  /** The position of a multi-index when the array is read in row-major order. */
  function FlatIndex(idx: seq<int>, shape: seq<nat>): (k: nat)
    requires IsIndex(idx, shape)
    ensures k < Product(shape)
  {
    if |idx| == 0 then 0
    else
      assert IsIndex(idx[1..], shape[1..]);
      var inner := Product(shape[1..]);
      var rest := FlatIndex(idx[1..], shape[1..]);
      MulMonotone(idx[0] + 1, shape[0], inner);
      idx[0] * inner + rest
  }
}
