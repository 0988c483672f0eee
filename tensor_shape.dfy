// The shape of a tensor given as nested JSON lists, read along first
// elements, as scripts/validate-inference.py computes it.
module TensorShape {
  import opened Json
  import opened Text

  /** Length of each list met while descending through first elements; an empty list contributes 0 and ends the walk. */
  function Shape(data: Json): seq<nat> {
    match data
    case JList(xs) => if xs == [] then [0] else [|xs|] + Shape(xs[0])
    case _ => []
  }

  function ShapeJson(shape: seq<nat>): Json {
    JList(IntList(shape))
  }

  /** Python `actual_shape == expected_shape` for a computed shape and an arbitrary value. */
  predicate ShapeEquals(expected: Json, shape: seq<nat>) {
    expected.JList? && |expected.items| == |shape|
    && forall i :: 0 <= i < |shape| ==> EqInt(expected.items[i], shape[i])
  }

  /** The loop of `_get_tensor_shape`. */
  method GetTensorShape(data: Json) returns (shape: seq<nat>)
    ensures shape == Shape(data)
  {
    shape := [];
    var current := data;
    while current.JList?
      invariant shape + Shape(current) == Shape(data)
      decreases current
    {
      shape := shape + [|current.items|];
      if |current.items| > 0 {
        current := current.items[0];
      } else {
        return;
      }
    }
  }

  /** A regular tensor with the given dimensions, every element `leaf`. */
  function Tensor(dims: seq<nat>, leaf: Json): Json
    decreases |dims|
  {
    if dims == [] then leaf else JList(Repeat(Tensor(dims[1..], leaf), dims[0]))
  }

  /** Index of the first zero dimension, or the number of dimensions when none is zero. */
  function FirstZero(dims: seq<nat>): (k: nat)
    ensures k <= |dims|
    ensures forall i :: 0 <= i < k ==> dims[i] > 0
    ensures k < |dims| ==> dims[k] == 0
  {
    if dims == [] then 0 else if dims[0] == 0 then 0 else 1 + FirstZero(dims[1..])
  }

  /**
   * The shape of a regular tensor over a scalar leaf is its list of
   * dimensions, cut just after the first zero dimension (an empty list
   * hides everything inside it).
   */
  lemma {:induction false} ShapeOfTensor(dims: seq<nat>, leaf: Json)
    requires !leaf.JList?
    ensures Shape(Tensor(dims, leaf)) == if FirstZero(dims) < |dims| then dims[..FirstZero(dims) + 1] else dims
  {
    if dims != [] && dims[0] != 0 {
      ShapeOfTensor(dims[1..], leaf);
      var k := FirstZero(dims[1..]);
      if k < |dims[1..]| {
        assert dims[..k + 2] == [dims[0]] + dims[1..][..k + 1];
      } else {
        assert dims == [dims[0]] + dims[1..];
      }
    }
  }

  /** Every dimension but the last is at least one; a scalar has the empty shape and `[]` has shape [0]. */
  lemma {:induction false} ShapeBounds(data: Json)
    ensures forall i :: 0 <= i < |Shape(data)| - 1 ==> Shape(data)[i] >= 1
    ensures !data.JList? ==> Shape(data) == []
    ensures data == JList([]) ==> Shape(data) == [0]
    ensures data.JList? ==> Shape(data) != [] && Shape(data)[0] == |data.items|
  {
    if data.JList? && data.items != [] {
      ShapeBounds(data.items[0]);
    }
  }
}
