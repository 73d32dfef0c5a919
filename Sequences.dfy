/** The loop shape `for x in xs: out.append(f(x))` that several of the
    scripts use, over any element types. */
module Sequences {

  /** Appends `f(x)` to `ys0` for each x of `xs` in turn: what was there
      stays in front, and the k-th new element is `f(xs[k])`. */
  method AppendEach<X, Y>(ys0: seq<Y>, xs: seq<X>, f: X -> Y) returns (ys: seq<Y>)
    ensures |ys| == |ys0| + |xs| && ys[..|ys0|] == ys0
    ensures forall k :: 0 <= k < |xs| ==> ys[|ys0| + k] == f(xs[k])
  {
    ys := ys0;
    for k := 0 to |xs|
      invariant |ys| == |ys0| + k && ys[..|ys0|] == ys0
      invariant forall j :: 0 <= j < k ==> ys[|ys0| + j] == f(xs[j])
    {
      ys := ys + [f(xs[k])];
    }
  }
}
