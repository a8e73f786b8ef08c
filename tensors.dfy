/** Rank-3 tensors (frames × points or boxes × features) as nested sequences,
    with the last-axis slicing that the augmentation layers use. */
module Tensors {

  /** A rank-3 tensor: frames, then points (or boxes), then features. */
  type Tensor<T> = seq<seq<seq<T>>>

  /** `a` and `b` have the same number of frames, of points per frame and of
      features per point. */
  predicate SameShape<A, B>(a: Tensor<A>, b: Tensor<B>)
  {
    && |a| == |b|
    && (forall f :: 0 <= f < |a| ==> |a[f]| == |b[f]|)
    && (forall f, p :: 0 <= f < |a| && 0 <= p < |a[f]| ==> |a[f][p]| == |b[f][p]|)
  }

  function Min(a: nat, b: nat): nat
  {
    if a <= b then a else b
  }

  /** Python's `s[lo:hi]` for non-negative bounds: both bounds are clamped to
      the length, and an empty range gives the empty sequence. */
  function Slice<T>(s: seq<T>, lo: nat, hi: nat): (r: seq<T>)
    ensures |r| == if lo < hi && lo < |s| then Min(hi, |s|) - lo else 0
    ensures forall i :: 0 <= i < |r| ==> lo + i < |s| && r[i] == s[lo + i]
  {
    if lo < hi && lo < |s| then s[lo..Min(hi, |s|)] else []
  }

  /** Python's `s[lo:]`. */
  function SliceFrom<T>(s: seq<T>, lo: nat): (r: seq<T>)
    ensures |r| == if lo < |s| then |s| - lo else 0
    ensures forall i :: 0 <= i < |r| ==> r[i] == s[lo + i]
  {
    Slice(s, lo, |s|)
  }

  /** Element-wise negation of a feature slice. */
  function Negate(s: seq<real>): (r: seq<real>)
    ensures |r| == |s|
    ensures forall i :: 0 <= i < |s| ==> r[i] == -s[i]
  {
    seq(|s|, i requires 0 <= i < |s| => -s[i])
  }

  /** Element-wise application of `g` to a feature slice. */
  function Pointwise(s: seq<real>, g: real -> real): (r: seq<real>)
    ensures |r| == |s|
    ensures forall i :: 0 <= i < |s| ==> r[i] == g(s[i])
  {
    seq(|s|, i requires 0 <= i < |s| => g(s[i]))
  }

  /** Applies a transform of the last axis to every (frame, point) row, which
      is what a slice `t[..., lo:hi]` followed by `concat(..., axis=-1)` does. */
  function MapRows<A, B>(t: Tensor<A>, g: seq<A> -> seq<B>): (r: Tensor<B>)
    ensures |r| == |t|
    ensures forall f :: 0 <= f < |t| ==> |r[f]| == |t[f]|
    ensures forall f, p :: 0 <= f < |t| && 0 <= p < |t[f]| ==> r[f][p] == g(t[f][p])
  {
    seq(|t|, f requires 0 <= f < |t| =>
      seq(|t[f]|, p requires 0 <= p < |t[f]| => g(t[f][p])))
  }

  /** Two tensors of the same shape that agree at every index are equal. */
  lemma EqualAtEveryIndex<T>(a: Tensor<T>, b: Tensor<T>)
    requires SameShape(a, b)
    requires forall f, p, k :: 0 <= f < |a| && 0 <= p < |a[f]| && 0 <= k < |a[f][p]| ==>
               a[f][p][k] == b[f][p][k]
    ensures a == b
  {
    forall f | 0 <= f < |a| ensures a[f] == b[f] {
      forall p | 0 <= p < |a[f]| ensures a[f][p] == b[f][p] {
        assert |a[f][p]| == |b[f][p]|;
      }
    }
  }
}
