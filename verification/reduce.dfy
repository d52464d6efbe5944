/** The two reductions of the loss: `tf.reduce_sum` over one image's anchors
    and `tf.reduce_mean` over the batch. */
module Reduce {
  import opened Numeric

  function Sum(s: seq<real>): real
    decreases |s|
  {
    if s == [] then 0.0 else s[0] + Sum(s[1..])
  }

  /** The batch mean; `tf.reduce_mean` over an empty batch has no value. */
  function Mean(s: seq<real>): real
    requires |s| > 0
  {
    Sum(s) / |s| as real
  }

  /** Element-wise sum of three equally long sequences. */
  function Add3(a: seq<real>, b: seq<real>, c: seq<real>): (r: seq<real>)
    requires |a| == |b| == |c|
    ensures |r| == |a|
    ensures forall k :: 0 <= k < |r| ==> r[k] == a[k] + b[k] + c[k]
  {
    seq(|a|, k requires 0 <= k < |a| => a[k] + b[k] + c[k])
  }

  lemma {:induction false} SumBounds(s: seq<real>, lo: real, hi: real)
    requires forall k :: 0 <= k < |s| ==> lo <= s[k] <= hi
    ensures |s| as real * lo <= Sum(s) <= |s| as real * hi
    decreases |s|
  {
    if s != [] {
      SumBounds(s[1..], lo, hi);
    }
  }

  lemma {:induction false} SumAdd3(a: seq<real>, b: seq<real>, c: seq<real>)
    requires |a| == |b| == |c|
    ensures Sum(Add3(a, b, c)) == Sum(a) + Sum(b) + Sum(c)
    decreases |a|
  {
    if a != [] {
      assert Add3(a, b, c)[1..] == Add3(a[1..], b[1..], c[1..]);
      SumAdd3(a[1..], b[1..], c[1..]);
    }
  }

  /** A sum of zeros is zero. */
  lemma SumOfZeros(s: seq<real>)
    ensures (forall i :: 0 <= i < |s| ==> s[i] == 0.0) ==> Sum(s) == 0.0
  {
    if forall i :: 0 <= i < |s| ==> s[i] == 0.0 {
      SumBounds(s, 0.0, 0.0);
    }
  }

  /** The mean of a batch lies between the smallest and largest per-image value. */
  lemma MeanBounds(s: seq<real>, lo: real, hi: real)
    requires |s| > 0
    requires forall k :: 0 <= k < |s| ==> lo <= s[k] <= hi
    ensures lo <= Mean(s) <= hi
  {
    SumBounds(s, lo, hi);
    DivideBounds(Sum(s), |s| as real, lo, hi);
  }

  lemma {:induction false} SumNonNegative(s: seq<real>)
    requires forall k :: 0 <= k < |s| ==> s[k] >= 0.0
    ensures Sum(s) >= 0.0
    decreases |s|
  {
    if s != [] {
      SumNonNegative(s[1..]);
    }
  }

  /** A batch of non-negative values has a non-negative mean. */
  lemma MeanNonNegative(s: seq<real>)
    requires |s| > 0
    requires forall k :: 0 <= k < |s| ==> s[k] >= 0.0
    ensures Mean(s) >= 0.0
  {
    var n := |s| as real;
    SumNonNegative(s);
    MulNonNegative(n - 1.0, Sum(s));
    DivideBounds(Sum(s), n, 0.0, Sum(s));
  }

  /** Means are additive: the sum of three batch means is the batch mean of
      the per-image sums. */
  lemma MeanAdd3(a: seq<real>, b: seq<real>, c: seq<real>)
    requires |a| == |b| == |c| > 0
    ensures Mean(a) + Mean(b) + Mean(c) == Mean(Add3(a, b, c))
  {
    SumAdd3(a, b, c);
    var n := |a| as real;
    var qa, qb, qc := Sum(a) / n, Sum(b) / n, Sum(c) / n;
    assert qa * n == Sum(a) && qb * n == Sum(b) && qc * n == Sum(c);
    assert (qa + qb + qc) * n == Sum(a) + Sum(b) + Sum(c);
  }
}
