/** Values shared by every part of the model: optional values (a missing
    or NaN cell of a table is None), results with an error, and the sum and
    arithmetic mean of a sequence of reals. */
module Values {

  datatype Option<+T> = None | Some(value: T)

  datatype Result<+T, +E> = Success(value: T) | Failure(error: E)

  /** Sum of a sequence, accumulated from the front as a running total does. */
  function Sum(xs: seq<real>): real
    decreases |xs|
  {
    if |xs| == 0 then 0.0 else Sum(xs[..|xs| - 1]) + xs[|xs| - 1]
  }

  /** The arithmetic mean; pandas' rolling and group means are this. */
  function Mean(xs: seq<real>): real
    requires |xs| > 0
  {
    Sum(xs) / (|xs| as real)
  }

  /** Python's built-in `max(a, b)` where `b` may be NaN: `b` wins only when
      `b > a`, and a comparison with NaN is false, so `max(a, NaN) == a`. */
  function PyMax(a: real, b: Option<real>): (r: real)
    ensures r >= a
    ensures b.Some? ==> r >= b.value
    ensures r == a || (b.Some? && r == b.value)
  {
    if b.Some? && b.value > a then b.value else a
  }

  function Abs(x: real): (r: real)
    ensures r >= 0.0 && (r == x || r == -x)
  {
    if x < 0.0 then -x else x
  }

  lemma MulNonneg(p: real, q: real)
    requires p >= 0.0 && q >= 0.0
    ensures p * q >= 0.0
  {
  }

  lemma {:induction false} SumAppend(a: seq<real>, b: seq<real>)
    ensures Sum(a + b) == Sum(a) + Sum(b)
    decreases |b|
  {
    if |b| == 0 {
      assert a + b == a;
    } else {
      var b' := b[..|b| - 1];
      assert (a + b)[..|a + b| - 1] == a + b';
      SumAppend(a, b');
    }
  }

  /** Every element at least `lo` puts the sum at least `|xs| * lo`. */
  lemma {:induction false} SumAtLeast(xs: seq<real>, lo: real)
    requires forall i :: 0 <= i < |xs| ==> lo <= xs[i]
    ensures (|xs| as real) * lo <= Sum(xs)
    decreases |xs|
  {
    if |xs| > 0 {
      SumAtLeast(xs[..|xs| - 1], lo);
    }
  }

  /** Every element at most `hi` puts the sum at most `|xs| * hi`. */
  lemma {:induction false} SumAtMost(xs: seq<real>, hi: real)
    requires forall i :: 0 <= i < |xs| ==> xs[i] <= hi
    ensures Sum(xs) <= (|xs| as real) * hi
    decreases |xs|
  {
    if |xs| > 0 {
      SumAtMost(xs[..|xs| - 1], hi);
    }
  }

  lemma MeanAtLeast(xs: seq<real>, lo: real)
    requires |xs| > 0
    requires forall i :: 0 <= i < |xs| ==> lo <= xs[i]
    ensures lo <= Mean(xs)
  {
    SumAtLeast(xs, lo);
    var n := |xs| as real;
    assert Mean(xs) * n == Sum(xs);
  }

  lemma MeanAtMost(xs: seq<real>, hi: real)
    requires |xs| > 0
    requires forall i :: 0 <= i < |xs| ==> xs[i] <= hi
    ensures Mean(xs) <= hi
  {
    SumAtMost(xs, hi);
    var n := |xs| as real;
    assert Mean(xs) * n == Sum(xs);
  }

  /** The mean of a window holding one value throughout is that value. */
  lemma MeanOfConstant(xs: seq<real>, v: real)
    requires |xs| > 0
    requires forall i :: 0 <= i < |xs| ==> xs[i] == v
    ensures Mean(xs) == v
  {
    MeanAtLeast(xs, v);
    MeanAtMost(xs, v);
  }
}
