/** Sums and averages over batches of reals (`np.sum`, `np.average`), with
    the bounds the loss and energy statistics rely on. */
module Reals {

  function Sum(xs: seq<real>): real
  {
    if |xs| == 0 then 0.0 else xs[0] + Sum(xs[1..])
  }

  /** `np.average` of a non-empty batch. */
  function Mean(xs: seq<real>): real
    requires |xs| > 0
  {
    Sum(xs) / |xs| as real
  }

  /** Element-wise negation, as the unary minus on a numpy vector. */
  function Negated(xs: seq<real>): (r: seq<real>)
    ensures |r| == |xs|
  {
    seq(|xs|, i requires 0 <= i < |xs| => -xs[i])
  }

  lemma {:induction false} SumBounds(xs: seq<real>, c: real)
    requires forall i :: 0 <= i < |xs| ==> 0.0 <= xs[i] <= c
    ensures 0.0 <= Sum(xs) <= |xs| as real * c
  {
    if |xs| > 0 {
      SumBounds(xs[1..], c);
    }
  }

  lemma {:induction false} SumNonnegative(xs: seq<real>)
    requires forall i :: 0 <= i < |xs| ==> xs[i] >= 0.0
    ensures Sum(xs) >= 0.0
  {
    if |xs| > 0 {
      SumNonnegative(xs[1..]);
    }
  }

  lemma {:induction false} SumOfNegated(xs: seq<real>)
    ensures Sum(Negated(xs)) == -Sum(xs)
  {
    if |xs| > 0 {
      assert Negated(xs)[1..] == Negated(xs[1..]);
      SumOfNegated(xs[1..]);
    }
  }

  /** An average of values in [0, c] lies in [0, c]. */
  lemma MeanBounds(xs: seq<real>, c: real)
    requires |xs| > 0
    requires forall i :: 0 <= i < |xs| ==> 0.0 <= xs[i] <= c
    ensures 0.0 <= Mean(xs) <= c
  {
    SumBounds(xs, c);
    var n := |xs| as real;
    assert Sum(xs) / n <= (n * c) / n;
  }

  lemma FractionBounds(a: real, b: real)
    requires 0.0 <= a <= b && b > 0.0
    ensures 0.0 <= a / b <= 1.0
  {
  }

  /** The average of non-negative values is non-negative. */
  lemma MeanNonnegative(xs: seq<real>)
    requires |xs| > 0
    requires forall i :: 0 <= i < |xs| ==> xs[i] >= 0.0
    ensures Mean(xs) >= 0.0
  {
    SumNonnegative(xs);
  }

  /** Averaging commutes with negation. */
  lemma MeanOfNegated(xs: seq<real>)
    requires |xs| > 0
    ensures Mean(Negated(xs)) == -Mean(xs)
  {
    SumOfNegated(xs);
  }
}
