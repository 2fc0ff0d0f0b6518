/** Symbols in the complex plane, their energy, and the optional output
    normaliser that pulls a batch of means back inside the unit circle. */
module Constellation {
  import opened Reals

  /** One transmitted point: real and imaginary part. */
  datatype Symbol = Symbol(re: real, im: real)

  /** Instantaneous energy re^2 + im^2 (the squared amplitude). */
  function SqNorm(p: Symbol): (e: real)
    ensures e >= 0.0
  {
    p.re * p.re + p.im * p.im
  }

  function SqNorms(s: seq<Symbol>): (r: seq<real>)
    ensures |r| == |s|
    ensures forall i :: 0 <= i < |s| ==> r[i] == SqNorm(s[i])
  {
    seq(|s|, i requires 0 <= i < |s| => SqNorm(s[i]))
  }

  /** Mean energy of a non-empty batch of symbols. */
  function AvgSq(s: seq<Symbol>): real
    requires |s| > 0
  {
    Mean(SqNorms(s))
  }

  /** `reduce_max(re^2 + im^2)` over a non-empty batch. */
  function MaxSq(s: seq<Symbol>): (m: real)
    requires |s| > 0
    ensures forall i :: 0 <= i < |s| ==> SqNorm(s[i]) <= m
    ensures exists i :: 0 <= i < |s| && SqNorm(s[i]) == m
  {
    if |s| == 1 then SqNorm(s[0])
    else
      var rest := MaxSq(s[1..]);
      assert forall i :: 1 <= i < |s| ==> s[i] == s[1..][i - 1];
      if SqNorm(s[0]) >= rest then SqNorm(s[0]) else rest
  }

  /** The mean energy of a batch lies between 0 and its largest energy. */
  lemma AvgSqBounds(s: seq<Symbol>)
    requires |s| > 0
    ensures 0.0 <= AvgSq(s) <= MaxSq(s)
  {
    MeanBounds(SqNorms(s), MaxSq(s));
  }

  function Relu(x: real): real
  {
    if x > 0.0 then x else 0.0
  }

  /** `relu(A - 1) + 1` for the batch-maximum amplitude A. */
  function Divisor(amp: real): real
  {
    Relu(amp - 1.0) + 1.0
  }

  function Scale(p: Symbol, d: real): Symbol
    requires d != 0.0
  {
    Symbol(p.re / d, p.im / d)
  }

  /** amp is `sqrt(reduce_max(re^2 + im^2))` of the batch (nan, and here
      unconstrained, for an empty batch). */
  predicate IsAmplitude(means: seq<Symbol>, amp: real)
  {
    amp >= 0.0 && (|means| > 0 ==> amp * amp == MaxSq(means))
  }

  function ScaleAll(s: seq<Symbol>, d: real): (r: seq<Symbol>)
    requires d > 0.0
    ensures |r| == |s|
    ensures forall i :: 0 <= i < |s| ==> r[i] == Scale(s[i], d)
  {
    seq(|s|, i requires 0 <= i < |s| => Scale(s[i], d))
  }

  /** Divide every mean of the batch by the one divisor computed from the
      batch amplitude amp. */
  function Normalise(means: seq<Symbol>, amp: real): (r: seq<Symbol>)
  {
    ScaleAll(means, Divisor(amp))
  }

  /** The divisor is at least 1; it is 1 when no mean leaves the unit
      circle, and otherwise its square is the largest squared amplitude. */
  lemma DivisorSpec(means: seq<Symbol>, amp: real)
    requires |means| > 0 && IsAmplitude(means, amp)
    ensures Divisor(amp) >= 1.0
    ensures MaxSq(means) <= 1.0 ==> Divisor(amp) == 1.0
    ensures MaxSq(means) > 1.0 ==> Divisor(amp) == amp
    ensures MaxSq(means) > 1.0 ==> Divisor(amp) * Divisor(amp) == MaxSq(means)
  {
    if amp > 1.0 {
      assert amp * amp > amp * 1.0;
    } else {
      assert amp * amp <= 1.0 * amp;
    }
  }

  /** Dividing a point by d divides its energy by d^2. */
  lemma SqNormScale(p: Symbol, d: real)
    requires d > 0.0
    ensures SqNorm(Scale(p, d)) * (d * d) == SqNorm(p)
  {
    var q := Scale(p, d);
    assert q.re * d == p.re && q.im * d == p.im;
    assert (q.re * d) * (q.re * d) == (q.re * q.re) * (d * d);
    assert (q.im * d) * (q.im * d) == (q.im * q.im) * (d * d);
  }

  lemma AtMostOneByFactor(e: real, m: real)
    requires m > 0.0 && e * m <= m
    ensures e <= 1.0
  {
  }

  lemma OneByFactor(e: real, m: real)
    requires m > 0.0 && e * m == m
    ensures e == 1.0
  {
  }

  /** With d^2 = m > 0, a point of energy at most m lands inside the unit
      circle, and one of energy exactly m lands on it. */
  lemma ScaledEnergy(p: Symbol, d: real, m: real)
    requires d > 0.0 && m > 0.0 && d * d == m && SqNorm(p) <= m
    ensures SqNorm(Scale(p, d)) <= 1.0
    ensures SqNorm(p) == m ==> SqNorm(Scale(p, d)) == 1.0
  {
    SqNormScale(p, d);
    var e := SqNorm(Scale(p, d));
    assert e * m == SqNorm(p);
    AtMostOneByFactor(e, m);
    if SqNorm(p) == m {
      OneByFactor(e, m);
    }
  }

  /** The largest energy is the only bound that some point attains. */
  lemma MaxSqUnique(s: seq<Symbol>, v: real, k: nat)
    requires k < |s| && SqNorm(s[k]) == v
    requires forall i :: 0 <= i < |s| ==> SqNorm(s[i]) <= v
    ensures MaxSq(s) == v
  {
  }

  /** A batch already inside the unit circle passes through unchanged. */
  lemma NormaliseIdentity(means: seq<Symbol>, amp: real)
    requires IsAmplitude(means, amp)
    requires |means| == 0 || MaxSq(means) <= 1.0
    ensures Normalise(means, amp) == means
  {
    if |means| > 0 {
      DivisorSpec(means, amp);
      var r := Normalise(means, amp);
      forall i | 0 <= i < |means|
        ensures r[i] == means[i]
      {
        assert r[i] == Scale(means[i], 1.0);
      }
    }
  }

  /** Scaling by d with d^2 = m moves a batch whose largest energy is m
      inside the unit circle, with its outermost point on it. */
  lemma ScaledBatch(s: seq<Symbol>, d: real, m: real)
    requires |s| > 0 && d > 0.0 && m > 0.0 && d * d == m && m == MaxSq(s)
    ensures MaxSq(ScaleAll(s, d)) == 1.0
  {
    var r := ScaleAll(s, d);
    forall i | 0 <= i < |s|
      ensures SqNorm(r[i]) <= 1.0
    {
      ScaledEnergy(s[i], d, m);
    }
    var k :| 0 <= k < |s| && SqNorm(s[k]) == m;
    ScaledEnergy(s[k], d, m);
    MaxSqUnique(r, 1.0, k);
  }

  /** A batch reaching outside the unit circle has every mean divided by
      the batch amplitude, and its outermost point lands exactly on the
      circle. */
  lemma NormaliseOntoUnitCircle(means: seq<Symbol>, amp: real)
    requires |means| > 0 && IsAmplitude(means, amp)
    requires MaxSq(means) > 1.0
    ensures Divisor(amp) > 1.0
    ensures forall i :: 0 <= i < |means| ==> Normalise(means, amp)[i] == Scale(means[i], amp)
    ensures MaxSq(Normalise(means, amp)) == 1.0
  {
    DivisorSpec(means, amp);
    ScaledBatch(means, amp, MaxSq(means));
  }

  /** After normalisation no point of the batch lies outside the unit circle. */
  lemma NormaliseBounded(means: seq<Symbol>, amp: real)
    requires IsAmplitude(means, amp)
    ensures forall i :: 0 <= i < |means| ==> SqNorm(Normalise(means, amp)[i]) <= 1.0
  {
    if |means| > 0 {
      if MaxSq(means) <= 1.0 {
        NormaliseIdentity(means, amp);
      } else {
        NormaliseOntoUnitCircle(means, amp);
        var r := Normalise(means, amp);
        forall i | 0 <= i < |means|
          ensures SqNorm(r[i]) <= 1.0
        {
          assert SqNorm(r[i]) <= MaxSq(r);
        }
      }
    }
  }
}
