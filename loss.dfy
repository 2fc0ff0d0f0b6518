/** The trajectory cache's contents, the lasso loss computed from it, the
    advantage that drives the policy-gradient step, and the bit error rate. */
module Loss {
  import opened Reals
  import opened BitVectors
  import opened Constellation

  /** The single-slot cache: the input bit-vectors of the last saved batch
      and the real and imaginary parts sampled for them. */
  datatype Trajectory = Trajectory(input: seq<seq<int>>, re: seq<real>, im: seq<real>)

  /** One sampled part per input row, and every row n bits wide. */
  predicate WellShaped(t: Trajectory, n: nat)
  {
    |t.re| == |t.input| && |t.im| == |t.input| &&
    forall i :: 0 <= i < |t.input| ==> |t.input[i]| == n
  }

  /** Two batches of the same shape, row for row. */
  predicate SameShape(a: seq<seq<int>>, b: seq<seq<int>>)
  {
    |a| == |b| && forall i :: 0 <= i < |a| ==> |a[i]| == |b[i]|
  }

  /** Every row is a {-1, +1} vector of n bits. */
  predicate IsBitBatch(rows: seq<seq<int>>, n: nat)
  {
    forall i :: 0 <= i < |rows| ==> IsBitVector(rows[i], n)
  }

  /** `lambda_p * (re^2 + im^2)` for one sampled symbol. */
  function PowerPenalty(lambdaP: real, re: real, im: real): real
  {
    lambdaP * SqNorm(Symbol(re, im))
  }

  /** One entry of the lasso loss: the L1 distance between the input and the
      guess (not halved), plus the power penalty unless energy is restricted. */
  function SampleLoss(x: seq<int>, g: seq<int>, re: real, im: real, restrictEnergy: bool, lambdaP: real): real
    requires |x| == |g|
  {
    if restrictEnergy then L1(x, g) as real
    else L1(x, g) as real + PowerPenalty(lambdaP, re, im)
  }

  /** The lasso loss of every cached sample against its guess. */
  function Losses(t: Trajectory, guess: seq<seq<int>>, restrictEnergy: bool, lambdaP: real): (r: seq<real>)
    requires |t.re| == |t.input| && |t.im| == |t.input| && SameShape(t.input, guess)
    ensures |r| == |guess|
  {
    seq(|guess|, i requires 0 <= i < |guess| =>
      SampleLoss(t.input[i], guess[i], t.re[i], t.im[i], restrictEnergy, lambdaP))
  }

  /** With energy restricted the loss is the plain L1 distance: non-negative,
      zero exactly on a correct guess, and twice the number of wrong bits
      when both rows are {-1, +1} vectors. */
  lemma RestrictedLoss(x: seq<int>, g: seq<int>, re: real, im: real, lambdaP: real)
    requires |x| == |g|
    ensures SampleLoss(x, g, re, im, true, lambdaP) == L1(x, g) as real
    ensures SampleLoss(x, g, re, im, true, lambdaP) >= 0.0
    ensures SampleLoss(x, g, re, im, true, lambdaP) == 0.0 <==> x == g
    ensures IsBitVector(x, |x|) && IsBitVector(g, |x|) ==>
              SampleLoss(x, g, re, im, true, lambdaP) == 2.0 * Hamming(x, g) as real
  {
    L1ZeroIff(x, g);
    if IsBitVector(x, |x|) && IsBitVector(g, |x|) {
      L1IsTwiceHamming(x, g);
    }
  }

  lemma PenaltyNonnegative(lambdaP: real, e: real)
    requires lambdaP >= 0.0 && e >= 0.0
    ensures lambdaP * e >= 0.0
    ensures lambdaP > 0.0 ==> (lambdaP * e == 0.0 <==> e == 0.0)
  {
  }

  /** Without the restriction, and for a non-negative coefficient, the loss
      is at least the restricted one; with a positive coefficient it is zero
      exactly when the guess is right and the sampled symbol has no energy. */
  lemma UnrestrictedLoss(x: seq<int>, g: seq<int>, re: real, im: real, lambdaP: real)
    requires |x| == |g| && lambdaP >= 0.0
    ensures SampleLoss(x, g, re, im, false, lambdaP) >= SampleLoss(x, g, re, im, true, lambdaP) >= 0.0
    ensures lambdaP > 0.0 ==>
              (SampleLoss(x, g, re, im, false, lambdaP) == 0.0 <==> x == g && SqNorm(Symbol(re, im)) == 0.0)
  {
    L1ZeroIff(x, g);
    PenaltyNonnegative(lambdaP, SqNorm(Symbol(re, im)));
  }

  /** For a non-negative coefficient every per-sample loss is non-negative. */
  lemma LossesNonnegative(t: Trajectory, guess: seq<seq<int>>, restrictEnergy: bool, lambdaP: real)
    requires |t.re| == |t.input| && |t.im| == |t.input| && SameShape(t.input, guess)
    requires lambdaP >= 0.0
    ensures forall i :: 0 <= i < |guess| ==> Losses(t, guess, restrictEnergy, lambdaP)[i] >= 0.0
  {
    forall i | 0 <= i < |guess|
      ensures Losses(t, guess, restrictEnergy, lambdaP)[i] >= 0.0
    {
      UnrestrictedLoss(t.input[i], guess[i], t.re[i], t.im[i], lambdaP);
    }
  }

  /** The advantage is the negated loss, so its mean is the negated mean
      loss and never positive when the losses are non-negative. */
  lemma MeanAdvantageNonpositive(losses: seq<real>)
    requires |losses| > 0
    requires forall i :: 0 <= i < |losses| ==> losses[i] >= 0.0
    ensures Mean(Negated(losses)) == -Mean(losses)
    ensures Mean(Negated(losses)) <= 0.0
  {
    MeanOfNegated(losses);
    MeanNonnegative(losses);
  }

  /** `np.sum(L1 / 2)` over the rows of the batch. */
  function TotalHalfL1(input: seq<seq<int>>, guess: seq<seq<int>>): real
    requires SameShape(input, guess)
  {
    if |guess| == 0 then 0.0
    else L1(input[0], guess[0]) as real / 2.0 + TotalHalfL1(input[1..], guess[1..])
  }

  /** The number of wrong bits over the whole batch. */
  function Mismatches(input: seq<seq<int>>, guess: seq<seq<int>>): nat
    requires SameShape(input, guess)
  {
    if |guess| == 0 then 0
    else Hamming(input[0], guess[0]) + Mismatches(input[1..], guess[1..])
  }

  /** Bit error rate: half the L1 distance summed over the batch, divided
      by the number of bits in the guess batch (B rows of n bits). */
  function Ber(input: seq<seq<int>>, guess: seq<seq<int>>, n: nat): real
    requires SameShape(input, guess) && |guess| > 0 && n > 0
  {
    TotalHalfL1(input, guess) / (|guess| * n) as real
  }

  /** On {-1, +1} batches half the L1 distance counts the wrong bits, and
      there are at most B * n of them. */
  lemma {:induction false} HalfL1CountsMismatches(input: seq<seq<int>>, guess: seq<seq<int>>, n: nat)
    requires SameShape(input, guess) && IsBitBatch(input, n) && IsBitBatch(guess, n)
    ensures TotalHalfL1(input, guess) == Mismatches(input, guess) as real
    ensures Mismatches(input, guess) <= |guess| * n
  {
    if |guess| > 0 {
      var rest, restGuess := input[1..], guess[1..];
      assert SameShape(rest, restGuess) && IsBitBatch(rest, n) && IsBitBatch(restGuess, n) by {
        assert forall i :: 0 <= i < |rest| ==> rest[i] == input[i + 1] && restGuess[i] == guess[i + 1];
      }
      L1IsTwiceHamming(input[0], guess[0]);
      HalfL1CountsMismatches(rest, restGuess, n);
      assert |guess| * n == |restGuess| * n + n;
    }
  }

  /** For {-1, +1} batches the rate is the fraction of wrong bits, in [0, 1]. */
  lemma BerIsBitErrorRate(input: seq<seq<int>>, guess: seq<seq<int>>, n: nat)
    requires SameShape(input, guess) && |guess| > 0 && n > 0
    requires IsBitBatch(input, n) && IsBitBatch(guess, n)
    ensures Ber(input, guess, n) == Mismatches(input, guess) as real / (|guess| * n) as real
    ensures 0.0 <= Ber(input, guess, n) <= 1.0
  {
    HalfL1CountsMismatches(input, guess, n);
    FractionBounds(Mismatches(input, guess) as real, (|guess| * n) as real);
  }
}
