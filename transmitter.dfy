/** The neural transmitter's bookkeeping around its policy: the trajectory
    cache that transmit fills and policy_update reads, the loss, advantage,
    bit-error-rate and energy statistics, and the constellation summary. The
    network, the Gaussian sampling and the optimiser are outside the model:
    their results enter as parameters. */
module Transmitter {
  import opened Outcomes
  import opened Reals
  import opened BitVectors
  import opened Constellation
  import opened Loss

  /** The trainable parameters: the network's weights and the two global
      log standard deviations of the Gaussian heads. */
  datatype Policy = Policy(weights: seq<real>, reLogStd: real, imLogStd: real)

  /** One Adam step on the surrogate objective, given the current
      parameters, the cached trajectory, the advantages and the step size. */
  type Optimiser = (Policy, Trajectory, seq<real>, real) -> Policy

  /** The batch of symbols `transmit` returns: row i is (re[i], im[i]). */
  function Rows(re: seq<real>, im: seq<real>): seq<Symbol>
    requires |re| == |im|
  {
    seq(|re|, i requires 0 <= i < |re| => Symbol(re[i], im[i]))
  }

  /** `dict(zip(keys, vals))`: a later pair overrides an earlier one. */
  function Zip<K(==,!new), V>(keys: seq<K>, vals: seq<V>): (m: map<K, V>)
    requires |keys| == |vals|
  {
    if |keys| == 0 then map[]
    else Zip(keys[..|keys| - 1], vals[..|vals| - 1])[keys[|keys| - 1] := vals[|vals| - 1]]
  }

  /** The dictionary's keys are exactly the keys listed. */
  lemma {:induction false} ZipKeys<K(!new), V>(keys: seq<K>, vals: seq<V>)
    requires |keys| == |vals|
    ensures forall k :: k in Zip(keys, vals) <==> k in keys
  {
    if |keys| > 0 {
      var n := |keys| - 1;
      ZipKeys(keys[..n], vals[..n]);
      assert keys == keys[..n] + [keys[n]];
    }
  }

  /** A distinct prefix of a distinct sequence, and its last element not in it. */
  lemma DistinctInit<K>(keys: seq<K>)
    requires |keys| > 0 && Distinct(keys)
    ensures Distinct(keys[..|keys| - 1])
    ensures keys[|keys| - 1] !in keys[..|keys| - 1]
  {
    var n := |keys| - 1;
    forall i | 0 <= i < n ensures keys[..n][i] != keys[n] {
      assert keys[..n][i] == keys[i];
    }
  }

  /** With distinct keys the dictionary has one entry per pair. */
  lemma {:induction false} ZipSize<K(!new), V>(keys: seq<K>, vals: seq<V>)
    requires |keys| == |vals| && Distinct(keys)
    ensures |Zip(keys, vals)| == |keys|
  {
    if |keys| > 0 {
      var n := |keys| - 1;
      DistinctInit(keys);
      ZipSize(keys[..n], vals[..n]);
      ZipKeys(keys[..n], vals[..n]);
    }
  }

  /** With distinct keys each key maps to the value paired with it. */
  lemma {:induction false} ZipLookup<K(!new), V>(keys: seq<K>, vals: seq<V>)
    requires |keys| == |vals| && Distinct(keys)
    ensures forall i :: 0 <= i < |keys| ==> keys[i] in Zip(keys, vals) && Zip(keys, vals)[keys[i]] == vals[i]
  {
    ZipKeys(keys, vals);
    if |keys| > 0 {
      var n := |keys| - 1;
      var ks, vs := keys[..n], vals[..n];
      DistinctInit(keys);
      ZipLookup(ks, vs);
      forall i | 0 <= i < n
        ensures Zip(keys, vals)[keys[i]] == vals[i]
      {
        assert keys[i] == ks[i] && vals[i] == vs[i];
        assert keys[i] != keys[n];
      }
    }
  }

  /** The mean symbol of every bit-vector, in enumeration order. */
  function Centroids(evaluate: seq<int> -> Symbol, n: nat): (c: seq<Symbol>)
    ensures |c| == |AllBitVectors(n)|
  {
    var bitstrings := AllBitVectors(n);
    seq(|bitstrings|, i requires 0 <= i < |bitstrings| => evaluate(bitstrings[i]))
  }

  class NeuralTransmitter {
    const nBits: nat
    const restrictEnergy: bool
    const lambdaP: real
    var policy: Policy
    /** The trajectory cache; None until the first transmit that saves. */
    var cache: Option<Trajectory>

    ghost predicate Valid()
      reads this
    {
      cache.Some? ==> WellShaped(cache.value, nBits)
    }

    /** The configuration with its defaults; the initial weights come from
        the network's random initialiser. */
    constructor (weights: seq<real>, restrictEnergy: bool := false, nBits: nat := 2,
                 lambdaP: real := 0.1, initialLogStd: real := -2.0)
      ensures Valid()
      ensures this.nBits == nBits && this.restrictEnergy == restrictEnergy && this.lambdaP == lambdaP
      ensures policy == Policy(weights, initialLogStd, initialLogStd)
      ensures cache == None
    {
      this.nBits := nBits;
      this.restrictEnergy := restrictEnergy;
      this.lambdaP := lambdaP;
      policy := Policy(weights, initialLogStd, initialLogStd);
      cache := None;
    }

    /** The means the Gaussian heads are centred on: the network's raw means,
        normalised by the batch amplitude amp when energy is restricted. */
    function OutputMeans(raw: seq<Symbol>, amp: real): (r: seq<Symbol>)
      reads this
      requires IsAmplitude(raw, amp)
      ensures |r| == |raw|
      ensures restrictEnergy ==> forall i :: 0 <= i < |r| ==> SqNorm(r[i]) <= 1.0
      ensures restrictEnergy && (|raw| == 0 || MaxSq(raw) <= 1.0) ==> r == raw
      ensures !restrictEnergy ==> r == raw
    {
      if restrictEnergy then
        NormaliseBounded(raw, amp);
        if |raw| == 0 || MaxSq(raw) <= 1.0 then NormaliseIdentity(raw, amp); Normalise(raw, amp)
        else Normalise(raw, amp)
      else raw
    }

    /** Send a batch: re and im are the parts the Gaussian heads sampled for
        it. A row that is not nBits wide is refused by the input placeholder.
        With save set the batch and its samples replace the cache. */
    method Transmit(bits: seq<seq<int>>, re: seq<real>, im: seq<real>, save: bool := true)
      returns (r: Result<seq<Symbol>>)
      requires Valid()
      requires |re| == |bits| && |im| == |bits|
      modifies this`cache
      ensures Valid()
      ensures r.Ok? <==> forall i :: 0 <= i < |bits| ==> |bits[i]| == nBits
      ensures r.Err? ==> r.error == ShapeMismatch
      ensures r.Ok? ==> |r.value| == |bits| && r.value == Rows(re, im)
      ensures cache == if r.Ok? && save then Some(Trajectory(bits, re, im)) else old(cache)
    {
      if exists i :: 0 <= i < |bits| && |bits[i]| != nBits {
        return Err(ShapeMismatch);
      }
      if save {
        cache := Some(Trajectory(bits, re, im));
      }
      r := Ok(Rows(re, im));
    }

    /** The per-sample lasso loss of the cached batch against a guess batch. */
    function LassoLoss(guess: seq<seq<int>>): (r: Result<seq<real>>)
      reads this
      requires Valid()
      ensures cache.None? ==> r == Err(UninitializedTrajectory)
      ensures cache.Some? && !SameShape(cache.value.input, guess) ==> r == Err(ShapeMismatch)
      ensures r.Ok? <==> cache.Some? && SameShape(cache.value.input, guess)
      ensures r.Ok? ==> |r.value| == |guess|
      ensures r.Ok? && lambdaP >= 0.0 ==> forall i :: 0 <= i < |r.value| ==> r.value[i] >= 0.0
      ensures r.Ok? && restrictEnergy ==>
                forall i :: 0 <= i < |r.value| ==> r.value[i] == L1(cache.value.input[i], guess[i]) as real
    {
      match cache
      case None => Err(UninitializedTrajectory)
      case Some(t) =>
        if !SameShape(t.input, guess) then Err(ShapeMismatch)
        else
          var losses := Losses(t, guess, restrictEnergy, lambdaP);
          assert forall i :: 0 <= i < |losses| ==>
            losses[i] == SampleLoss(t.input[i], guess[i], t.re[i], t.im[i], restrictEnergy, lambdaP);
          if lambdaP >= 0.0 then LossesNonnegative(t, guess, restrictEnergy, lambdaP); Ok(losses)
          else Ok(losses)
    }

    /** One policy-gradient step on the cached batch: the advantage is the
        negated lasso loss, the optimiser updates the parameters, and the
        mean advantage is returned. The cache itself is left as it is. A
        one-sample trajectory was squeezed to scalars when it was saved, and
        the rank-1 action placeholders refuse it before the step is taken. */
    method PolicyUpdate(guess: seq<seq<int>>, stepsize: real, step: Optimiser) returns (r: Result<real>)
      requires Valid()
      modifies this`policy
      ensures Valid() && cache == old(cache)
      ensures LassoLoss(guess).Err? ==> r == Err(LassoLoss(guess).error) && policy == old(policy)
      ensures LassoLoss(guess).Ok? && |guess| == 1 ==> r == Err(ShapeMismatch) && policy == old(policy)
      ensures LassoLoss(guess).Ok? && |guess| != 1 ==>
                policy == step(old(policy), cache.value, Negated(LassoLoss(guess).value), stepsize)
      ensures LassoLoss(guess).Ok? && |guess| == 0 ==> r == Err(NotANumber)
      ensures r.Ok? <==> LassoLoss(guess).Ok? && |guess| >= 2
      ensures r.Ok? ==> (r.value == Mean(Negated(LassoLoss(guess).value)) &&
                         r.value == -Mean(LassoLoss(guess).value))
      ensures r.Ok? && lambdaP >= 0.0 ==> r.value <= 0.0
    {
      var loss := LassoLoss(guess);
      if loss.Err? {
        return Err(loss.error);
      }
      if |guess| == 1 {
        return Err(ShapeMismatch);
      }
      var adv := Negated(loss.value);
      policy := step(policy, cache.value, adv, stepsize);
      if |adv| == 0 {
        return Err(NotANumber);
      }
      MeanOfNegated(loss.value);
      if lambdaP >= 0.0 {
        MeanAdvantageNonpositive(loss.value);
      }
      r := Ok(Mean(adv));
    }

    /** The bit error rate of the cached batch against a guess batch. */
    function SaveBer(guess: seq<seq<int>>): (r: Result<real>)
      reads this
      requires Valid()
      ensures cache.None? ==> r == Err(UninitializedTrajectory)
      ensures cache.Some? && !SameShape(cache.value.input, guess) ==> r == Err(ShapeMismatch)
      ensures cache.Some? && SameShape(cache.value.input, guess) && (|guess| == 0 || nBits == 0) ==>
                r == Err(NotANumber)
      ensures r.Ok? <==> cache.Some? && SameShape(cache.value.input, guess) && |guess| > 0 && nBits > 0
      ensures r.Ok? && IsBitBatch(cache.value.input, nBits) && IsBitBatch(guess, nBits) ==>
                r.value == Mismatches(cache.value.input, guess) as real / (|guess| * nBits) as real &&
                0.0 <= r.value <= 1.0
    {
      match cache
      case None => Err(UninitializedTrajectory)
      case Some(t) =>
        if !SameShape(t.input, guess) then Err(ShapeMismatch)
        else if |guess| == 0 || nBits == 0 then Err(NotANumber)
        else
          if IsBitBatch(t.input, nBits) && IsBitBatch(guess, nBits) then
            BerIsBitErrorRate(t.input, guess, nBits);
            Ok(Ber(t.input, guess, nBits))
          else Ok(Ber(t.input, guess, nBits))
    }

    /** The mean energy of a transmitted batch. */
    function SaveEnergy(signal: seq<Symbol>): (r: Result<real>)
      ensures r.Ok? <==> |signal| > 0
      ensures r.Ok? ==> 0.0 <= r.value <= MaxSq(signal)
      ensures r.Err? ==> r.error == NotANumber
    {
      if |signal| == 0 then Err(NotANumber)
      else AvgSqBounds(signal); Ok(AvgSq(signal))
    }

    /** Evaluate the mean symbol of every bit-vector and report the
        centroid of each 0/1 label and the average power of the centroids. */
    method GetStats(evaluate: seq<int> -> Symbol) returns (centroids: map<seq<int>, Symbol>, avgPower: real)
      ensures |centroids| == Pow2(nBits)
      ensures forall key :: key in centroids ==> IsLabel(key, nBits)
      ensures forall v :: IsBitVector(v, nBits) ==> Label(v) in centroids && centroids[Label(v)] == evaluate(v)
      ensures |Centroids(evaluate, nBits)| > 0 && avgPower == AvgSq(Centroids(evaluate, nBits))
      ensures avgPower >= 0.0
    {
      var bitstrings := AllBitVectors(nBits);
      AllBitVectorsShape(nBits);
      AllBitVectorsDistinct(nBits);
      var coords: seq<Symbol> := [];
      var labels: seq<seq<int>> := [];
      for i := 0 to |bitstrings|
        invariant |coords| == i && |labels| == i
        invariant forall j :: 0 <= j < i ==> coords[j] == evaluate(bitstrings[j])
        invariant forall j :: 0 <= j < i ==> labels[j] == Label(bitstrings[j])
      {
        coords := coords + [evaluate(bitstrings[i])];
        labels := labels + [Label(bitstrings[i])];
      }
      forall j, k | 0 <= j < k < |labels|
        ensures labels[j] != labels[k]
      {
        LabelIsBinary(bitstrings[j], bitstrings[k], nBits);
      }
      ZipSize(labels, coords);
      ZipLookup(labels, coords);
      ZipKeys(labels, coords);
      centroids := Zip(labels, coords);
      forall key | key in centroids
        ensures IsLabel(key, nBits)
      {
        var j :| 0 <= j < |labels| && labels[j] == key;
        LabelIsBinary(bitstrings[j], bitstrings[j], nBits);
      }
      forall v | IsBitVector(v, nBits)
        ensures Label(v) in centroids && centroids[Label(v)] == evaluate(v)
      {
        AllBitVectorsComplete(nBits, v);
        var j :| 0 <= j < |bitstrings| && bitstrings[j] == v;
        assert labels[j] == Label(v);
      }
      assert coords == Centroids(evaluate, nBits);
      avgPower := AvgSq(coords);
      AvgSqBounds(coords);
    }
  }
}
