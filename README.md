# Neural transmitter: the bookkeeping around the policy

`NeuralTransmitter` (in `main/transmitter.py`) is the transmitting agent of a
cooperative pair that learns a modulation scheme by policy gradients. A
network maps each bit-vector over {-1, +1} to the mean of a Gaussian in the
complex plane. `transmit` samples one symbol per bit-vector and may save the
batch as the training episode. The receiver's guess of the bits is then scored
by a lasso loss: the L1 distance plus, unless energy is restricted, a power
penalty. The negated loss is the advantage fed to one Adam step. Bit error
rate, energy and constellation statistics are reported alongside.

This project models that bookkeeping in Dafny:

- `outcomes.dfy` (`Outcomes`): `Option` and `Result`, plus the three ways the
  source fails:
  - reading the cache before any saving `transmit` (an `AttributeError`);
  - shape mismatches;
  - numpy's `nan` for an empty average or a zero division.
- `reals.dfy` (`Reals`): `np.sum` and `np.average` over reals, with bounds.
- `bitvectors.dfy` (`BitVectors`):
  - the L1 distance of one row and the Hamming distance it stands for;
  - the `itertools.product([-1, 1], repeat=n)` enumeration;
  - the `(bs + 1) / 2` labels.
- `constellation.dfy` (`Constellation`):
  - symbols and their energy `re^2 + im^2`;
  - the batch maximum;
  - the energy normaliser `relu(A - 1) + 1`.
- `loss.dfy` (`Loss`):
  - the cached trajectory;
  - the per-sample lasso loss, which does not halve the L1 distance;
  - the advantage;
  - the bit error rate, which does halve it.
- `transmitter.dfy` (`Transmitter`): the class `NeuralTransmitter`.
  - It holds the configuration, the trainable `policy` and the single-slot
    trajectory `cache` (an `Option`, `None` until the first saving transmit).
  - Its methods and functions are `Transmit`, `LassoLoss`, `PolicyUpdate`,
    `SaveBer`, `SaveEnergy`, `OutputMeans` and `GetStats`.

What the model takes as parameters:

- The Gaussian draws of `transmit` are the `re` and `im` arguments of
  `Transmit`: any sequences of the batch length.
- One Adam step on the surrogate objective is the `step` argument of
  `PolicyUpdate`.
- `self.evaluate`, the mean symbol of one bit-vector, is the `evaluate`
  argument of `GetStats`. It is used but not defined in the file.
- `tf.sqrt` of the batch's largest squared amplitude is the `amp` argument of
  the normaliser. `IsAmplitude` ties it to the batch (`amp >= 0` and
  `amp * amp == MaxSq(means)`).

Bits are integers and the float32 arithmetic is idealised as `real`.

## Model

| member | source | states |
|---|---|---|
| Reals.MeanBounds | main/transmitter.py:310 | an average of values in [0, c] lies in [0, c] |
| Reals.MeanOfNegated | main/transmitter.py:151-162 | the average of the negated losses is minus the average loss |
| BitVectors.L1 | main/transmitter.py:327 | definition of `np.linalg.norm(a - b, ord=1)` for one row; its properties are stated by `L1ZeroIff` and `L1IsTwiceHamming` |
| BitVectors.AllBitVectors | main/transmitter.py:344 | definition of `itertools.product([-1, 1], repeat=n)` in its order; its properties are stated by `AllBitVectorsShape`, `AllBitVectorsDistinct` and `AllBitVectorsComplete` |
| BitVectors.Label | main/transmitter.py:348 | definition of the label `(bs + 1) / 2`; its properties are stated by `LabelIsBinary` |
| BitVectors.Hamming | main/transmitter.py:293 | the number of differing bits is at most the row length, and zero exactly when the rows are equal |
| BitVectors.L1ZeroIff | main/transmitter.py:327 | the L1 distance of two rows is zero if and only if the rows are equal |
| BitVectors.L1IsTwiceHamming | main/transmitter.py:293 | on {-1, +1} rows the L1 distance is twice the number of differing bits, so halving it counts bit errors |
| BitVectors.AllBitVectorsShape | main/transmitter.py:344 | the enumeration has 2^n entries, each a {-1, +1} vector of length n |
| BitVectors.AllBitVectorsDistinct | main/transmitter.py:344 | no bit-vector is enumerated twice |
| BitVectors.AllBitVectorsComplete | main/transmitter.py:344 | every {-1, +1} vector of length n is enumerated |
| BitVectors.LabelIsBinary | main/transmitter.py:348 | the label (bs + 1) / 2 of a bit-vector lies in {0, 1}^n, and distinct bit-vectors get distinct labels |
| Constellation.SqNorm | main/transmitter.py:86 | the energy re^2 + im^2 of a symbol is non-negative |
| Constellation.MaxSq | main/transmitter.py:86 | reduce_max of the energies bounds every energy of the batch and is attained by one of them |
| Constellation.AvgSq | main/transmitter.py:310 | definition of `np.average(np.sum(np.square(signal), axis=1))`; bounded by `AvgSqBounds` |
| Constellation.Divisor | main/transmitter.py:87 | definition of `relu(A - 1) + 1`; its properties are stated by `DivisorSpec` |
| Constellation.Normalise | main/transmitter.py:85-89 | definition of dividing every mean by the one divisor; its properties are stated by `NormaliseIdentity`, `NormaliseOntoUnitCircle` and `NormaliseBounded` |
| Constellation.AvgSqBounds | main/transmitter.py:310 | the mean energy of a non-empty batch lies between 0 and its largest energy |
| Constellation.DivisorSpec | main/transmitter.py:86-87 | the divisor relu(A - 1) + 1 is at least 1; it is 1 when the largest squared amplitude is at most 1; otherwise it is A and its square is that largest squared amplitude |
| Constellation.SqNormScale | main/transmitter.py:88-89 | dividing a symbol by d divides its energy by d^2 |
| Constellation.ScaledEnergy | main/transmitter.py:88-89 | dividing by d with d^2 = m puts a symbol of energy at most m inside the unit circle, and one of energy m on it |
| Constellation.ScaledBatch | main/transmitter.py:88-89 | dividing a batch by the square root of its largest energy makes the largest energy exactly 1 |
| Constellation.NormaliseIdentity | main/transmitter.py:85-89 | a batch whose means all lie inside the unit circle passes through the normaliser unchanged |
| Constellation.NormaliseOntoUnitCircle | main/transmitter.py:85-89 | a batch reaching outside the unit circle has every mean divided by the same factor, the amplitude A > 1, and afterwards its largest energy is exactly 1 |
| Constellation.NormaliseBounded | main/transmitter.py:85-89 | after normalisation no mean has energy above 1 |
| Loss.SampleLoss | main/transmitter.py:326-332 | definition of one entry of the lasso loss: the unhalved L1 distance, plus `lambda_p * (re^2 + im^2)` unless energy is restricted; its properties are stated by `RestrictedLoss` and `UnrestrictedLoss` |
| Loss.Losses | main/transmitter.py:325-332 | definition of the loss vector, one entry per sample; non-negative by `LossesNonnegative` |
| Loss.TotalHalfL1 | main/transmitter.py:293 | definition of `np.sum(L1 / 2)` over the batch; related to the wrong-bit count by `HalfL1CountsMismatches` |
| Loss.Ber | main/transmitter.py:293 | definition of the bit error rate, the sum of half L1 distances over B * n; its properties are stated by `BerIsBitErrorRate` |
| Loss.RestrictedLoss | main/transmitter.py:326-327 | with energy restricted the loss is the L1 distance: non-negative, zero exactly on a correct guess, twice the Hamming distance on {-1, +1} rows |
| Loss.UnrestrictedLoss | main/transmitter.py:330-332 | with the penalty and lambda_p >= 0 the loss is at least the restricted one, which is at least 0; with lambda_p > 0 it is zero exactly on a correct guess with a zero-energy sample |
| Loss.LossesNonnegative | main/transmitter.py:325-332 | for lambda_p >= 0 every per-sample loss of a batch is non-negative |
| Loss.MeanAdvantageNonpositive | main/transmitter.py:151-162 | the mean advantage is minus the mean loss and is at most 0 when the losses are non-negative |
| Loss.HalfL1CountsMismatches | main/transmitter.py:293 | on {-1, +1} batches the sum of half L1 distances equals the number of wrong bits, which is at most B * n |
| Loss.BerIsBitErrorRate | main/transmitter.py:293 | for {-1, +1} batches of equal shape the bit error rate is the wrong bits over B * n, and lies in [0, 1] |
| Transmitter.Rows | main/transmitter.py:198 | definition of the transmitted signal, row i being (re[i], im[i]); `Transmit`'s contract ties its result to it |
| Transmitter.Zip | main/transmitter.py:352 | definition of `dict(zip(keys, values))`, later pairs overriding earlier ones; its properties are stated by `ZipKeys`, `ZipSize` and `ZipLookup` |
| Transmitter.Centroids | main/transmitter.py:346-347 | definition of the evaluated centroid of every enumerated bit-vector, in enumeration order; `GetStats`'s contract ties the average power to it |
| Transmitter.ZipKeys | main/transmitter.py:352 | dict(zip(keys, values)) has exactly the listed keys |
| Transmitter.ZipSize | main/transmitter.py:352 | with distinct keys the dictionary has one entry per key |
| Transmitter.ZipLookup | main/transmitter.py:352 | with distinct keys each key maps to the value paired with it |
| Transmitter.NeuralTransmitter.constructor | main/transmitter.py:19-95 | the configuration, with the source's defaults (restrict_energy false, n_bits 2, lambda_p 0.1, both log standard deviations -2.0) and an empty trajectory cache |
| Transmitter.NeuralTransmitter.OutputMeans | main/transmitter.py:85-89 | with energy restricted every output mean lies inside the unit circle, and a batch already inside is unchanged; without the restriction the means are the network's own |
| Transmitter.NeuralTransmitter.Transmit | main/transmitter.py:187-199 | succeeds exactly when every row has n_bits entries; the signal row i is (re[i], im[i]); with save the cache becomes this batch and its samples, without save the cache is left as it was |
| Transmitter.NeuralTransmitter.LassoLoss | main/transmitter.py:325-332 | fails with an empty cache or a guess of another shape, and succeeds otherwise, with one loss per sample, non-negative for lambda_p >= 0, the plain L1 distance when energy is restricted |
| Transmitter.NeuralTransmitter.PolicyUpdate | main/transmitter.py:150-162 | the cache is unchanged; on a loss error, or a one-sample trajectory whose squeezed samples the action placeholders refuse, the policy is unchanged and the error is reported; otherwise the optimiser is applied to the negated losses; the result exists exactly when the loss does and the batch has at least two samples, and it is then the mean of the negated losses, minus the mean loss, at most 0 for lambda_p >= 0; an empty batch gives nan |
| Transmitter.NeuralTransmitter.SaveBer | main/transmitter.py:292-295 | fails with an empty cache or a guess of another shape, is nan for an empty batch or zero-width rows, and succeeds otherwise; for {-1, +1} batches it is the fraction of wrong bits, in [0, 1] |
| Transmitter.NeuralTransmitter.SaveEnergy | main/transmitter.py:309-312 | the mean energy of the signal exists exactly when the signal is non-empty, and lies between 0 and its largest energy |
| Transmitter.NeuralTransmitter.GetStats | main/transmitter.py:339-356 | the centroid map has 2^n_bits keys, each a 0/1 label of length n_bits; the label of every bit-vector maps to that bit-vector's evaluated centroid; the average power is the mean energy of the centroids and is non-negative |

## Left out

- The network layers and their initialisers (`main/transmitter.py:52-80`): the raw means enter `OutputMeans` as an argument.
- The Gaussian heads, `exp` of the log standard deviations, sampling, log-probabilities, the surrogate objective and the Adam optimiser (`main/transmitter.py:96-120`): these are stochastic float numerics inside TensorFlow. The draws are the `re`/`im` arguments of `Transmit`, and the optimiser step is the `step` argument of `PolicyUpdate`.
- Transmitter.NeuralTransmitter.Transmit: does not tie `re`/`im` to `OutputMeans`. In the source they are Gaussian draws around those means, and no property of a single draw follows from that.
- The TensorFlow session (`main/transmitter.py:125-126`) and the placeholders' float32 type: reals stand for float32, with no rounding.
- `visualize` (`main/transmitter.py:215-276`): plotting, random scatter data, and the Eb/N0 figure computed with `log10`.
- The file appends in `save_ber` and `save_energy` (`main/transmitter.py:294-295`, `311-312`): I/O. `SaveBer` and `SaveEnergy` return the number that would be written.
- The paths built from `dirname` (`main/transmitter.py:36-39`). With the default `dirname=None`, line 37 raises `TypeError`, so the source cannot be built with all its defaults; the model's constructor can, since it has no paths.
- The `preamble` argument, which is never read, and `groundtruth`, which only the left-out `visualize` reads (`main/transmitter.py:247-250`).
- `util.avg_hamming`, the third result of `get_stats` (`main/transmitter.py:356`), and `util.qpsk`: util is not part of this model.
- `tf.sqrt` (`main/transmitter.py:86`): the batch amplitude is an argument constrained by its square.
- numpy broadcasting: a guess batch of one row against a longer cached batch would broadcast in the source. The model reports `ShapeMismatch` instead.
- The squeeze of a one-sample batch in `transmit`: for B = 1, `np.squeeze` makes `transmit` return a flat pair of shape (2,), on which `save_energy`'s `axis=1` would raise. `Transmit` returns one row per sample for every B, and `SaveEnergy` accepts that row. The same squeeze makes the cached samples scalars, which the rank-1 action placeholders refuse; `PolicyUpdate` does model that as a `ShapeMismatch` with the policy unchanged.
- The labels of `get_stats` are floats (0.0 and 1.0) in the source, and integers in the model.
- A nan result is not propagated in the model: `PolicyUpdate` still applies the optimiser step to an empty batch, as the source does, but reports `NotANumber` instead of returning nan.
