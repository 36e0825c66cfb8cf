# Mixup accuracy accumulator in Dafny

This project models `VirtualFusionAccuracy`, an accuracy metric for
classifiers trained on mixup data. In mixup, each example blends two source
examples, so it carries two labels (`targets_a`, `targets_b`) and a weight
`lam` toward the first. The metric keeps two counters, `correct` and
`total`, and starts with both at zero. Workers combine their counters by
summing them.

- `update` checks that the four inputs have matching shapes, takes the
  arg-max of each row of scores, credits `lam` for a hit on `targets_a` and
  `1 - lam` for a hit on `targets_b`, truncates the batch's credit to an
  integer, adds that to `correct` and adds the batch size to `total`.
- `compute` returns `correct / total`.

Modules:

- `Scores` (`scores.dfy`): rows of class scores, the first-maximum arg-max
  `ArgMax` and the per-example predictions `Preds`.
- `Credit` (`credit.dfy`): the per-example credit and the batch credit in
  two forms. `BatchCredit` sums the two masked weight products separately.
  `SumCredit` adds up per-example credits. The module also holds truncation
  toward zero.
- `FusionAccuracy` (`fusion_accuracy.dfy`): the `State` record, the `Batch`
  record, `Update` (returns the new state or the refusal reason), `Step`
  (the object's state after a call, refused or not), `Run` over a sequence
  of batches, the sum-merge `Merge` and `Compute`.
- `Scenarios` (`scenarios.dfy`): concrete batches worked through the model.

Scores and weights are exact reals. A refused update is the `Rejected`
value of `UpdateResult`. This stands for the source's failed `assert`.
Because every check comes before any change, `Step` keeps the old state
in that case.

## Model

| member | source | states |
|---|---|---|
| Scores.ArgMax | virtual_fusion_accuracy.py:19 | the prediction of a non-empty row is a valid index; its score is at least every other score of the row; every earlier score is strictly smaller (first maximum on ties) |
| Scores.FirstMaxIsArgMax | virtual_fusion_accuracy.py:19 | an index is the first maximum of a row exactly when it is the one `ArgMax` returns, so the prediction is uniquely determined |
| Scores.Preds | virtual_fusion_accuracy.py:19 | one prediction per row of outputs, each the first maximum of its row |
| Credit.ExampleCredit | virtual_fusion_accuracy.py:22 | an example's credit lies in [0,1] when its weight does; it is exactly 1 when both labels equal the prediction, whatever the weight; it is 0 when neither does |
| Credit.Complement | virtual_fusion_accuracy.py:22 | the weights toward the second label have one entry per example, each adding up with its `lam` to 1 |
| Credit.HitWeight | virtual_fusion_accuracy.py:22 | the masked weight sum of one label set lies between 0 and the number of hits when the weights lie in [0,1], and is 0 when no prediction hits its label |
| Credit.BatchCredit | virtual_fusion_accuracy.py:22 | the source's sum of the two masked products is 0 when no prediction hits either label; its equality with the per-example reference `SumCredit` is `BatchCreditIsSumOfCredits` |
| Credit.BatchCreditIsSumOfCredits | virtual_fusion_accuracy.py:22 | adding the masked sum over the first labels to the complementary masked sum over the second labels gives the sum of per-example credits |
| Credit.SumCreditBounds | virtual_fusion_accuracy.py:22 | with every weight in [0,1], a batch's credit lies between 0 and the batch size |
| Credit.SameTargetsCountHits | virtual_fusion_accuracy.py:22 | when the two labels agree on every example, the batch credit is the number of examples predicted correctly, whatever the weights |
| Credit.TruncateTowardZero | virtual_fusion_accuracy.py:23 | the integer conversion drops the fractional part toward zero: for a non-negative sum it is the largest integer not above it, for a negative sum the smallest integer not below it |
| FusionAccuracy.Update | virtual_fusion_accuracy.py:15-25 | the update succeeds exactly for well-shaped batches with non-empty rows; the three shape checks refuse in source order; on success `total` grows by the batch size and `correct` by the truncated sum of per-example credits |
| FusionAccuracy.Step | virtual_fusion_accuracy.py:16-25 | after one update call, a malformed batch leaves the state as it was, and `total` grows by the batch size exactly when the batch is accepted (the growth of `correct` is stated by `Update`) |
| FusionAccuracy.StepRejectedUnchanged | virtual_fusion_accuracy.py:16-18 | an update is refused exactly when the batch is malformed, and a refused update leaves both counters as they were |
| FusionAccuracy.UpdateCorrectBounds | virtual_fusion_accuracy.py:22-23 | with weights in [0,1], `correct` grows by the floor of the batch credit, which lies between 0 and the batch size |
| FusionAccuracy.UpdatePreservesInv | virtual_fusion_accuracy.py:22-25 | with weights in [0,1], an update (accepted or refused) keeps `0 <= correct <= total` |
| FusionAccuracy.UpdateSameTargets | virtual_fusion_accuracy.py:22-23 | when both labels agree on every example, `correct` grows by exactly the number of correct predictions |
| FusionAccuracy.Merge | virtual_fusion_accuracy.py:12-13 | summing two states adds the other state's counters to each counter, and preserves `0 <= correct <= total` |
| FusionAccuracy.MergeCommutative | virtual_fusion_accuracy.py:12-13 | the sum reduction does not depend on the order of the two workers |
| FusionAccuracy.MergeAssociative | virtual_fusion_accuracy.py:12-13 | the sum reduction does not depend on the grouping of three workers |
| FusionAccuracy.MergeIdentity | virtual_fusion_accuracy.py:12-13 | the zero initial state is the identity of the sum reduction |
| FusionAccuracy.Run | virtual_fusion_accuracy.py:15-25 | over successive update calls `total` never decreases; the exact growth is `RunTotal` |
| FusionAccuracy.RunTotal | virtual_fusion_accuracy.py:16-25 | across any sequence of updates, `total` grows by exactly the number of examples in the batches that pass the checks, whatever the weights |
| FusionAccuracy.RunMonotone | virtual_fusion_accuracy.py:22-25 | across any sequence of updates with weights in [0,1], `correct` never decreases, and `0 <= correct <= total` holds from start to end |
| FusionAccuracy.StepShift | virtual_fusion_accuracy.py:22-25 | an update adds the same amounts whatever state it starts from |
| FusionAccuracy.RunShift | virtual_fusion_accuracy.py:22-25 | a sequence of updates adds the same amounts whatever state it starts from |
| FusionAccuracy.RunConcat | virtual_fusion_accuracy.py:15-25 | running two sequences of batches one after the other is running their concatenation |
| FusionAccuracy.WorkersMerge | virtual_fusion_accuracy.py:12-13 | two zero-started workers that split the batches between them and then merge end in the same state as one accumulator that saw every batch, so no example is lost or counted twice |
| FusionAccuracy.Compute | virtual_fusion_accuracy.py:27-29 | for a non-zero total, the accuracy times `total` is `correct`, and it lies in [0,1] when `0 <= correct <= total` |
| Scenarios.TwoExampleBatch | virtual_fusion_accuracy.py:15-29 | scores `[[0.1,0.9,0.0],[0.8,0.1,0.1]]` with labels `[1,1]` and `[0,0]` and weights `[1,0]`, applied to a fresh accumulator, give `correct = total = 2` and accuracy 1 |
| Scenarios.MismatchedWeights | virtual_fusion_accuracy.py:18 | three weights for two examples are refused by the weight-shape check, and the state is kept |
| Scenarios.FractionalCreditTruncated | virtual_fusion_accuracy.py:22-25 | a lone example credited 0.7 adds 1 to `total` and nothing to `correct` |

## Left out

- The tensor library and the metric framework are not modelled. Tensors are sequences. Registering the state with the framework is the `State` record and `Zero`. Detaching with `.data` has no counterpart.
- The cross-process reduction is not modelled. Only the pure sum-merge `Merge` is.
- Floating-point rounding is not modelled. Scores and weights are reals, so float effects are out of reach, such as a credit of 0.3 + 0.7 that sums to just below 1 and truncates to 0.
- The counters' 64-bit width and its overflow are not modelled. The counters are unbounded integers.
- FusionAccuracy.Compute: requires `total > 0`. With `total == 0`, the source divides zero by zero and the tensor library yields NaN. That is platform behaviour and is not modelled.
- Only Python's default mode is modelled. The three shape checks are `assert` statements, which optimized mode (`python -O`) removes. There, a mismatched batch either fails inside the tensor arithmetic before `correct` changes, or broadcasts and is accepted. For example, two rows that both predict 0, with one-entry `targets_a = [0]`, `targets_b = [0]` and `lams = [0.5]`, add 2 to `correct` and 1 to `total`, which breaks `correct <= total`. The model always refuses such a batch.
- Tensor shapes other than a 2-D score matrix are not modelled. A 1-D or 3-D `outputs` tensor cannot be written as a sequence of rows. Nor can the difference between an empty batch with zero classes, which the arg-max refuses, and one with some classes. An empty batch is accepted. Ragged rows, which a tensor cannot have, are accepted.
- NaN or infinite scores are not modelled. They have no counterpart among the reals.
- Weights outside [0,1] are accepted, as in the source, which does not check them. The bounds and invariant lemmas assume every weight lies in [0,1].
- Calling `compute` twice gives the same value by construction, because `Compute` is a pure function of the state. No separate lemma states it.
