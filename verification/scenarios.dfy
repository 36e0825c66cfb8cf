/** Concrete batches worked through the accumulator. */
module Scenarios {
  import opened Scores
  import opened FusionAccuracy

  /** Two examples over three classes; predictions 1 and 0. The first
      example is credited through its first label with weight 1, the second
      through its second label with weight 1 - 0. */
  lemma TwoExampleBatch()
    ensures Update(Zero, Batch([[0.1, 0.9, 0.0], [0.8, 0.1, 0.1]], [1, 1], [0, 0], [1.0, 0.0]))
            == Updated(State(2, 2))
    ensures Compute(State(2, 2)) == 1.0
  {
    var b := Batch([[0.1, 0.9, 0.0], [0.8, 0.1, 0.1]], [1, 1], [0, 0], [1.0, 0.0]);
    var row0: Row := [0.1, 0.9, 0.0];
    var row1: Row := [0.8, 0.1, 0.1];
    FirstMaxIsArgMax(row0, 1);
    FirstMaxIsArgMax(row1, 0);
    assert b.outputs[1..] == [row1];
    assert Preds(b.outputs) == [1, 0];
    assert BatchSum(b) == 2.0;
  }

  /** Labels of the first kind for two examples but three weights: the
      update is refused and the state is kept. */
  lemma MismatchedWeights(s: State)
    ensures Update(s, Batch([[1.0], [2.0]], [0, 0], [0, 0], [0.5, 0.5, 0.5])) == Rejected(LamsShape)
    ensures Step(s, Batch([[1.0], [2.0]], [0, 0], [0, 0], [0.5, 0.5, 0.5])) == s
  {
  }

  /** A single example predicted as its first label with weight 0.7 earns
      0.7, which truncates to 0: the example is counted but not credited. */
  lemma FractionalCreditTruncated(s: State)
    ensures Update(s, Batch([[0.2, 0.8]], [1], [0], [0.7])) == Updated(State(s.correct, s.total + 1))
  {
  }
}
