/** The mixup accuracy accumulator.

    The accumulator keeps two counters. `correct` is the truncated fractional
    credit earned so far. `total` is the number of examples seen. Each batch
    update adds to both. Workers' states combine by adding the counters
    component-wise. The accuracy is their ratio.
 */
module FusionAccuracy {
  import opened Scores
  import opened Credit

  /** The two registered counters. */
  datatype State = State(correct: int, total: int)

  /** The state a fresh accumulator starts in: both counters zero. */
  const Zero: State := State(0, 0)

  /** The invariant the accumulator is meant to keep. */
  predicate Inv(s: State) {
    0 <= s.correct <= s.total
  }

  /** The arguments of one update: per-class scores of each example, the two
      labels of each example and the weight toward the first label. */
  datatype Batch = Batch(outputs: seq<Row>, targetsA: seq<int>, targetsB: seq<int>, lams: seq<real>)

  /** Why an update is refused: one of the three shape assertions fails, or
      the arg-max is asked of a row with no classes. */
  datatype UpdateError = TargetsAShape | TargetsBShape | LamsShape | EmptyScoreRow

  /** An update either yields the new state or is refused. */
  datatype UpdateResult = Updated(state: State) | Rejected(error: UpdateError)

  /** One label of each kind and one weight per example. */
  predicate ShapesAgree(b: Batch) {
    && |b.targetsA| == |b.outputs|
    && |b.targetsB| == |b.targetsA|
    && |b.lams| == |b.targetsA|
  }

  /** A batch the update accepts. */
  predicate WellFormed(b: Batch) {
    ShapesAgree(b) && NonEmptyRows(b.outputs)
  }

  /** Every weight of the batch lies in [0,1]; the update does not check it. */
  predicate LamsInUnit(b: Batch) {
    AllUnit(b.lams)
  }

  /** Credit the batch earns, summed over its examples. */
  function BatchSum(b: Batch): real
    requires WellFormed(b)
  {
    SumCredit(Preds(b.outputs), b.targetsA, b.targetsB, b.lams)
  }

  /** One update: check shapes, predict, add the truncated batch credit to
      `correct` and the batch size to `total`. */
  function Update(s: State, b: Batch): (r: UpdateResult)
    ensures r.Updated? <==> WellFormed(b)
    ensures |b.targetsA| != |b.outputs| ==> r == Rejected(TargetsAShape)
    ensures |b.targetsA| == |b.outputs| && |b.targetsB| != |b.targetsA| ==> r == Rejected(TargetsBShape)
    ensures (|b.targetsA| == |b.outputs| && |b.targetsB| == |b.targetsA| && |b.lams| != |b.targetsA|)
      ==> r == Rejected(LamsShape)
    ensures ShapesAgree(b) && !NonEmptyRows(b.outputs) ==> r == Rejected(EmptyScoreRow)
    ensures WellFormed(b) ==> r.state.total == s.total + |b.outputs|
    ensures WellFormed(b) ==> r.state.correct == s.correct + TruncateTowardZero(BatchSum(b))
  {
    if |b.targetsA| != |b.outputs| then Rejected(TargetsAShape)
    else if |b.targetsB| != |b.targetsA| then Rejected(TargetsBShape)
    else if |b.lams| != |b.targetsA| then Rejected(LamsShape)
    else if !NonEmptyRows(b.outputs) then Rejected(EmptyScoreRow)
    else
      var preds := Preds(b.outputs);
      var credit := BatchCredit(preds, b.targetsA, b.targetsB, b.lams);
      BatchCreditIsSumOfCredits(preds, b.targetsA, b.targetsB, b.lams);
      Updated(State(s.correct + TruncateTowardZero(credit), s.total + |b.targetsA|))
  }

  /** The accumulator object after an update call: the new state, or the old
      one when the call is refused (every check precedes every change). */
  function Step(s: State, b: Batch): (r: State)
    ensures !WellFormed(b) ==> r == s
    ensures r.total - s.total == (if WellFormed(b) then |b.outputs| else 0)
  {
    match Update(s, b)
    case Updated(t) => t
    case Rejected(_) => s
  }

  /** A refused update leaves the state as it was. */
  lemma StepRejectedUnchanged(s: State, b: Batch)
    ensures !WellFormed(b) <==> Update(s, b).Rejected?
    ensures !WellFormed(b) ==> Step(s, b) == s
  {
  }

  /** With weights in [0,1] an accepted update adds the floor of the batch
      credit to `correct`, which is between zero and the batch size. */
  lemma UpdateCorrectBounds(s: State, b: Batch)
    requires WellFormed(b) && LamsInUnit(b)
    ensures Update(s, b).state.correct - s.correct == BatchSum(b).Floor
    ensures s.correct <= Update(s, b).state.correct <= s.correct + |b.outputs|
  {
    var preds := Preds(b.outputs);
    SumCreditBounds(preds, b.targetsA, b.targetsB, b.lams);
  }

  /** With weights in [0,1] an update keeps `0 <= correct <= total`. */
  lemma UpdatePreservesInv(s: State, b: Batch)
    requires Inv(s) && LamsInUnit(b)
    ensures Inv(Step(s, b))
  {
    if WellFormed(b) {
      UpdateCorrectBounds(s, b);
    }
  }

  /** When both labels of every example agree, `correct` grows by exactly
      the number of correctly predicted examples, whatever the weights. */
  lemma UpdateSameTargets(s: State, b: Batch)
    requires WellFormed(b) && b.targetsA == b.targetsB
    ensures Update(s, b).state.correct == s.correct + CountHits(Preds(b.outputs), b.targetsA)
  {
    SameTargetsCountHits(Preds(b.outputs), b.targetsA, b.lams);
  }

  /** The sum reduction that combines two workers' states. */
  function Merge(x: State, y: State): (r: State)
    ensures Inv(x) && Inv(y) ==> Inv(r)
    ensures r.correct - x.correct == y.correct && r.total - x.total == y.total
  {
    State(x.correct + y.correct, x.total + y.total)
  }

  lemma MergeCommutative(x: State, y: State)
    ensures Merge(x, y) == Merge(y, x)
  {
  }

  lemma MergeAssociative(x: State, y: State, z: State)
    ensures Merge(Merge(x, y), z) == Merge(x, Merge(y, z))
  {
  }

  lemma MergeIdentity(x: State)
    ensures Merge(Zero, x) == x && Merge(x, Zero) == x
  {
  }

  /** The accumulator after a sequence of update calls. */
  function Run(s: State, bs: seq<Batch>): (r: State)
    ensures s.total <= r.total
    decreases |bs|
  {
    if |bs| == 0 then s else Run(Step(s, bs[0]), bs[1..])
  }

  /** Every batch of the sequence has its weights in [0,1]. */
  predicate AllLamsInUnit(bs: seq<Batch>) {
    forall i :: 0 <= i < |bs| ==> LamsInUnit(bs[i])
  }

  /** Number of examples in the batches an update accepts. */
  function AcceptedExamples(bs: seq<Batch>): nat
    decreases |bs|
  {
    if |bs| == 0 then 0
    else (if WellFormed(bs[0]) then |bs[0].outputs| else 0) + AcceptedExamples(bs[1..])
  }

  /** Over a run, `total` grows by exactly the number of examples in the
      accepted batches, whatever the weights. */
  lemma {:induction false} RunTotal(s: State, bs: seq<Batch>)
    ensures Run(s, bs).total == s.total + AcceptedExamples(bs)
    decreases |bs|
  {
    if |bs| > 0 {
      RunTotal(Step(s, bs[0]), bs[1..]);
    }
  }

  /** With weights in [0,1], `correct` never decreases over a run, and the
      invariant is kept. */
  lemma {:induction false} RunMonotone(s: State, bs: seq<Batch>)
    requires AllLamsInUnit(bs)
    ensures s.correct <= Run(s, bs).correct
    ensures Inv(s) ==> Inv(Run(s, bs))
    decreases |bs|
  {
    if |bs| > 0 {
      assert LamsInUnit(bs[0]);
      if WellFormed(bs[0]) {
        UpdateCorrectBounds(s, bs[0]);
      }
      if Inv(s) {
        UpdatePreservesInv(s, bs[0]);
      }
      RunMonotone(Step(s, bs[0]), bs[1..]);
    }
  }

  /** An update adds the same amounts whatever the state it starts from. */
  lemma StepShift(x: State, y: State, b: Batch)
    ensures Step(Merge(x, y), b) == Merge(x, Step(y, b))
  {
  }

  lemma {:induction false} RunShift(x: State, y: State, bs: seq<Batch>)
    ensures Run(Merge(x, y), bs) == Merge(x, Run(y, bs))
    decreases |bs|
  {
    if |bs| > 0 {
      StepShift(x, y, bs[0]);
      RunShift(x, Step(y, bs[0]), bs[1..]);
    }
  }

  lemma {:induction false} RunConcat(s: State, bs1: seq<Batch>, bs2: seq<Batch>)
    ensures Run(s, bs1 + bs2) == Run(Run(s, bs1), bs2)
    decreases |bs1|
  {
    if |bs1| > 0 {
      assert (bs1 + bs2)[1..] == bs1[1..] + bs2;
      RunConcat(Step(s, bs1[0]), bs1[1..], bs2);
    } else {
      assert bs1 + bs2 == bs2;
    }
  }

  /** Two workers that each see part of the batches and merge their states
      end with the state of one accumulator that saw all the batches: the
      merge neither loses nor double-counts an example. */
  lemma WorkersMerge(bs1: seq<Batch>, bs2: seq<Batch>)
    ensures Merge(Run(Zero, bs1), Run(Zero, bs2)) == Run(Zero, bs1 + bs2)
  {
    RunConcat(Zero, bs1, bs2);
    var s1 := Run(Zero, bs1);
    assert Merge(s1, Zero) == s1;
    RunShift(s1, Zero, bs2);
  }

  /** The accuracy: the share of credited examples among those seen. */
  function Compute(s: State): (r: real)
    requires s.total > 0
    ensures r * (s.total as real) == s.correct as real
    ensures Inv(s) ==> 0.0 <= r <= 1.0
  {
    s.correct as real / s.total as real
  }
}
