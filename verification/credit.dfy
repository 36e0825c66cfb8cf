/** Fractional credit of mixup predictions and its truncation to an integer.

    An example built from two sources carries two labels `a` and `b` and a
    weight `lam` toward `a`. A prediction earns `lam` when it names `a` and
    `1 - lam` when it names `b`; both when `a == b`.
 */
module Credit {

  /** Every weight lies in the closed unit interval. */
  predicate AllUnit(lams: seq<real>) {
    forall i :: 0 <= i < |lams| ==> 0.0 <= lams[i] <= 1.0
  }

  /** Credit of one example with prediction `pred`. */
  function ExampleCredit(pred: int, a: int, b: int, lam: real): (c: real)
    ensures 0.0 <= lam <= 1.0 ==> 0.0 <= c <= 1.0
    ensures pred == a && pred == b ==> c == 1.0
    ensures pred != a && pred != b ==> c == 0.0
  {
    (if pred == a then lam else 0.0) + (if pred == b then 1.0 - lam else 0.0)
  }

  /** Reference definition: the credits of all examples, added up. */
  function SumCredit(preds: seq<int>, targetsA: seq<int>, targetsB: seq<int>, lams: seq<real>): real
    requires |preds| == |targetsA| == |targetsB| == |lams|
  {
    if |preds| == 0 then 0.0
    else ExampleCredit(preds[0], targetsA[0], targetsB[0], lams[0]) + SumCredit(preds[1..], targetsA[1..], targetsB[1..], lams[1..])
  }

  /** Sum of the weights of the examples whose prediction equals their
      target: the elementwise product of the equality mask with the weights,
      summed over the batch. */
  function HitWeight(preds: seq<int>, targets: seq<int>, weights: seq<real>): (r: real)
    requires |preds| == |targets| == |weights|
    ensures AllUnit(weights) ==> 0.0 <= r <= CountHits(preds, targets) as real
    ensures (forall i :: 0 <= i < |preds| ==> preds[i] != targets[i]) ==> r == 0.0
  {
    if |preds| == 0 then 0.0
    else (if preds[0] == targets[0] then weights[0] else 0.0) + HitWeight(preds[1..], targets[1..], weights[1..])
  }

  /** The weights toward the second label, `1 - lam` elementwise. */
  function Complement(lams: seq<real>): (r: seq<real>)
    ensures |r| == |lams|
    ensures forall i :: 0 <= i < |lams| ==> lams[i] + r[i] == 1.0
  {
    seq(|lams|, i requires 0 <= i < |lams| => 1.0 - lams[i])
  }

  /** The batch credit as the accumulator forms it: the weighted hits on the
      first labels plus the complementary weighted hits on the second. */
  function BatchCredit(preds: seq<int>, targetsA: seq<int>, targetsB: seq<int>, lams: seq<real>): (r: real)
    requires |preds| == |targetsA| == |targetsB| == |lams|
    ensures (forall i :: 0 <= i < |preds| ==> preds[i] != targetsA[i] && preds[i] != targetsB[i]) ==> r == 0.0
  {
    HitWeight(preds, targetsA, lams) + HitWeight(preds, targetsB, Complement(lams))
  }

  /** Summing the two masked products separately gives the same real as
      adding up the per-example credits. */
  lemma {:induction false} BatchCreditIsSumOfCredits(preds: seq<int>, targetsA: seq<int>, targetsB: seq<int>, lams: seq<real>)
    requires |preds| == |targetsA| == |targetsB| == |lams|
    ensures BatchCredit(preds, targetsA, targetsB, lams) == SumCredit(preds, targetsA, targetsB, lams)
  {
    if |preds| > 0 {
      assert Complement(lams)[1..] == Complement(lams[1..]);
      BatchCreditIsSumOfCredits(preds[1..], targetsA[1..], targetsB[1..], lams[1..]);
    }
  }

  /** With every weight in [0,1] the batch credit lies between zero and the
      batch size. */
  lemma {:induction false} SumCreditBounds(preds: seq<int>, targetsA: seq<int>, targetsB: seq<int>, lams: seq<real>)
    requires |preds| == |targetsA| == |targetsB| == |lams|
    ensures AllUnit(lams) ==> 0.0 <= SumCredit(preds, targetsA, targetsB, lams) <= |preds| as real
  {
    if |preds| > 0 && AllUnit(lams) {
      assert 0.0 <= lams[0] <= 1.0;
      SumCreditBounds(preds[1..], targetsA[1..], targetsB[1..], lams[1..]);
    }
  }

  /** Number of examples whose prediction equals their target. */
  function CountHits(preds: seq<int>, targets: seq<int>): (n: nat)
    requires |preds| == |targets|
    ensures n <= |preds|
  {
    if |preds| == 0 then 0
    else (if preds[0] == targets[0] then 1 else 0) + CountHits(preds[1..], targets[1..])
  }

  /** When both labels of every example agree, each correctly predicted
      example earns exactly 1 and every other earns 0, whatever the weights. */
  lemma {:induction false} SameTargetsCountHits(preds: seq<int>, targets: seq<int>, lams: seq<real>)
    requires |preds| == |targets| == |lams|
    ensures SumCredit(preds, targets, targets, lams) == CountHits(preds, targets) as real
  {
    if |preds| > 0 {
      SameTargetsCountHits(preds[1..], targets[1..], lams[1..]);
    }
  }

  /** Conversion of a real to an integer by truncation toward zero. */
  function TruncateTowardZero(x: real): (n: int)
    ensures 0.0 <= x ==> 0 <= n && n as real <= x < n as real + 1.0
    ensures x < 0.0 ==> n <= 0 && n as real - 1.0 < x <= n as real
  {
    if x >= 0.0 then x.Floor else -((-x).Floor)
  }
}
