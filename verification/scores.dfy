/** Class scores and the arg-max prediction taken from them.

    A batch of network outputs is a sequence of rows, one row of per-class
    scores per example. The prediction of a row is the index of its largest
    score; when several scores tie for the maximum, the first one wins.
 */
module Scores {

  /** The per-class scores of one example. Scores are exact reals. */
  type Row = seq<real>

  /** `k` is the first position at which `row` attains its maximum. */
  predicate IsFirstMax(row: Row, k: int) {
    && 0 <= k < |row|
    && (forall j :: 0 <= j < |row| ==> row[j] <= row[k])
    && (forall j :: 0 <= j < k ==> row[j] < row[k])
  }

  /** Index of the largest score of a non-empty row (first one on ties). */
  function ArgMax(row: Row): (k: nat)
    requires |row| > 0
    ensures k < |row|
    ensures forall j :: 0 <= j < |row| ==> row[j] <= row[k]
    ensures forall j :: 0 <= j < k ==> row[j] < row[k]
  {
    if |row| == 1 then 0
    else
      var k := ArgMax(row[..|row| - 1]);
      if row[|row| - 1] > row[k] then |row| - 1 else k
  }

  /** The first maximum is unique, so `ArgMax` is the only index that is one. */
  lemma FirstMaxIsArgMax(row: Row, k: int)
    requires |row| > 0
    ensures IsFirstMax(row, k) <==> k == ArgMax(row)
  {
  }

  /** Every row has at least one class, so it has an arg-max. */
  predicate NonEmptyRows(outputs: seq<Row>) {
    forall i :: 0 <= i < |outputs| ==> |outputs[i]| > 0
  }

  /** The prediction of every example: the arg-max of its row. */
  function Preds(outputs: seq<Row>): (preds: seq<nat>)
    requires NonEmptyRows(outputs)
    ensures |preds| == |outputs|
    ensures forall i :: 0 <= i < |outputs| ==> IsFirstMax(outputs[i], preds[i])
  {
    if |outputs| == 0 then []
    else [ArgMax(outputs[0])] + Preds(outputs[1..])
  }
}
