/** The training data `get_model_accuracy` builds from the combined table
    (lines 13-24): an up/down label per day, added as a `target` column to
    the caller's table, and the neg/neu/pos feature rows, both without the
    last day. The split, the classifier and its score are not modelled. Line
    numbers refer to train_machine_learning_model.py. */
module DirectionTraining {
  import opened Values
  import opened Frame

  /** `Close.shift(-1)`: row t holds the close of row t + 1, the last row NaN. */
  function NextCloses(closes: seq<Option<real>>): (r: seq<Option<real>>)
    ensures |r| == |closes|
    ensures forall t :: 0 <= t < |closes| - 1 ==> r[t] == closes[t + 1]
    ensures |r| > 0 ==> r[|r| - 1].None?
  {
    if |closes| == 0 then [] else closes[1..] + [None]
  }

  /** `>` on two cells: a comparison with NaN is false. */
  predicate Greater(a: Option<real>, b: Option<real>) {
    a.Some? && b.Some? && a.value > b.value
  }

  /** Line 13: `(shifted > closes).astype(int)`, cell by cell. */
  function DirectionLabels(closes: seq<Option<real>>): (y: seq<int>)
    ensures |y| == |closes|
    ensures forall t :: 0 <= t < |closes| - 1 ==> (y[t] == 1 <==> Greater(closes[t + 1], closes[t]))
    ensures forall t :: 0 <= t < |y| ==> y[t] == 0 || y[t] == 1
    ensures |y| > 0 ==> y[|y| - 1] == 0
  {
    var next := NextCloses(closes);
    seq(|closes|, t requires 0 <= t < |closes| => if Greater(next[t], closes[t]) then 1 else 0)
  }

  function CloseColumn(rows: seq<Row>): (r: seq<Option<real>>)
    ensures |r| == |rows| && forall i :: 0 <= i < |rows| ==> r[i] == rows[i].close
  {
    seq(|rows|, i requires 0 <= i < |rows| => rows[i].close)
  }

  /** Line 16: the columns neg, neu and pos, in that order. */
  function SentimentFeatures(rows: seq<Row>): (x: seq<seq<Option<real>>>)
    ensures |x| == |rows|
    ensures forall i :: 0 <= i < |rows| ==> x[i] == [rows[i].neg, rows[i].neu, rows[i].pos]
  {
    seq(|rows|, i requires 0 <= i < |rows| => [rows[i].neg, rows[i].neu, rows[i].pos])
  }

  /** `s[:-1]`: everything but the last element; empty stays empty. */
  function DropLast<T>(s: seq<T>): (r: seq<T>)
    ensures |r| == if |s| == 0 then 0 else |s| - 1
    ensures forall i :: 0 <= i < |r| ==> r[i] == s[i]
  {
    if |s| == 0 then [] else s[..|s| - 1]
  }

  /** The X and y of lines 20-24. */
  datatype TrainingSet = TrainingSet(x: seq<seq<Option<real>>>, y: seq<int>)

  function BuildTrainingSet(rows: seq<Row>): (s: TrainingSet)
    ensures |s.x| == |s.y| == if |rows| == 0 then 0 else |rows| - 1
  {
    TrainingSet(DropLast(SentimentFeatures(rows)), DropLast(DirectionLabels(CloseColumn(rows))))
  }

  /** Row t of X and y both come from input row t: the features are that
      day's scores and the label says whether the next day closed strictly
      higher. */
  lemma TrainingRowsAlign(rows: seq<Row>, t: nat)
    requires t < |BuildTrainingSet(rows).y|
    ensures BuildTrainingSet(rows).x[t] == [rows[t].neg, rows[t].neu, rows[t].pos]
    ensures BuildTrainingSet(rows).y[t] == 1 <==> Greater(rows[t + 1].close, rows[t].close)
    ensures BuildTrainingSet(rows).y[t] in {0, 1}
  {
    var c := CloseColumn(rows);
    assert DirectionLabels(c)[t] == BuildTrainingSet(rows).y[t];
    assert c[t] == rows[t].close && c[t + 1] == rows[t + 1].close;
  }

  /** An unchanged close, or a missing one on either side, gives the label 0. */
  lemma FlatOrMissingCloseIsDown(rows: seq<Row>, t: nat)
    requires t + 1 < |rows|
    requires rows[t + 1].close == rows[t].close || rows[t].close.None? || rows[t + 1].close.None?
    ensures BuildTrainingSet(rows).y[t] == 0
  {
    TrainingRowsAlign(rows, t);
  }

  /** A strictly rising close series labels every kept day 1. */
  lemma RisingSeriesIsAllUp(rows: seq<Row>)
    requires forall t :: 0 <= t < |rows| ==> rows[t].close.Some?
    requires forall t :: 0 <= t < |rows| - 1 ==> rows[t].close.value < rows[t + 1].close.value
    ensures forall t :: 0 <= t < |BuildTrainingSet(rows).y| ==> BuildTrainingSet(rows).y[t] == 1
  {
    forall t | 0 <= t < |BuildTrainingSet(rows).y| ensures BuildTrainingSet(rows).y[t] == 1 {
      TrainingRowsAlign(rows, t);
    }
  }

  /** The caller's `combined_data`; `target` is None until line 13 adds it. */
  class CombinedTable {
    var rows: seq<Row>
    var target: Option<seq<int>>

    constructor (rows: seq<Row>)
      ensures this.rows == rows && target.None?
    {
      this.rows := rows;
      target := None;
    }
  }

  /** Lines 13-24: adds (or overwrites) the `target` column of the caller's
      table, one label per row, and returns X and y without the last day. */
  method PrepareTrainingData(table: CombinedTable) returns (s: TrainingSet)
    modifies table
    ensures table.rows == old(table.rows)
    ensures table.target == Some(DirectionLabels(CloseColumn(old(table.rows))))
    ensures s == BuildTrainingSet(old(table.rows))
  {
    table.target := Some(DirectionLabels(CloseColumn(table.rows)));
    var x := SentimentFeatures(table.rows);
    var y := table.target.value;
    x := DropLast(x);
    y := DropLast(y);
    s := TrainingSet(x, y);
  }
}
