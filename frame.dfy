/** The combined price/sentiment table (`combined_data`) as a sequence of rows,
    and the `dropna` that the forecast applies to it before anything else.
    Line numbers refer to predict_next_trading_day_price.py. */
module Frame {
  import opened Values

  /** One row: the trading day, the price columns, and the day's sentiment
      columns. A None cell is a NaN. `compound` is None in every row when the
      grouped compound column was dropped. */
  datatype Row = Row(
    date: int,
    close: Option<real>, high: Option<real>, low: Option<real>, volume: Option<real>,
    compound: Option<real>, neg: Option<real>, neu: Option<real>, pos: Option<real>)

  /** No NaN in any column of `dropna(subset=['Close', 'High', 'Low', 'Volume',
      'neg', 'neu', 'pos'])`; `date` and `compound` are not checked. */
  predicate Complete(r: Row) {
    r.close.Some? && r.high.Some? && r.low.Some? && r.volume.Some?
    && r.neg.Some? && r.neu.Some? && r.pos.Some?
  }

  /** A row that survived `dropna`, its cells as plain reals. */
  datatype Bar = Bar(close: real, high: real, low: real, volume: real, neg: real, neu: real, pos: real)

  function ToBar(r: Row): Bar
    requires Complete(r)
  {
    Bar(r.close.value, r.high.value, r.low.value, r.volume.value, r.neg.value, r.neu.value, r.pos.value)
  }

  /** Line 77: the complete rows, in their original order. */
  function DropMissing(rows: seq<Row>): (bars: seq<Bar>)
    ensures |bars| <= |rows|
    ensures (forall i :: 0 <= i < |rows| ==> Complete(rows[i])) ==>
              |bars| == |rows| && forall i :: 0 <= i < |rows| ==> bars[i] == ToBar(rows[i])
    decreases |rows|
  {
    if |rows| == 0 then []
    else if Complete(rows[0]) then [ToBar(rows[0])] + DropMissing(rows[1..])
    else DropMissing(rows[1..])
  }

  /** Dropping distributes over concatenation: survivors keep their order. */
  lemma {:induction false} DropMissingAppend(a: seq<Row>, b: seq<Row>)
    ensures DropMissing(a + b) == DropMissing(a) + DropMissing(b)
    decreases |a|
  {
    if |a| > 0 {
      assert (a + b)[1..] == a[1..] + b;
      DropMissingAppend(a[1..], b);
    } else {
      assert a + b == b;
    }
  }

  /** Every surviving bar is the bar of some complete input row. */
  lemma {:induction false} DropMissingFromRows(rows: seq<Row>, j: nat)
    requires j < |DropMissing(rows)|
    ensures exists i :: 0 <= i < |rows| && Complete(rows[i]) && DropMissing(rows)[j] == ToBar(rows[i])
    decreases |rows|
  {
    if Complete(rows[0]) && j == 0 {
      assert Complete(rows[0]) && DropMissing(rows)[0] == ToBar(rows[0]);
    } else {
      var j' := if Complete(rows[0]) then j - 1 else j;
      DropMissingFromRows(rows[1..], j');
      var i :| 0 <= i < |rows[1..]| && Complete(rows[1..][i]) && DropMissing(rows[1..])[j'] == ToBar(rows[1..][i]);
      assert rows[i + 1] == rows[1..][i];
    }
  }

  /** Two tables whose rows agree on completeness and on the price cells give
      the same surviving prices, whatever their sentiment cells hold. */
  lemma {:induction false} DropMissingPricesAgree(h1: seq<Row>, h2: seq<Row>)
    requires |h1| == |h2|
    requires forall i :: 0 <= i < |h1| ==> SamePrices(h1[i], h2[i])
    ensures |DropMissing(h1)| == |DropMissing(h2)|
    ensures forall j :: 0 <= j < |DropMissing(h1)| ==> SameBarPrices(DropMissing(h1)[j], DropMissing(h2)[j])
    decreases |h1|
  {
    if |h1| > 0 {
      DropMissingPricesAgree(h1[1..], h2[1..]);
    }
  }

  predicate SamePrices(r1: Row, r2: Row) {
    Complete(r1) == Complete(r2)
    && r1.close == r2.close && r1.high == r2.high && r1.low == r2.low && r1.volume == r2.volume
  }

  predicate SameBarPrices(b1: Bar, b2: Bar) {
    b1.close == b2.close && b1.high == b2.high && b1.low == b2.low && b1.volume == b2.volume
  }

  function Closes(bars: seq<Bar>): (r: seq<real>)
    ensures |r| == |bars| && forall i {:trigger r[i]} :: 0 <= i < |bars| ==> r[i] == bars[i].close
  {
    seq(|bars|, i requires 0 <= i < |bars| => bars[i].close)
  }

  function Highs(bars: seq<Bar>): (r: seq<real>)
    ensures |r| == |bars| && forall i {:trigger r[i]} :: 0 <= i < |bars| ==> r[i] == bars[i].high
  {
    seq(|bars|, i requires 0 <= i < |bars| => bars[i].high)
  }

  function Lows(bars: seq<Bar>): (r: seq<real>)
    ensures |r| == |bars| && forall i {:trigger r[i]} :: 0 <= i < |bars| ==> r[i] == bars[i].low
  {
    seq(|bars|, i requires 0 <= i < |bars| => bars[i].low)
  }

  function Volumes(bars: seq<Bar>): (r: seq<real>)
    ensures |r| == |bars| && forall i {:trigger r[i]} :: 0 <= i < |bars| ==> r[i] == bars[i].volume
  {
    seq(|bars|, i requires 0 <= i < |bars| => bars[i].volume)
  }

  /** The dates a table holds. */
  function RowDates(rows: seq<Row>): set<int> {
    set i | 0 <= i < |rows| :: rows[i].date
  }
}
