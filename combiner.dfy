/** `get_combined_sentiment_and_stock_data`: dates each sentiment record by
    the description at the same position, averages the records of each date,
    and inner-joins the daily averages onto the stock table by date. The
    caller's stock frame is changed in place on the way. `pd.to_datetime` of
    a description's formatted date is an abstract partial parse. Line numbers
    refer to combine_sentiment_and_stock_data.py. */
module Combiner {
  import opened Values
  import opened Sentiments
  import opened SentimentFetch
  import opened SentimentAnalysis
  import opened Frame

  /** The exceptions the function can raise, in the order they are met: a
      date that does not parse, a date list whose length differs from the
      record count, and (for an empty record list, whose frame has no columns)
      the missing `compound` column (lines 19-21); then a `reset_index` whose
      new column label is already taken (line 31), and a stock frame without a
      `Date` column (line 33). */
  datatype CombineError =
    | UnparsableDate | LengthMismatch | MissingCompound
    | IndexColumnExists(name: string) | MissingDateColumn

  /** One row of the yfinance table; a NaN cell is None. */
  datatype PriceBar = PriceBar(date: int, close: Option<real>, high: Option<real>, low: Option<real>, volume: Option<real>)

  /** A sentiment record with the date it was given by position. */
  datatype DatedRecord = DatedRecord(date: int, record: SentimentRecord)

  // ------------------------------------------------------- dating records

  /** `pd.to_datetime` over all description dates: it fails as a whole when
      one date does not parse. */
  function ParseDates(descs: seq<Description>, parseDate: string -> Option<int>): (r: Option<seq<int>>)
    ensures r.Some? <==> forall i :: 0 <= i < |descs| ==> parseDate(descs[i].date).Some?
    ensures r.Some? ==> |r.value| == |descs|
                        && forall i :: 0 <= i < |descs| ==> r.value[i] == parseDate(descs[i].date).value
  {
    if forall i :: 0 <= i < |descs| ==> parseDate(descs[i].date).Some? then
      Some(seq(|descs|, i requires 0 <= i < |descs| => parseDate(descs[i].date).value))
    else None
  }

  /** Line 19: record i gets date i. */
  function Pair(days: seq<int>, sents: seq<SentimentRecord>): (r: seq<DatedRecord>)
    requires |days| == |sents|
    ensures |r| == |sents| && forall i :: 0 <= i < |sents| ==> r[i] == DatedRecord(days[i], sents[i])
  {
    seq(|sents|, i requires 0 <= i < |sents| => DatedRecord(days[i], sents[i]))
  }

  /** Pairing loses nothing: the dates and the records come back out unchanged. */
  lemma PairUnzips(days: seq<int>, sents: seq<SentimentRecord>)
    requires |days| == |sents|
    ensures var dated := Pair(days, sents);
            && seq(|dated|, i requires 0 <= i < |dated| => dated[i].date) == days
            && seq(|dated|, i requires 0 <= i < |dated| => dated[i].record) == sents
  {
  }

  // ------------------------------------------------------- compound column

  /** Line 21's lambda `-1 if x > 0 else {-1 if x < 0 else 0}`: a positive
      compound becomes the number -1, any other a one-element set. */
  datatype CompoundCell = MinusOne | SetOf(member: int)

  function MapCompound(x: real): (c: CompoundCell)
    ensures c == MinusOne <==> x > 0.0
    ensures x < 0.0 ==> c == SetOf(-1)
    ensures x == 0.0 ==> c == SetOf(0)
  {
    if x > 0.0 then MinusOne else SetOf(if x < 0.0 then -1 else 0)
  }

  /** `mean(numeric_only=True)` keeps the compound column only when it is
      numeric, that is when no cell is a set. */
  predicate CompoundIsNumeric(sents: seq<SentimentRecord>) {
    forall i :: 0 <= i < |sents| ==> MapCompound(sents[i].compound) == MinusOne
  }

  // ------------------------------------------------------- group by date

  datatype Column = NegColumn | NeuColumn | PosColumn | CompoundColumn

  /** The numeric cell of a record in a column; the compound cell of a numeric
      compound column is the -1 of the lambda. */
  function Cell(r: SentimentRecord, col: Column): real {
    match col
    case NegColumn => r.neg
    case NeuColumn => r.neu
    case PosColumn => r.pos
    case CompoundColumn => -1.0
  }

  function DatesOf(dated: seq<DatedRecord>): set<int> {
    set i | 0 <= i < |dated| :: dated[i].date
  }

  /** The cells of one column over the records of one date, in record order. */
  function ValuesOn(dated: seq<DatedRecord>, d: int, col: Column): (vs: seq<real>)
    ensures |vs| <= |dated|
    decreases |dated|
  {
    if |dated| == 0 then []
    else
      var rest := ValuesOn(dated[1..], d, col);
      if dated[0].date == d then [Cell(dated[0].record, col)] + rest else rest
  }

  /** Grouping distributes over concatenation: a day's cells keep their
      record order and every record of that day contributes once. */
  lemma {:induction false} ValuesOnAppend(a: seq<DatedRecord>, b: seq<DatedRecord>, d: int, col: Column)
    ensures ValuesOn(a + b, d, col) == ValuesOn(a, d, col) + ValuesOn(b, d, col)
    decreases |a|
  {
    if |a| == 0 {
      assert a + b == b;
    } else {
      assert (a + b)[0] == a[0] && (a + b)[1..] == a[1..] + b;
      ValuesOnAppend(a[1..], b, d, col);
    }
  }

  /** Records that all carry date d give that day's group exactly their
      cells, repeated values included, so the mean weighs each record once. */
  lemma {:induction false} ValuesOnOneDay(dated: seq<DatedRecord>, d: int, col: Column)
    requires forall i :: 0 <= i < |dated| ==> dated[i].date == d
    ensures ValuesOn(dated, d, col) == seq(|dated|, i requires 0 <= i < |dated| => Cell(dated[i].record, col))
    decreases |dated|
  {
    if |dated| > 0 {
      ValuesOnOneDay(dated[1..], d, col);
    }
  }

  /** A date that occurs has at least one record, so its mean is defined. */
  lemma {:induction false} ValuesOnNonEmpty(dated: seq<DatedRecord>, d: int, col: Column)
    requires d in DatesOf(dated)
    ensures |ValuesOn(dated, d, col)| > 0
    decreases |dated|
  {
    if dated[0].date != d {
      var i :| 0 <= i < |dated| && dated[i].date == d;
      assert dated[1..][i - 1].date == d;
      ValuesOnNonEmpty(dated[1..], d, col);
    }
  }

  /** Every record contributes its cell to the group of its own date. */
  lemma {:induction false} RecordInItsGroup(dated: seq<DatedRecord>, i: nat, col: Column)
    requires i < |dated|
    ensures Cell(dated[i].record, col) in ValuesOn(dated, dated[i].date, col)
    decreases |dated|
  {
    if i > 0 {
      assert dated[1..][i - 1] == dated[i];
      RecordInItsGroup(dated[1..], i - 1, col);
    }
  }

  /** Each cell of a group comes from a record of that date. */
  lemma {:induction false} GroupCellsFromDay(dated: seq<DatedRecord>, d: int, col: Column, v: real)
    requires v in ValuesOn(dated, d, col)
    ensures exists i :: 0 <= i < |dated| && dated[i].date == d && Cell(dated[i].record, col) == v
    decreases |dated|
  {
    if !(dated[0].date == d && v == Cell(dated[0].record, col)) {
      GroupCellsFromDay(dated[1..], d, col, v);
      var i :| 0 <= i < |dated[1..]| && dated[1..][i].date == d && Cell(dated[1..][i].record, col) == v;
      assert dated[i + 1] == dated[1..][i];
    }
  }

  function MeanOn(dated: seq<DatedRecord>, d: int, col: Column): real
    requires d in DatesOf(dated)
  {
    ValuesOnNonEmpty(dated, d, col);
    Mean(ValuesOn(dated, d, col))
  }

  /** One row of `grouped_sentiment`: the day's mean scores, and the mean
      compound when that column survived. */
  datatype DayGroup = DayGroup(scores: Scores, compound: Option<real>)

  /** Line 24: one group per distinct date. */
  function GroupByDate(dated: seq<DatedRecord>, numericCompound: bool): (g: map<int, DayGroup>)
    ensures g.Keys == DatesOf(dated)
  {
    map d | d in DatesOf(dated) ::
      DayGroup(Scores(MeanOn(dated, d, NegColumn), MeanOn(dated, d, NeuColumn), MeanOn(dated, d, PosColumn)),
               if numericCompound then Some(MeanOn(dated, d, CompoundColumn)) else None)
  }

  /** A surviving compound column averages to -1 on every date. */
  lemma GroupCompoundIsMinusOne(dated: seq<DatedRecord>, d: int)
    requires d in DatesOf(dated)
    ensures GroupByDate(dated, true)[d].compound == Some(-1.0)
  {
    var vs := ValuesOn(dated, d, CompoundColumn);
    ValuesOnNonEmpty(dated, d, CompoundColumn);
    forall j | 0 <= j < |vs| ensures vs[j] == -1.0 {
      GroupCellsFromDay(dated, d, CompoundColumn, vs[j]);
    }
    MeanOfConstant(vs, -1.0);
  }

  /** Group means of scores in [0, 1] stay in [0, 1]. */
  lemma GroupMeanInUnitRange(dated: seq<DatedRecord>, d: int, col: Column)
    requires d in DatesOf(dated) && col != CompoundColumn
    requires forall i :: 0 <= i < |dated| ==> 0.0 <= Cell(dated[i].record, col) <= 1.0
    ensures 0.0 <= MeanOn(dated, d, col) <= 1.0
  {
    var vs := ValuesOn(dated, d, col);
    ValuesOnNonEmpty(dated, d, col);
    forall j | 0 <= j < |vs| ensures 0.0 <= vs[j] <= 1.0 {
      GroupCellsFromDay(dated, d, col, vs[j]);
    }
    MeanAtLeast(vs, 0.0);
    MeanAtMost(vs, 1.0);
  }

  /** A day whose records all carry one value has that value as its mean. */
  lemma UniformDayMean(dated: seq<DatedRecord>, d: int, col: Column, v: real)
    requires d in DatesOf(dated)
    requires forall i :: 0 <= i < |dated| && dated[i].date == d ==> Cell(dated[i].record, col) == v
    ensures MeanOn(dated, d, col) == v
  {
    var vs := ValuesOn(dated, d, col);
    ValuesOnNonEmpty(dated, d, col);
    forall j | 0 <= j < |vs| ensures vs[j] == v {
      GroupCellsFromDay(dated, d, col, vs[j]);
    }
    MeanOfConstant(vs, v);
  }

  // ------------------------------------------------------- inner join

  /** A joined row: the stock row's cells unchanged plus its date's group. */
  function Joined(bar: PriceBar, g: DayGroup): Row {
    Row(bar.date, bar.close, bar.high, bar.low, bar.volume,
        g.compound, Some(g.scores.neg), Some(g.scores.neu), Some(g.scores.pos))
  }

  /** Lines 33-34, `how='inner'`: the stock rows whose date has a group, in
      stock order. Dates are unique among groups, so each such row is joined
      exactly once. */
  function InnerJoin(bars: seq<PriceBar>, groups: map<int, DayGroup>): (out: seq<Row>)
    ensures |out| <= |bars|
    ensures forall i :: 0 <= i < |out| ==> out[i].date in groups
    decreases |bars|
  {
    if |bars| == 0 then []
    else
      var rest := InnerJoin(bars[1..], groups);
      if bars[0].date in groups then [Joined(bars[0], groups[bars[0].date])] + rest else rest
  }

  function BarDates(bars: seq<PriceBar>): set<int> {
    set i | 0 <= i < |bars| :: bars[i].date
  }

  /** Joining distributes over concatenation: the stock order is kept. */
  lemma {:induction false} InnerJoinAppend(a: seq<PriceBar>, b: seq<PriceBar>, groups: map<int, DayGroup>)
    ensures InnerJoin(a + b, groups) == InnerJoin(a, groups) + InnerJoin(b, groups)
    decreases |a|
  {
    if |a| == 0 {
      assert a + b == b;
    } else {
      assert (a + b)[1..] == a[1..] + b;
      InnerJoinAppend(a[1..], b, groups);
    }
  }

  lemma BarDatesOfTail(bars: seq<PriceBar>)
    requires |bars| > 0
    ensures BarDates(bars) == {bars[0].date} + BarDates(bars[1..])
  {
    forall d | d in BarDates(bars) ensures d in {bars[0].date} + BarDates(bars[1..]) {
      var i :| 0 <= i < |bars| && bars[i].date == d;
      if i > 0 { assert bars[1..][i - 1].date == d; }
    }
    forall d | d in BarDates(bars[1..]) ensures d in BarDates(bars) {
      var i :| 0 <= i < |bars[1..]| && bars[1..][i].date == d;
      assert bars[i + 1].date == d;
    }
  }

  lemma RowDatesOfCons(row: Row, rest: seq<Row>)
    ensures RowDates([row] + rest) == {row.date} + RowDates(rest)
  {
    var rows := [row] + rest;
    forall d | d in RowDates(rows) ensures d in {row.date} + RowDates(rest) {
      var i :| 0 <= i < |rows| && rows[i].date == d;
      if i > 0 { assert rest[i - 1].date == d; }
    }
    forall d | d in RowDates(rest) ensures d in RowDates(rows) {
      var i :| 0 <= i < |rest| && rest[i].date == d;
      assert rows[i + 1].date == d;
    }
    assert rows[0].date == row.date;
  }

  /** The output dates are exactly the stock dates that have a group. */
  lemma {:induction false} InnerJoinDates(bars: seq<PriceBar>, groups: map<int, DayGroup>)
    ensures RowDates(InnerJoin(bars, groups)) == BarDates(bars) * groups.Keys
    decreases |bars|
  {
    if |bars| > 0 {
      InnerJoinDates(bars[1..], groups);
      BarDatesOfTail(bars);
      if bars[0].date in groups {
        RowDatesOfCons(Joined(bars[0], groups[bars[0].date]), InnerJoin(bars[1..], groups));
      }
    }
  }

  /** Every output row is a stock row joined with the group of its date. */
  lemma {:induction false} InnerJoinRowsFromBars(bars: seq<PriceBar>, groups: map<int, DayGroup>, k: nat)
    requires k < |InnerJoin(bars, groups)|
    ensures exists j :: 0 <= j < |bars| && bars[j].date in groups
              && InnerJoin(bars, groups)[k] == Joined(bars[j], groups[bars[j].date])
    decreases |bars|
  {
    var here := bars[0].date in groups;
    if !(here && k == 0) {
      var k' := if here then k - 1 else k;
      InnerJoinRowsFromBars(bars[1..], groups, k');
      var j :| 0 <= j < |bars[1..]| && bars[1..][j].date in groups
               && InnerJoin(bars[1..], groups)[k'] == Joined(bars[1..][j], groups[bars[1..][j].date]);
      assert bars[j + 1] == bars[1..][j];
    }
  }

  /** Every stock row whose date has a group reaches the output. */
  lemma {:induction false} InnerJoinKeepsMatches(bars: seq<PriceBar>, groups: map<int, DayGroup>, j: nat)
    requires j < |bars| && bars[j].date in groups
    ensures Joined(bars[j], groups[bars[j].date]) in InnerJoin(bars, groups)
    decreases |bars|
  {
    if j > 0 {
      assert bars[1..][j - 1] == bars[j];
      InnerJoinKeepsMatches(bars[1..], groups, j - 1);
    }
  }

  /** When every stock date has a group, no stock row is lost. */
  lemma {:induction false} InnerJoinTotal(bars: seq<PriceBar>, groups: map<int, DayGroup>)
    requires forall j :: 0 <= j < |bars| ==> bars[j].date in groups
    ensures |InnerJoin(bars, groups)| == |bars|
    decreases |bars|
  {
    if |bars| > 0 {
      InnerJoinTotal(bars[1..], groups);
    }
  }

  // ------------------------------------------------------- whole function

  /** The value lines 14-34 compute from the descriptions, the records and
      the stock rows. */
  function Combine(descs: seq<Description>, sents: seq<SentimentRecord>,
                   parseDate: string -> Option<int>, bars: seq<PriceBar>): (r: Result<seq<Row>, CombineError>)
    ensures r == Failure(UnparsableDate) <==> ParseDates(descs, parseDate).None?
    ensures r == Failure(LengthMismatch) <==> ParseDates(descs, parseDate).Some? && |sents| > 0 && |descs| != |sents|
    ensures r == Failure(MissingCompound) <==> ParseDates(descs, parseDate).Some? && |sents| == 0
    ensures r.Success? <==> ParseDates(descs, parseDate).Some? && |sents| > 0 && |descs| == |sents|
    ensures r.Success? ==> |r.value| <= |bars|
  {
    var days := ParseDates(descs, parseDate);
    if days.None? then Failure(UnparsableDate)
    else if |sents| > 0 && |days.value| != |sents| then Failure(LengthMismatch)
    else if |sents| == 0 then Failure(MissingCompound)
    else
      var groups := GroupByDate(Pair(days.value, sents), CompoundIsNumeric(sents));
      Success(InnerJoin(bars, groups))
  }

  /** The dates of the sentiment records, as line 19 assigns them. */
  function SentimentDates(descs: seq<Description>, parseDate: string -> Option<int>): set<int> {
    set i | 0 <= i < |descs| && parseDate(descs[i].date).Some? :: parseDate(descs[i].date).value
  }

  /** The combined table holds exactly the dates that have both a stock row
      and a sentiment record. */
  lemma CombinedDatesAreIntersection(descs: seq<Description>, sents: seq<SentimentRecord>,
                                     parseDate: string -> Option<int>, bars: seq<PriceBar>)
    requires Combine(descs, sents, parseDate, bars).Success?
    ensures RowDates(Combine(descs, sents, parseDate, bars).value)
         == BarDates(bars) * SentimentDates(descs, parseDate)
  {
    var days := ParseDates(descs, parseDate).value;
    var dated := Pair(days, sents);
    var groups := GroupByDate(dated, CompoundIsNumeric(sents));
    InnerJoinDates(bars, groups);
    assert DatesOf(dated) == SentimentDates(descs, parseDate) by {
      forall d | d in SentimentDates(descs, parseDate) ensures d in DatesOf(dated) {
        var i :| 0 <= i < |descs| && parseDate(descs[i].date).Some? && parseDate(descs[i].date).value == d;
        assert dated[i].date == d;
      }
      forall d | d in DatesOf(dated) ensures d in SentimentDates(descs, parseDate) {
        var i :| 0 <= i < |dated| && dated[i].date == d;
        assert parseDate(descs[i].date).value == d;
      }
    }
  }

  /** Each combined row is a stock row, its cells unchanged, carrying the
      mean neg, neu and pos of the records of its date. */
  lemma CombinedRowsCarryGroupMeans(descs: seq<Description>, sents: seq<SentimentRecord>,
                                    parseDate: string -> Option<int>, bars: seq<PriceBar>, k: nat)
    requires Combine(descs, sents, parseDate, bars).Success?
    requires k < |Combine(descs, sents, parseDate, bars).value|
    ensures var row := Combine(descs, sents, parseDate, bars).value[k];
            var dated := Pair(ParseDates(descs, parseDate).value, sents);
            && row.date in DatesOf(dated)
            && (exists j :: 0 <= j < |bars| && bars[j].date == row.date
                 && row.close == bars[j].close && row.high == bars[j].high
                 && row.low == bars[j].low && row.volume == bars[j].volume)
            && row.neg == Some(MeanOn(dated, row.date, NegColumn))
            && row.neu == Some(MeanOn(dated, row.date, NeuColumn))
            && row.pos == Some(MeanOn(dated, row.date, PosColumn))
  {
    var dated := Pair(ParseDates(descs, parseDate).value, sents);
    var groups := GroupByDate(dated, CompoundIsNumeric(sents));
    InnerJoinRowsFromBars(bars, groups, k);
  }

  /** The compound cell of every combined row is -1 when every record's
      compound is positive, and absent otherwise. */
  lemma CombinedCompound(descs: seq<Description>, sents: seq<SentimentRecord>,
                         parseDate: string -> Option<int>, bars: seq<PriceBar>, k: nat)
    requires Combine(descs, sents, parseDate, bars).Success?
    requires k < |Combine(descs, sents, parseDate, bars).value|
    ensures var row := Combine(descs, sents, parseDate, bars).value[k];
            (forall i :: 0 <= i < |sents| ==> sents[i].compound > 0.0) <==> row.compound == Some(-1.0)
    ensures var row := Combine(descs, sents, parseDate, bars).value[k];
            (exists i :: 0 <= i < |sents| && sents[i].compound <= 0.0) <==> row.compound.None?
  {
    var dated := Pair(ParseDates(descs, parseDate).value, sents);
    var numeric := CompoundIsNumeric(sents);
    var groups := GroupByDate(dated, numeric);
    InnerJoinRowsFromBars(bars, groups, k);
    var row := Combine(descs, sents, parseDate, bars).value[k];
    if numeric {
      GroupCompoundIsMinusOne(dated, row.date);
    }
  }

  /** No common date gives an empty table, though no error is raised. */
  lemma NoCommonDateGivesEmptyTable(descs: seq<Description>, sents: seq<SentimentRecord>,
                                    parseDate: string -> Option<int>, bars: seq<PriceBar>)
    requires Combine(descs, sents, parseDate, bars).Success?
    requires BarDates(bars) * SentimentDates(descs, parseDate) == {}
    ensures Combine(descs, sents, parseDate, bars).value == []
  {
    CombinedDatesAreIntersection(descs, sents, parseDate, bars);
    RowDatesEmpty(Combine(descs, sents, parseDate, bars).value);
  }

  lemma RowDatesEmpty(rows: seq<Row>)
    ensures RowDates(rows) == {} <==> rows == []
  {
    if rows != [] {
      assert rows[0].date in RowDates(rows);
    }
  }

  // ------------------------------------------------------- the stock frame

  /** The caller's `stock_data` frame. Column labels are tuples of level
      names; a frame with more than one level has MultiIndex columns. */
  class StockFrame {
    var columns: seq<seq<string>>
    var levels: nat
    /** The dates are the index (as yfinance returns the frame), not a column. */
    var dateInIndex: bool
    var bars: seq<PriceBar>

    ghost predicate Valid()
      reads this
    {
      levels >= 1 && forall i :: 0 <= i < |columns| ==> |columns[i]| == levels
    }

    constructor (columns: seq<seq<string>>, levels: nat, dateInIndex: bool, bars: seq<PriceBar>)
      requires levels >= 1 && forall i :: 0 <= i < |columns| ==> |columns[i]| == levels
      ensures Valid()
      ensures this.columns == columns && this.levels == levels
      ensures this.dateInIndex == dateInIndex && this.bars == bars
    {
      this.columns := columns;
      this.levels := levels;
      this.dateInIndex := dateInIndex;
      this.bars := bars;
    }
  }

  /** `columns.get_level_values(0)`: each label cut to its first level. */
  function FirstLevel(columns: seq<seq<string>>): (r: seq<seq<string>>)
    requires forall i :: 0 <= i < |columns| ==> |columns[i]| >= 1
    ensures |r| == |columns| && forall i :: 0 <= i < |r| ==> r[i] == [columns[i][0]]
  {
    seq(|columns|, i requires 0 <= i < |columns| => [columns[i][0]])
  }

  /** The column labels after lines 27-28: MultiIndex labels cut to their
      first level, one-level labels kept. */
  function Flattened(columns: seq<seq<string>>, levels: nat): (r: seq<seq<string>>)
    requires levels >= 1 && forall i :: 0 <= i < |columns| ==> |columns[i]| == levels
    ensures |r| == |columns| && forall i :: 0 <= i < |r| ==> |r[i]| == 1
    ensures levels == 1 ==> r == columns
  {
    if levels > 1 then FirstLevel(columns) else columns
  }

  /** The label `reset_index` gives the column it inserts (line 31): the name
      of the dated index, `Date`; for the unnamed default index a previous call
      left, `index`, or `level_0` once `index` is taken. */
  function IndexColumnName(columns: seq<seq<string>>, dateInIndex: bool): (name: string)
    ensures dateInIndex ==> name == "Date"
    ensures !dateInIndex && ["index"] !in columns ==> name == "index"
    ensures !dateInIndex && ["index"] in columns ==> name == "level_0"
  {
    if dateInIndex then "Date" else if ["index"] !in columns then "index" else "level_0"
  }

  /** Calls repeated on one yfinance frame insert `Date`, then `index`, then
      `level_0`; the fourth call finds `level_0` taken, so its insert raises. */
  lemma RepeatedCallsNameTheIndexColumn(columns: seq<seq<string>>)
    requires ["Date"] !in columns && ["index"] !in columns && ["level_0"] !in columns
    ensures IndexColumnName(columns, true) == "Date"
    ensures IndexColumnName([["Date"]] + columns, false) == "index"
    ensures IndexColumnName([["index"], ["Date"]] + columns, false) == "level_0"
    ensures var fourth := [["level_0"], ["index"], ["Date"]] + columns;
            IndexColumnName(fourth, false) == "level_0" && ["level_0"] in fourth
  {
    assert ([["index"], ["Date"]] + columns)[0] == ["index"];
    assert ([["level_0"], ["index"], ["Date"]] + columns)[0] == ["level_0"];
    assert ([["level_0"], ["index"], ["Date"]] + columns)[1] == ["index"];
  }

  /** The whole function. A sentiment-side error raises before the frame is
      touched. Otherwise MultiIndex columns are flattened (lines 27-28) and
      `reset_index` (line 31) inserts the index as a first column, raising
      when its label is already a column; line 33 then raises when the frame
      has no `Date` column, and otherwise the joined table is returned. The
      price rows are never changed. */
  method GetCombinedSentimentAndStockData(descs: seq<Description>, sents: seq<SentimentRecord>,
                                          parseDate: string -> Option<int>, stock: StockFrame)
    returns (r: Result<seq<Row>, CombineError>)
    requires stock.Valid()
    modifies stock
    ensures Combine(descs, sents, parseDate, old(stock.bars)).Failure? ==>
              r == Combine(descs, sents, parseDate, old(stock.bars)) && unchanged(stock)
    ensures Combine(descs, sents, parseDate, old(stock.bars)).Success? ==>
              var flat := Flattened(old(stock.columns), old(stock.levels));
              var name := IndexColumnName(flat, old(stock.dateInIndex));
              && stock.Valid() && stock.levels == 1 && stock.bars == old(stock.bars)
              && ([name] in flat ==>
                    && r == Failure(IndexColumnExists(name))
                    && stock.columns == flat && stock.dateInIndex == old(stock.dateInIndex))
              && ([name] !in flat ==>
                    && stock.columns == [[name]] + flat && !stock.dateInIndex
                    && r == if ["Date"] in stock.columns then Combine(descs, sents, parseDate, old(stock.bars))
                            else Failure(MissingDateColumn))
  {
    var days := ParseDates(descs, parseDate);
    if days.None? {
      return Failure(UnparsableDate);
    }
    if |sents| > 0 && |days.value| != |sents| {
      return Failure(LengthMismatch);
    }
    if |sents| == 0 {
      return Failure(MissingCompound);
    }
    var dated := Pair(days.value, sents);
    var grouped := GroupByDate(dated, CompoundIsNumeric(sents));

    if stock.levels > 1 {
      stock.columns := FirstLevel(stock.columns);
      stock.levels := 1;
    }
    var indexColumn := IndexColumnName(stock.columns, stock.dateInIndex);
    if [indexColumn] in stock.columns {
      return Failure(IndexColumnExists(indexColumn));
    }
    stock.columns := [[indexColumn]] + stock.columns;
    stock.dateInIndex := false;

    if ["Date"] !in stock.columns {
      return Failure(MissingDateColumn);
    }
    r := Success(InnerJoin(stock.bars, grouped));
  }

  /** Four calls on one freshly downloaded frame (the dates in its index, no
      `Date`, `index` or `level_0` column) with well-formed sentiment: the
      first three return the combined table, inserting `Date`, `index` and
      `level_0` in turn, and the fourth raises because `level_0` is taken. */
  method CallFourTimes(descs: seq<Description>, sents: seq<SentimentRecord>,
                       parseDate: string -> Option<int>, stock: StockFrame)
    returns (r1: Result<seq<Row>, CombineError>, r2: Result<seq<Row>, CombineError>,
             r3: Result<seq<Row>, CombineError>, r4: Result<seq<Row>, CombineError>)
    requires stock.Valid() && stock.levels == 1 && stock.dateInIndex
    requires ["Date"] !in stock.columns && ["index"] !in stock.columns && ["level_0"] !in stock.columns
    requires Combine(descs, sents, parseDate, stock.bars).Success?
    modifies stock
    ensures r1 == r2 == r3 == Combine(descs, sents, parseDate, old(stock.bars))
    ensures r4 == Failure(IndexColumnExists("level_0"))
    ensures stock.columns == [["level_0"], ["index"], ["Date"]] + old(stock.columns)
    ensures stock.bars == old(stock.bars)
  {
    RepeatedCallsNameTheIndexColumn(stock.columns);
    r1 := GetCombinedSentimentAndStockData(descs, sents, parseDate, stock);
    r2 := GetCombinedSentimentAndStockData(descs, sents, parseDate, stock);
    r3 := GetCombinedSentimentAndStockData(descs, sents, parseDate, stock);
    r4 := GetCombinedSentimentAndStockData(descs, sents, parseDate, stock);
  }
}
