/** `get_last_trading_day_price`: the close of the latest date in the
    combined table. If that date falls on a weekend, the close of the nearest
    earlier table date at most 7 days back. Dates are day numbers, so the
    `pd.to_datetime` of the `Date` column is the identity here. Line numbers
    refer to get_last_trading_day_price.py. */
module LastTradingDay {
  import opened Values
  import opened Calendar
  import opened Frame

  /** `iloc[-1]` of an empty table raises. */
  datatype LookupError = EmptyTable

  /** How far back the weekend fallback looks: `range(1, 8)`. */
  const MaxLookBack: nat := 7

  /** Lines 20-23: the last date after sorting, which is the largest date. */
  function LatestDate(rows: seq<Row>): (d: int)
    requires |rows| > 0
    ensures d in RowDates(rows)
    ensures forall i :: 0 <= i < |rows| ==> rows[i].date <= d
    decreases |rows|
  {
    if |rows| == 1 then rows[0].date
    else
      var rest := LatestDate(rows[1..]);
      assert forall i :: 1 <= i < |rows| ==> rows[i] == rows[1..][i - 1];
      var j :| 0 <= j < |rows[1..]| && rows[1..][j].date == rest;
      assert rows[j + 1].date == rest;
      if rows[0].date >= rest then rows[0].date else rest
  }

  /** `loc[Date == d, 'Close'].values[0]`: the close of a row dated d. */
  function CloseOn(rows: seq<Row>, d: int): (c: Option<real>)
    requires d in RowDates(rows)
    ensures exists i :: 0 <= i < |rows| && rows[i].date == d && rows[i].close == c
    decreases |rows|
  {
    if rows[0].date == d then rows[0].close
    else
      var i :| 0 <= i < |rows| && rows[i].date == d;
      assert rows[1..][i - 1].date == d;
      var c := CloseOn(rows[1..], d);
      var k :| 0 <= k < |rows[1..]| && rows[1..][k].date == d && rows[1..][k].close == c;
      assert rows[k + 1] == rows[1..][k];
      c
  }

  /** The first `last - i`, for i from `from` up to 7, that is a table date. */
  function SearchBack(rows: seq<Row>, last: int, from: nat): (r: Option<int>)
    requires from >= 1
    decreases MaxLookBack + 1 - from
  {
    if from > MaxLookBack then None
    else if last - from in RowDates(rows) then Some(last - from)
    else SearchBack(rows, last, from + 1)
  }

  /** No table date lies in the days lo..hi. */
  predicate NoTableDateIn(rows: seq<Row>, lo: int, hi: int) {
    forall day :: lo <= day <= hi ==> day !in RowDates(rows)
  }

  /** The search returns the nearest earlier table date in the window, and
      finds nothing exactly when that part of the window has no table date. */
  lemma {:induction false} SearchBackFindsNearest(rows: seq<Row>, last: int, from: nat)
    requires from >= 1
    ensures SearchBack(rows, last, from).Some? ==>
              var d := SearchBack(rows, last, from).value;
              && d in RowDates(rows) && last - MaxLookBack <= d <= last - from
              && NoTableDateIn(rows, d + 1, last - from)
    ensures SearchBack(rows, last, from).None? <==> NoTableDateIn(rows, last - MaxLookBack, last - from)
    decreases MaxLookBack + 1 - from
  {
    if from <= MaxLookBack {
      if last - from in RowDates(rows) {
        assert !NoTableDateIn(rows, last - MaxLookBack, last - from);
      } else {
        SearchBackFindsNearest(rows, last, from + 1);
        if SearchBack(rows, last, from).None? {
          assert NoTableDateIn(rows, last - MaxLookBack, last - from);
        } else {
          assert !NoTableDateIn(rows, last - MaxLookBack, last - from) by {
            assert SearchBack(rows, last, from).value in RowDates(rows);
          }
        }
      }
    }
  }

  /** The pair lines 29 and 36 return: the close and its date. */
  datatype Quote = Quote(close: Option<real>, date: int)

  /** The value lines 17-38 compute. `Success(None)` is the `(None, None)`
      of line 38. */
  function LastTradingDayQuote(rows: seq<Row>): (r: Result<Option<Quote>, LookupError>)
    ensures r.Failure? <==> |rows| == 0
  {
    if |rows| == 0 then Failure(EmptyTable)
    else
      var last := LatestDate(rows);
      if Weekday(last) < 5 then Success(Some(Quote(CloseOn(rows, last), last)))
      else
        match SearchBack(rows, last, 1)
        case None => Success(None)
        case Some(d) => Success(Some(Quote(CloseOn(rows, d), d)))
  }

  /** Lines 17-38, with the weekend fallback as the bounded loop it is. */
  method GetLastTradingDayPrice(rows: seq<Row>) returns (r: Result<Option<Quote>, LookupError>)
    ensures r == LastTradingDayQuote(rows)
  {
    if |rows| == 0 {
      return Failure(EmptyTable);
    }
    var dates := RowDates(rows);
    var lastDate := LatestDate(rows);
    if Weekday(lastDate) < 5 {
      return Success(Some(Quote(CloseOn(rows, lastDate), lastDate)));
    }
    var i := 1;
    while i < MaxLookBack + 1
      invariant 1 <= i <= MaxLookBack + 1
      invariant SearchBack(rows, lastDate, 1) == SearchBack(rows, lastDate, i)
    {
      var previousDate := lastDate - i;
      if previousDate in dates {
        return Success(Some(Quote(CloseOn(rows, previousDate), previousDate)));
      }
      i := i + 1;
    }
    r := Success(None);
  }

  /** Any date returned is a table date no later than the latest date and at
      most 7 days before it, and the close is the close of a row of that date. */
  lemma QuoteComesFromTable(rows: seq<Row>)
    requires LastTradingDayQuote(rows).Success? && LastTradingDayQuote(rows).value.Some?
    ensures var q := LastTradingDayQuote(rows).value.value;
            var last := LatestDate(rows);
            && q.date in RowDates(rows) && last - MaxLookBack <= q.date <= last
            && exists i :: 0 <= i < |rows| && rows[i].date == q.date && rows[i].close == q.close
  {
    SearchBackFindsNearest(rows, LatestDate(rows), 1);
  }

  /** A latest date on a weekday is returned as it is. */
  lemma WeekdayLatestIsReturned(rows: seq<Row>)
    requires |rows| > 0 && Weekday(LatestDate(rows)) < 5
    ensures LastTradingDayQuote(rows).value.Some?
    ensures LastTradingDayQuote(rows).value.value.date == LatestDate(rows)
  {
  }

  /** On a weekend the result is the nearest earlier table date within 7
      days: no table date lies strictly between it and the latest date. */
  lemma WeekendFallsBackToNearest(rows: seq<Row>)
    requires |rows| > 0 && Weekday(LatestDate(rows)) >= 5
    requires LastTradingDayQuote(rows).value.Some?
    ensures var d := LastTradingDayQuote(rows).value.value.date;
            d < LatestDate(rows) && NoTableDateIn(rows, d + 1, LatestDate(rows) - 1)
  {
    SearchBackFindsNearest(rows, LatestDate(rows), 1);
  }

  /** `(None, None)` comes back exactly when the latest date is a weekend
      and no table date lies in the 7 days before it. */
  lemma NothingFoundIffEmptyWindow(rows: seq<Row>)
    requires |rows| > 0
    ensures LastTradingDayQuote(rows).value.None? ==>
              Weekday(LatestDate(rows)) >= 5
              && NoTableDateIn(rows, LatestDate(rows) - MaxLookBack, LatestDate(rows) - 1)
    ensures Weekday(LatestDate(rows)) >= 5
            && NoTableDateIn(rows, LatestDate(rows) - MaxLookBack, LatestDate(rows) - 1)
            ==> LastTradingDayQuote(rows).value.None?
  {
    var last := LatestDate(rows);
    if Weekday(last) >= 5 {
      SearchBackFindsNearest(rows, last, 1);
    }
  }

  /** The fallback date is not checked for being a weekday: a table whose
      latest dates are Saturday 1970-01-03 and Sunday 1970-01-04 yields the
      Saturday. */
  lemma SaturdayCanBeReturned()
    ensures var rows := [Row(2, Some(10.0), None, None, None, None, None, None, None),
                         Row(3, Some(11.0), None, None, None, None, None, None, None)];
            && LastTradingDayQuote(rows) == Success(Some(Quote(Some(10.0), 2)))
            && Weekday(2) == 5
  {
    var rows := [Row(2, Some(10.0), None, None, None, None, None, None, None),
                 Row(3, Some(11.0), None, None, None, None, None, None, None)];
    assert rows[1..][0].date == 3;
    assert LatestDate(rows) == 3;
    assert 2 in RowDates(rows) by { assert rows[0].date == 2; }
  }
}
