/** The feature row that `predict_next_trading_day_price` hands to the
    fitted imputer, scaler and model (lines 77-124). The same-day sentiment
    comes in as a parameter: it is what `fetch_news_sentiment` returned. Line
    numbers refer to predict_next_trading_day_price.py. */
module NextDayFeatures {
  import opened Values
  import opened Sentiments
  import opened Frame
  import opened Indicators

  /** `iloc[-1]` and `iloc[-2]` of a table with fewer than two rows raise. */
  datatype FeatureError = InsufficientHistory

  const FeatureCount: nat := 11

  /** Line 88. A zero previous close makes the NaN or infinity of IEEE
      division, a value that is not a real: None. */
  function DailyReturn(closes: seq<real>): (r: Option<real>)
    requires |closes| >= 2
    ensures r.None? <==> closes[|closes| - 2] == 0.0
    ensures r.Some? ==> closes[|closes| - 2] * (1.0 + r.value) == closes[|closes| - 1]
  {
    var last, prev := closes[|closes| - 1], closes[|closes| - 2];
    if prev == 0.0 then None else Some((last - prev) / prev)
  }

  /** The 11 entries of `X_new`, in order: the fetched neg, neu and pos, then
      daily return, SMA 5, SMA 20, RSI 14, MACD, ATR 14, 5-row average volume
      and the last row's own close. */
  function InferenceFeatures(history: seq<Row>, fetched: Scores): (r: Result<seq<Option<real>>, FeatureError>)
    ensures r.Failure? <==> |DropMissing(history)| < 2
    ensures r.Success? ==>
      var bars := DropMissing(history);
      var c := Closes(bars);
      && |r.value| == FeatureCount
      && r.value[0] == Some(fetched.neg) && r.value[1] == Some(fetched.neu) && r.value[2] == Some(fetched.pos)
      && r.value[3] == DailyReturn(c)
      && r.value[4] == RollingMeanLast(c, 5)
      && r.value[5] == RollingMeanLast(c, 20)
      && r.value[6] == Rsi(c)
      && r.value[7] == Some(Macd(c))
      && r.value[8] == Atr(Highs(bars), Lows(bars), c)
      && r.value[9] == RollingMeanLast(Volumes(bars), 5)
      && r.value[10] == Some(c[|c| - 1])
  {
    var bars := DropMissing(history);
    if |bars| < 2 then Failure(InsufficientHistory)
    else
      var c := Closes(bars);
      var sentiment := [Some(fetched.neg), Some(fetched.neu), Some(fetched.pos)];
      var technical := [DailyReturn(c), RollingMeanLast(c, 5), RollingMeanLast(c, 20), Rsi(c), Some(Macd(c)),
                        Atr(Highs(bars), Lows(bars), c), RollingMeanLast(Volumes(bars), 5), Some(c[|c| - 1])];
      Success(sentiment + technical)
  }

  /** A row with a NaN in a checked column has no effect on the features,
      wherever it stands in the history. */
  lemma IncompleteRowIsIgnored(before: seq<Row>, bad: Row, after: seq<Row>, fetched: Scores)
    requires !Complete(bad)
    ensures InferenceFeatures(before + [bad] + after, fetched) == InferenceFeatures(before + after, fetched)
  {
    assert [bad][1..] == [];
    assert DropMissing([bad]) == [];
    DropMissingAppend(before + [bad], after);
    DropMissingAppend(before, [bad]);
    DropMissingAppend(before, after);
    assert DropMissing(before + [bad]) == DropMissing(before);
    assert DropMissing(before + [bad] + after) == DropMissing(before + after);
  }

  /** The historical neg/neu/pos cells only decide which rows survive the
      `dropna`; their values never reach the feature row. */
  lemma HistoricalSentimentIsUnused(h1: seq<Row>, h2: seq<Row>, fetched: Scores)
    requires |h1| == |h2|
    requires forall i :: 0 <= i < |h1| ==> SamePrices(h1[i], h2[i])
    ensures InferenceFeatures(h1, fetched) == InferenceFeatures(h2, fetched)
  {
    DropMissingPricesAgree(h1, h2);
    var b1, b2 := DropMissing(h1), DropMissing(h2);
    assert Closes(b1) == Closes(b2);
    assert Highs(b1) == Highs(b2);
    assert Lows(b1) == Lows(b2);
    assert Volumes(b1) == Volumes(b2);
  }

  /** With at least 20 complete rows and a non-zero second-to-last close,
      every entry is defined: nothing is left for the imputer to fill. */
  lemma LongHistoryDefinesEveryFeature(history: seq<Row>, fetched: Scores)
    requires |DropMissing(history)| >= 20
    requires var c := Closes(DropMissing(history)); c[|c| - 2] != 0.0
    ensures InferenceFeatures(history, fetched).Success?
    ensures forall k :: 0 <= k < FeatureCount ==> InferenceFeatures(history, fetched).value[k].Some?
  {
    var bars := DropMissing(history);
    var c := Closes(bars);
    var r := InferenceFeatures(history, fetched).value;
    assert r[3] == DailyReturn(c) && r[3].Some?;
    assert r[4] == RollingMeanLast(c, 5) && r[4].Some?;
    assert r[5] == RollingMeanLast(c, 20) && r[5].Some?;
    assert r[6] == Rsi(c) && r[6].Some?;
    assert r[8] == Atr(Highs(bars), Lows(bars), c) && r[8].Some?;
    assert r[9] == RollingMeanLast(Volumes(bars), 5) && r[9].Some?;
  }

  /** A flat market: at least 20 complete rows that all close, peak and
      bottom at one price v > 0 with one volume w. Return, RSI, MACD and ATR
      are 0, both moving averages are v and the average volume is w. */
  lemma FlatMarketFeatures(history: seq<Row>, fetched: Scores, v: real, w: real)
    requires |history| >= 20 && v > 0.0
    requires forall i :: 0 <= i < |history| ==>
      Complete(history[i]) && history[i].close == history[i].high == history[i].low == Some(v)
      && history[i].volume == Some(w)
    ensures InferenceFeatures(history, fetched) == Success([
      Some(fetched.neg), Some(fetched.neu), Some(fetched.pos),
      Some(0.0), Some(v), Some(v), Some(0.0), Some(0.0), Some(0.0), Some(w), Some(v)])
  {
    var bars := DropMissing(history);
    var c, hs, ls, vs := Closes(bars), Highs(bars), Lows(bars), Volumes(bars);
    FlatBars(history, v, w);
    FlatIndicators(c, hs, ls, vs, v, w);
    var sentiment := [Some(fetched.neg), Some(fetched.neu), Some(fetched.pos)];
    var technical := [DailyReturn(c), RollingMeanLast(c, 5), RollingMeanLast(c, 20), Rsi(c), Some(Macd(c)),
                      Atr(hs, ls, c), RollingMeanLast(vs, 5), Some(c[|c| - 1])];
    assert InferenceFeatures(history, fetched) == Success(sentiment + technical);
    assert c[|c| - 1] == v;
    assert technical == [Some(0.0), Some(v), Some(v), Some(0.0), Some(0.0), Some(0.0), Some(w), Some(v)];
    assert sentiment + technical == [
      Some(fetched.neg), Some(fetched.neu), Some(fetched.pos),
      Some(0.0), Some(v), Some(v), Some(0.0), Some(0.0), Some(0.0), Some(w), Some(v)];
  }

  /** Every surviving row of a flat history carries the price v and the volume w. */
  lemma FlatBars(history: seq<Row>, v: real, w: real)
    requires forall i :: 0 <= i < |history| ==>
      Complete(history[i]) && history[i].close == history[i].high == history[i].low == Some(v)
      && history[i].volume == Some(w)
    ensures |DropMissing(history)| == |history|
    ensures var bars := DropMissing(history);
            forall i :: 0 <= i < |bars| ==>
              Closes(bars)[i] == v && Highs(bars)[i] == v && Lows(bars)[i] == v && Volumes(bars)[i] == w
  {
    var bars := DropMissing(history);
    forall i | 0 <= i < |bars|
      ensures Closes(bars)[i] == v && Highs(bars)[i] == v && Lows(bars)[i] == v && Volumes(bars)[i] == w
    {
      assert bars[i] == ToBar(history[i]);
    }
  }

  /** The indicators of at least 20 rows at one price v > 0 and one volume w. */
  lemma FlatIndicators(c: seq<real>, hs: seq<real>, ls: seq<real>, vs: seq<real>, v: real, w: real)
    requires |c| >= 20 && |hs| == |ls| == |vs| == |c| && v > 0.0
    requires forall i :: 0 <= i < |c| ==> c[i] == v && hs[i] == v && ls[i] == v && vs[i] == w
    ensures DailyReturn(c) == Some(0.0)
    ensures RollingMeanLast(c, 5) == Some(v) && RollingMeanLast(c, 20) == Some(v)
    ensures Rsi(c) == Some(0.0) && Macd(c) == 0.0
    ensures Atr(hs, ls, c) == Some(0.0)
    ensures RollingMeanLast(vs, 5) == Some(w)
  {
    RollingMeanBetween(c, 5, v, v);
    RollingMeanBetween(c, 20, v, v);
    RollingMeanBetween(vs, 5, w, w);
    RsiOfNonFallingWindowIsZero(c);
    MacdOfConstantIsZero(c, v);
    var trs := TrueRanges(hs, ls, c);
    forall i | 0 <= i < |trs| ensures trs[i] == 0.0 {
      if i > 0 {
        assert trs[i] == TrueRange(v, v, Some(v));
      }
    }
    RollingMeanBetween(trs, AtrWindow, 0.0, 0.0);
  }
}
