/** `fetch_news_sentiment`: the same-day sentiment that the next-day forecast
    uses. The HTTP request is not modelled: the response arrives as its status
    code and its decoded JSON payload. Line numbers refer to
    predict_next_trading_day_price.py. */
module NewsSentiment {
  import opened Values
  import opened Sentiments

  /** One news item: its `sentiment` mapping, or None when the item has none. */
  datatype NewsItem = NewsItem(sentiment: Option<SentimentFields>)

  /** The decoded JSON body: a list of items, or any value that is not a list. */
  datatype Payload = NotAList | Items(items: seq<NewsItem>)

  /** `item.get('sentiment', {}).get(key, 0)`: a missing mapping or key adds 0. */
  function Contribution(item: NewsItem, c: Component): real {
    if item.sentiment.None? then 0.0
    else match Field(item.sentiment.value, c)
      case None => 0.0
      case Some(v) => v
  }

  function Contributions(items: seq<NewsItem>, c: Component): (r: seq<real>)
    ensures |r| == |items| && forall i :: 0 <= i < |items| ==> r[i] == Contribution(items[i], c)
  {
    seq(|items|, i requires 0 <= i < |items| => Contribution(items[i], c))
  }

  /** The averaged scores the function returns for a response: all zero for a
      failed request or an empty or non-list payload, otherwise per component
      the sum over the items divided by the number of items. */
  function AveragedSentiment(status: int, payload: Payload): Scores {
    if status == 200 && payload.Items? && |payload.items| > 0 then
      var items := payload.items;
      Scores(Mean(Contributions(items, Neg)), Mean(Contributions(items, Neu)), Mean(Contributions(items, Pos)))
    else
      ZeroScores
  }

  lemma ContributionsPrefix(items: seq<NewsItem>, i: nat, c: Component)
    requires i < |items|
    ensures Contributions(items[..i + 1], c) == Contributions(items[..i], c) + [Contribution(items[i], c)]
  {
  }

  /** The loop of lines 41-56: running totals over the items, then each total
      divided by the item count. */
  method FetchNewsSentiment(status: int, payload: Payload) returns (s: Scores)
    ensures s == AveragedSentiment(status, payload)
  {
    if status != 200 || !payload.Items? || |payload.items| == 0 {
      return ZeroScores;
    }
    var items := payload.items;
    var totalNeg, totalNeu, totalPos := 0.0, 0.0, 0.0;
    var count := |items|;
    var i := 0;
    while i < count
      invariant 0 <= i <= count
      invariant totalNeg == Sum(Contributions(items[..i], Neg))
      invariant totalNeu == Sum(Contributions(items[..i], Neu))
      invariant totalPos == Sum(Contributions(items[..i], Pos))
    {
      ContributionsPrefix(items, i, Neg);
      ContributionsPrefix(items, i, Neu);
      ContributionsPrefix(items, i, Pos);
      totalNeg := totalNeg + Contribution(items[i], Neg);
      totalNeu := totalNeu + Contribution(items[i], Neu);
      totalPos := totalPos + Contribution(items[i], Pos);
      i := i + 1;
    }
    assert items[..count] == items;
    s := Scores(totalNeg / count as real, totalNeu / count as real, totalPos / count as real);
  }

  /** A failed request, a non-list body and an empty list all give zeros. */
  lemma DefaultWithoutNews(status: int, payload: Payload)
    requires status != 200 || payload == NotAList || payload == Items([])
    ensures AveragedSentiment(status, payload) == ZeroScores
  {
  }

  /** An item without a `sentiment` mapping adds nothing to the totals but
      still counts in the divisor. */
  lemma ItemWithoutSentimentStillCounted(items: seq<NewsItem>, c: Component)
    ensures Get(AveragedSentiment(200, Items(items + [NewsItem(None)])), c)
         == Sum(Contributions(items, c)) / (|items| as real + 1.0)
  {
    var xs := Contributions(items, c);
    var ys := Contributions(items + [NewsItem(None)], c);
    assert ys == xs + [0.0];
    SumAppend(xs, [0.0]);
    assert Sum([0.0]) == 0.0 by { assert [0.0][..0] == []; }
    assert Get(AveragedSentiment(200, Items(items + [NewsItem(None)])), c) == Mean(ys) by {
      match c
      case Neg =>
      case Neu =>
      case Pos =>
    }
  }

  /** When every score the provider gives lies in [0, 1], so does every
      average, missing keys included (they contribute 0). */
  lemma AveragesInUnitRange(status: int, payload: Payload, c: Component)
    requires payload.Items? ==> forall i :: 0 <= i < |payload.items| ==>
               payload.items[i].sentiment.Some? ==> InUnit(Field(payload.items[i].sentiment.value, c))
    ensures 0.0 <= Get(AveragedSentiment(status, payload), c) <= 1.0
  {
    if status == 200 && payload.Items? && |payload.items| > 0 {
      var xs := Contributions(payload.items, c);
      assert forall i :: 0 <= i < |xs| ==> 0.0 <= xs[i] <= 1.0;
      MeanAtLeast(xs, 0.0);
      MeanAtMost(xs, 1.0);
      assert Get(AveragedSentiment(status, payload), c) == Mean(xs) by {
        match c
        case Neg =>
        case Neu =>
        case Pos =>
      }
    }
  }

  predicate InUnit(v: Option<real>) {
    v.Some? ==> 0.0 <= v.value <= 1.0
  }
}
