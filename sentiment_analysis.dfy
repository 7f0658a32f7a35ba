/** `get_sentiments_list`: copies each description's provider sentiment into a
    record and appends it to the module-level `sentiments_list`. Line numbers
    refer to perform_sentiment_analysis.py. */
module SentimentAnalysis {
  import opened Values
  import opened Sentiments
  import opened SentimentFetch

  /** `{'compound': polarity, 'neg': ..., 'neu': ..., 'pos': ...}` */
  datatype SentimentRecord = SentimentRecord(compound: real, neg: real, neu: real, pos: real)

  /** The record lines 23-28 build, or None when `description['sentiment']` or
      one of its four keys is missing (a KeyError in the source). */
  function Analyse(d: Description): (r: Option<SentimentRecord>)
    ensures r.Some? <==> d.sentiment.Some? && d.sentiment.value.polarity.Some?
                         && d.sentiment.value.neg.Some? && d.sentiment.value.neu.Some?
                         && d.sentiment.value.pos.Some?
    ensures r.Some? ==> (r.value.compound == d.sentiment.value.polarity.value
                         && r.value.neg == d.sentiment.value.neg.value
                         && r.value.neu == d.sentiment.value.neu.value
                         && r.value.pos == d.sentiment.value.pos.value)
  {
    if d.sentiment.None? then None
    else
      var f := d.sentiment.value;
      if f.polarity.None? || f.neg.None? || f.neu.None? || f.pos.None? then None
      else Some(SentimentRecord(f.polarity.value, f.neg.value, f.neu.value, f.pos.value))
  }

  predicate Analysable(descs: seq<Description>) {
    forall i :: 0 <= i < |descs| ==> Analyse(descs[i]).Some?
  }

  /** The records of a list that can be analysed, in list order. */
  function Records(descs: seq<Description>): (r: seq<SentimentRecord>)
    requires Analysable(descs)
    ensures |r| == |descs| && forall i :: 0 <= i < |descs| ==> r[i] == Analyse(descs[i]).value
  {
    seq(|descs|, i requires 0 <= i < |descs| => Analyse(descs[i]).value)
  }

  /** The module-level `sentiments_list`, shared by every call. */
  class SentimentsList {
    var items: seq<SentimentRecord>

    constructor ()
      ensures items == []
    {
      items := [];
    }
  }

  /** The KeyError the loop stops at: the position of the first description
      that lacks sentiment. */
  datatype AnalysisError = MissingSentiment(index: nat)

  /** Lines 21-32. On success the shared list has grown by one record per
      description and is itself the result. A missing key stops the loop
      after the records of the descriptions before it were appended. */
  method GetSentimentsList(shared: SentimentsList, descs: seq<Description>)
    returns (r: Result<SentimentsList, AnalysisError>)
    modifies shared
    ensures r.Success? <==> Analysable(descs)
    ensures r.Success? ==> r.value == shared && shared.items == old(shared.items) + Records(descs)
    ensures r.Failure? ==>
      var k := r.error.index;
      && k < |descs| && Analyse(descs[k]).None?
      && Analysable(descs[..k])
      && shared.items == old(shared.items) + Records(descs[..k])
  {
    var i := 0;
    while i < |descs|
      invariant 0 <= i <= |descs|
      invariant Analysable(descs[..i])
      invariant shared.items == old(shared.items) + Records(descs[..i])
    {
      var combinedScore := Analyse(descs[i]);
      if combinedScore.None? {
        return Failure(MissingSentiment(i));
      }
      assert Records(descs[..i + 1]) == Records(descs[..i]) + [combinedScore.value];
      shared.items := shared.items + [combinedScore.value];
      i := i + 1;
    }
    assert descs[..|descs|] == descs;
    r := Success(shared);
  }

  /** Calling twice with the same input leaves its records in the shared list
      twice: the function is not idempotent. An empty input changes nothing. */
  method AnalyseTwice(shared: SentimentsList, descs: seq<Description>)
    requires Analysable(descs)
    modifies shared
    ensures shared.items == old(shared.items) + Records(descs) + Records(descs)
    ensures descs == [] ==> shared.items == old(shared.items)
  {
    var first := GetSentimentsList(shared, descs);
    var second := GetSentimentsList(shared, descs);
  }

  /** The entries `fetch_sentiment_data` appends have no `sentiment` key, so a
      non-empty list of them stops `get_sentiments_list` at its first entry. */
  lemma FetchedDescriptionsCannotBeAnalysed(articles: seq<Article>, parse: string -> Option<int>, format: int -> string)
    ensures forall d :: d in Kept(articles, parse, format) ==> Analyse(d).None?
    ensures Kept(articles, parse, format) != [] ==> !Analysable(Kept(articles, parse, format))
  {
    forall d | d in Kept(articles, parse, format)
      ensures d.sentiment.None?
    {
      KeptHaveNoSentiment(articles, parse, format, d);
    }
    var ks := Kept(articles, parse, format);
    if ks != [] {
      assert ks[0] in ks;
    }
  }

  lemma {:induction false} KeptHaveNoSentiment(articles: seq<Article>, parse: string -> Option<int>, format: int -> string, d: Description)
    requires d in Kept(articles, parse, format)
    ensures d.sentiment.None?
    decreases |articles|
  {
    var rest := Kept(articles[1..], parse, format);
    if d in rest {
      KeptHaveNoSentiment(articles[1..], parse, format, d);
    }
  }
}
