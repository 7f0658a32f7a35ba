/** `fetch_sentiment_data`: turns the news provider's articles into
    descriptions and appends them to the module-level `description_list`.
    The HTTP request is not modelled (its status code and decoded article
    list are parameters), nor are `datetime.fromisoformat` and
    `strftime('%d %b %Y')`, which stay abstract: a partial parse and a
    format function supplied by the caller. Line numbers refer to
    fetch_sentiment_data.py. */
module SentimentFetch {
  import opened Values
  import opened Sentiments

  /** One article of the provider's list; the provider's own `sentiment`
      mapping comes along with it. */
  datatype Article = Article(date: string, title: string, content: string, sentiment: Option<SentimentFields>)

  /** One entry of `description_list`; `sentiment` is None when the entry has
      no `sentiment` key. */
  datatype Description = Description(date: string, title: string, content: string, sentiment: Option<SentimentFields>)

  predicate EndsWith(s: string, suffix: string) {
    |suffix| <= |s| && s[|s| - |suffix|..] == suffix
  }

  /** Lines 36-37: a timestamp ending in `+00:0` gets its last character
      replaced by `00`, which gives `+00:00`; any other string is kept. */
  function RepairTimezone(s: string): (r: string)
    ensures EndsWith(s, "+00:0") ==> r == s[..|s| - 1] + "00" && EndsWith(r, "+00:00")
    ensures !EndsWith(s, "+00:0") ==> r == s
    ensures !EndsWith(r, "+00:0")
  {
    if EndsWith(s, "+00:0") then
      var r := s[..|s| - 1] + "00";
      assert r[|r| - 6..] == "+00:00" by {
        assert s[|s| - 5..] == "+00:0";
        assert r[|r| - 6..] == s[|s| - 5..|s| - 1] + "00";
      }
      assert r[|r| - 5] == r[|r| - 6..][1] == '0';
      assert r[|r| - 5..][0] != "+00:0"[0];
      r
    else s
  }

  /** Repairing twice changes nothing more. */
  lemma RepairIsIdempotent(s: string)
    ensures RepairTimezone(RepairTimezone(s)) == RepairTimezone(s)
  {
  }

  /** What one article becomes: None when its repaired date does not parse
      (the `except ValueError: continue`), otherwise an entry with the
      formatted date and the title and content copied. The entry is built from
      those three keys only. */
  function Describe(a: Article, parse: string -> Option<int>, format: int -> string): (r: Option<Description>)
    ensures r.None? <==> parse(RepairTimezone(a.date)).None?
    ensures r.Some? ==> (r.value.date == format(parse(RepairTimezone(a.date)).value)
                         && r.value.title == a.title && r.value.content == a.content
                         && r.value.sentiment.None?)
  {
    match parse(RepairTimezone(a.date))
    case None => None
    case Some(t) => Some(Description(format(t), a.title, a.content, None))
  }

  /** The entries one successful call appends, in article order. */
  function Kept(articles: seq<Article>, parse: string -> Option<int>, format: int -> string): (r: seq<Description>)
    ensures |r| <= |articles|
    decreases |articles|
  {
    if |articles| == 0 then []
    else
      var rest := Kept(articles[1..], parse, format);
      match Describe(articles[0], parse, format)
      case None => rest
      case Some(d) => [d] + rest
  }

  /** Keeping distributes over concatenation: a skipped article does not
      stop the loop and the order is kept. */
  lemma {:induction false} KeptAppend(a: seq<Article>, b: seq<Article>, parse: string -> Option<int>, format: int -> string)
    ensures Kept(a + b, parse, format) == Kept(a, parse, format) + Kept(b, parse, format)
    decreases |a|
  {
    if |a| == 0 {
      assert a + b == b;
    } else {
      assert (a + b)[1..] == a[1..] + b;
      KeptAppend(a[1..], b, parse, format);
    }
  }

  /** When every date parses, each article gives exactly one entry, in place. */
  lemma {:induction false} KeptAllParse(articles: seq<Article>, parse: string -> Option<int>, format: int -> string)
    requires forall i :: 0 <= i < |articles| ==> parse(RepairTimezone(articles[i].date)).Some?
    ensures |Kept(articles, parse, format)| == |articles|
    ensures forall i :: 0 <= i < |articles| ==> Kept(articles, parse, format)[i] == Describe(articles[i], parse, format).value
    decreases |articles|
  {
    if |articles| > 0 {
      KeptAllParse(articles[1..], parse, format);
      var rest := Kept(articles[1..], parse, format);
      assert forall i :: 1 <= i < |articles| ==> articles[1..][i - 1] == articles[i];
    }
  }

  /** An article whose date does not parse contributes nothing. */
  lemma UnparsableArticleIsSkipped(a: Article, rest: seq<Article>, parse: string -> Option<int>, format: int -> string)
    requires parse(RepairTimezone(a.date)).None?
    ensures Kept([a] + rest, parse, format) == Kept(rest, parse, format)
  {
    assert ([a] + rest)[1..] == rest;
  }

  /** The module-level `description_list`, shared by every call. */
  class DescriptionList {
    var items: seq<Description>

    constructor ()
      ensures items == []
    {
      items := [];
    }
  }

  /** Lines 27-58. Appends to the shared list and returns that same list. */
  method FetchSentimentData(shared: DescriptionList, status: int, articles: seq<Article>,
                            parse: string -> Option<int>, format: int -> string)
    returns (r: DescriptionList)
    modifies shared
    ensures r == shared
    ensures shared.items == old(shared.items) + (if status == 200 then Kept(articles, parse, format) else [])
  {
    if status == 200 {
      var i := 0;
      while i < |articles|
        invariant 0 <= i <= |articles|
        invariant shared.items == old(shared.items) + Kept(articles[..i], parse, format)
      {
        var article := articles[i];
        KeptAppend(articles[..i], [article], parse, format);
        assert articles[..i + 1] == articles[..i] + [article];
        assert [article][1..] == [];
        var originalDate := article.date;
        if EndsWith(originalDate, "+00:0") {
          originalDate := originalDate[..|originalDate| - 1] + "00";
        }
        var parsed := parse(originalDate);
        if parsed.None? {
          i := i + 1;
          continue;
        }
        var articleObject := Description(format(parsed.value), article.title, article.content, None);
        shared.items := shared.items + [articleObject];
        i := i + 1;
      }
      assert articles[..|articles|] == articles;
    }
    r := shared;
  }

  /** Two calls with the same successful response append the same entries
      twice: the function is not idempotent. */
  method FetchTwice(shared: DescriptionList, articles: seq<Article>,
                    parse: string -> Option<int>, format: int -> string)
    modifies shared
    ensures shared.items == old(shared.items) + Kept(articles, parse, format) + Kept(articles, parse, format)
  {
    var first := FetchSentimentData(shared, 200, articles, parse, format);
    var second := FetchSentimentData(shared, 200, articles, parse, format);
    assert first == second;
  }
}
