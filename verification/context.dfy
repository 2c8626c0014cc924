/** The pure steps of `generate` (autotrade.py:61-116): which balances go
    into the prompt, how a failed sentiment or news fetch is defaulted, and
    how the news list is cut to its first ten entries. */
module Context {
  import opened Wrappers

  /** One entry of `get_balances()`: the currency and its other string
      attributes (balance, locked, average buy price, unit currency, ...). */
  datatype Holding = Holding(currency: string, attributes: map<string, string>)

  /** One day of the alternative.me Fear & Greed index. */
  datatype SentimentSample = SentimentSample(value: string, classification: string, timestamp: string)

  /** One entry of SerpAPI's `news_results`; the whole entry is passed on. */
  datatype NewsItem = NewsItem(title: string, date: string, attributes: map<string, string>)

  /** What an HTTP fetch gave: a raised request exception (which the
      fetcher catches); a decoded body of the wrong shape, on which `.get` or
      the slice raises an exception the fetcher does not catch; or a decoded
      object in which the wanted key (`data`, `news_results`) may be absent. */
  datatype Fetch<T> = RequestFailed | Malformed | Fetched(field: Option<T>)

  /** An exception that escapes a fetcher: `AttributeError` or `TypeError`
      on a body of the wrong shape. */
  datatype Escaped = ShapeError

  /** The most news entries passed on. */
  const MaxHeadlines: nat := 10

  /** The currencies the prompt reports. */
  predicate Tracked(h: Holding) {
    h.currency == "KRW" || h.currency == "BTC"
  }

  /** The balance filter of line 66: the KRW and BTC entries, in their order. */
  function KeepTracked(all: seq<Holding>): (r: seq<Holding>)
    ensures |r| <= |all|
    ensures forall h :: h in r <==> h in all && Tracked(h)
    ensures forall h :: multiset(r)[h] == if Tracked(h) then multiset(all)[h] else 0
  {
    if all == [] then []
    else
      assert all == [all[0]] + all[1..];
      (if Tracked(all[0]) then [all[0]] else []) + KeepTracked(all[1..])
  }

  /** The filter works entry by entry, so it keeps the original order: the
      kept entries of a concatenation are those of each part, in turn. */
  lemma {:induction false} KeepTrackedAppend(a: seq<Holding>, b: seq<Holding>)
    ensures KeepTracked(a + b) == KeepTracked(a) + KeepTracked(b)
  {
    if a == [] {
      assert a + b == b;
    } else {
      assert (a + b)[1..] == a[1..] + b;
      KeepTrackedAppend(a[1..], b);
    }
  }

  /** A list of KRW and BTC entries only is kept whole; in particular the
      filter is idempotent. */
  lemma {:induction false} KeepTrackedAllTracked(all: seq<Holding>)
    requires forall i :: 0 <= i < |all| ==> Tracked(all[i])
    ensures KeepTracked(all) == all
  {
    if all != [] {
      KeepTrackedAllTracked(all[1..]);
    }
  }

  /** Filtering twice is filtering once. */
  lemma KeepTrackedIdempotent(all: seq<Holding>)
    ensures KeepTracked(KeepTracked(all)) == KeepTracked(all)
  {
    var kept := KeepTracked(all);
    forall i | 0 <= i < |kept| ensures Tracked(kept[i]) {
      assert kept[i] in kept;
    }
    KeepTrackedAllTracked(kept);
  }

  /** Python's `s[:10]`. */
  function FirstHeadlines(s: seq<NewsItem>): (r: seq<NewsItem>)
    ensures |r| == if |s| < MaxHeadlines then |s| else MaxHeadlines
    ensures r <= s
  {
    if |s| <= MaxHeadlines then s else s[..MaxHeadlines]
  }

  /** `get_fear_and_greed_index` (lines 36-45): `None` when the request
      raised, the `data` list (`[]` when absent) otherwise; on a body that is
      not an object, `.get` raises out of the function. */
  function FearAndGreedIndex(response: Fetch<seq<SentimentSample>>): (r: Result<Option<seq<SentimentSample>>, Escaped>)
    ensures r.Err? <==> response.Malformed?
    ensures r == Ok(None) <==> response.RequestFailed?
    ensures response.Fetched? && response.field.None? ==> r == Ok(Some([]))
    ensures response.Fetched? && response.field.Some? ==> r == Ok(Some(response.field.value))
  {
    match response
    case RequestFailed => Ok(None)
    case Malformed => Err(ShapeError)
    case Fetched(data) => Ok(Some(data.GetOr([])))
  }

  /** `get_news_headlines` (lines 15-34): `None` when the request raised, the
      first ten `news_results` entries (`[]` when absent) otherwise; on a body
      of the wrong shape, `.get` or the slice raises out of the function. */
  function NewsHeadlines(response: Fetch<seq<NewsItem>>): (r: Result<Option<seq<NewsItem>>, Escaped>)
    ensures r.Err? <==> response.Malformed?
    ensures r == Ok(None) <==> response.RequestFailed?
    ensures r.Ok? && r.value.Some? ==> |r.value.value| <= MaxHeadlines
    ensures response.Fetched? && response.field.Some? ==>
              r.Ok? && r.value.Some? && r.value.value <= response.field.value
              && |r.value.value| == if |response.field.value| < MaxHeadlines then |response.field.value| else MaxHeadlines
    ensures response.Fetched? && response.field.None? ==> r == Ok(Some([]))
  {
    match response
    case RequestFailed => Ok(None)
    case Malformed => Err(ShapeError)
    case Fetched(results) => Ok(Some(FirstHeadlines(results.GetOr([]))))
  }

  /** The sentiment list of lines 80-81: a failed request becomes `[]`;
      `None` when an exception escaped the fetcher. */
  function Sentiment(response: Fetch<seq<SentimentSample>>): (r: Option<seq<SentimentSample>>)
    ensures r.None? <==> response.Malformed?
    ensures response.RequestFailed? ==> r == Some([])
    ensures response.Fetched? && response.field.Some? ==> r == Some(response.field.value)
    ensures response.Fetched? && response.field.None? ==> r == Some([])
  {
    match FearAndGreedIndex(response)
    case Err(_) => None
    case Ok(fetched) => Some(fetched.GetOr([]))
  }

  /** The news list of lines 84-90: `[]` without a SerpAPI key or when the
      request failed, otherwise the first ten results; `None` when an
      exception escaped the fetcher (which is only called with a key). */
  function News(apiKey: Option<string>, response: Fetch<seq<NewsItem>>): (r: Option<seq<NewsItem>>)
    ensures r.None? <==> apiKey.Some? && apiKey.value != "" && response.Malformed?
    ensures r.Some? ==> |r.value| <= MaxHeadlines
    ensures apiKey.None? || apiKey == Some("") || response.RequestFailed? ==> r == Some([])
    ensures apiKey.Some? && apiKey.value != "" && response.Fetched? && response.field.None? ==> r == Some([])
    ensures apiKey.Some? && apiKey.value != "" && response.Fetched? && response.field.Some? ==>
              r.Some? && r.value <= response.field.value
              && |r.value| == if |response.field.value| < MaxHeadlines then |response.field.value| else MaxHeadlines
  {
    if apiKey.Some? && apiKey.value != "" then
      match NewsHeadlines(response)
      case Err(_) => None
      case Ok(fetched) => Some(fetched.GetOr([]))
    else
      Some([])
  }

  /** The data that the prompt is built from. */
  datatype Snapshot = Snapshot(balances: seq<Holding>, fearAndGreed: seq<SentimentSample>, news: seq<NewsItem>)

  /** The data-gathering `try` of `generate` (lines 63-116): `None` when
      `get_balances` failed, the order book, candle or indicator step raised
      (`marketDataOk` false), or an exception escaped the sentiment or news
      fetcher; a failed sentiment or news request only empties its list. */
  function Gather(balances: Option<seq<Holding>>, marketDataOk: bool,
                  sentiment: Fetch<seq<SentimentSample>>,
                  apiKey: Option<string>, news: Fetch<seq<NewsItem>>): (r: Option<Snapshot>)
    ensures r.Some? <==> balances.Some? && marketDataOk && Sentiment(sentiment).Some? && News(apiKey, news).Some?
    ensures balances.Some? && marketDataOk && !sentiment.Malformed? && !news.Malformed? ==> r.Some?
    ensures r.Some? ==> r.value.balances == KeepTracked(balances.value)
                        && (forall h :: h in r.value.balances ==> Tracked(h))
                        && r.value.fearAndGreed == Sentiment(sentiment).value
                        && r.value.news == News(apiKey, news).value
                        && |r.value.news| <= MaxHeadlines
    ensures r.Some? && sentiment.RequestFailed? ==> r.value.fearAndGreed == []
    ensures r.Some? && news.RequestFailed? ==> r.value.news == []
  {
    if balances.None? || !marketDataOk then None
    else
      match (Sentiment(sentiment), News(apiKey, news))
      case (Some(fearAndGreed), Some(headlines)) =>
        Some(Snapshot(KeepTracked(balances.value), fearAndGreed, headlines))
      case _ => None
  }
}
