/** The event store against a plain log of everything it kept, whatever the clock does. */
module EventLog {
  import opened Wrappers
  import opened EventStore

  /** The events of a feed in a log, newest first. */
  function NewestFirst(log: seq<Arrival>, feed: FeedKey): seq<Event> {
    if log == [] then []
    else
      var last := log[|log| - 1].event;
      (if last.feedKey == feed then [last] else []) + NewestFirst(log[..|log| - 1], feed)
  }

  function Latencies(log: seq<Arrival>): seq<real> {
    if log == [] then []
    else
      Latencies(log[..|log| - 1]) +
      match log[|log| - 1].event.latencyMs
      case Some(ms) => [ms]
      case None => []
  }

  function TakeLast<T>(xs: seq<T>, n: nat): seq<T> {
    if |xs| <= n then xs else xs[|xs| - n..]
  }

  // ---- feed counters ------------------------------------------------------------------------

  function Total(feeds: seq<FeedKey>, counts: map<FeedKey, nat>): nat {
    if feeds == [] then 0 else Get(counts, feeds[0], 0) + Total(feeds[1..], counts)
  }

  function FeedIndex(feed: FeedKey): nat {
    match feed
    case Listings => 0
    case Delistings => 1
    case AllDerivativesTopBuy5m => 2
    case AllDerivativesTopSell5m => 3
    case AllSpotTopBuy5m => 4
    case AllSpotTopSell5m => 5
    case AllSpotPer => 6
    case AllDerivativesPer => 7
    case TopOiGainers60m => 8
    case TopOiLosers60m => 9
    case OiAlerts => 10
    case PriceAlerts1 => 11
    case PriceAlerts2 => 12
    case PriceAlertsFeed => 13
    case VolAlerts => 14
    case FlowsAlert => 15
    case CexTrack => 16
    case TopFunding => 17
    case EtfCrypto => 18
    case Onchain24AllFlows => 19
    case Onchain1AllFlows => 20
    case RawUnclassified => 21
  }

  /** Every feed is listed, and listed once. */
  lemma FeedKeysListed(feed: FeedKey)
    ensures FeedIndex(feed) < |FeedKeys()| && FeedKeys()[FeedIndex(feed)] == feed
    ensures forall i | 0 <= i < |FeedKeys()| :: FeedIndex(FeedKeys()[i]) == i
  {
    assert |FeedKeys()| == 22;
    forall i | 0 <= i < |FeedKeys()|
      ensures FeedIndex(FeedKeys()[i]) == i
    {
    }
  }

  lemma {:induction false} TotalOfOthers(feeds: seq<FeedKey>, counts: map<FeedKey, nat>, feed: FeedKey, n: nat)
    requires feed !in feeds
    ensures Total(feeds, counts[feed := n]) == Total(feeds, counts)
  {
    if feeds != [] {
      TotalOfOthers(feeds[1..], counts, feed, n);
    }
  }

  lemma {:induction false} TotalCounts(feeds: seq<FeedKey>, counts: map<FeedKey, nat>, i: nat)
    requires i < |feeds| && forall j | 0 <= j < |feeds| && j != i :: feeds[j] != feeds[i]
    ensures Total(feeds, counts[feeds[i] := Get(counts, feeds[i], 0) + 1]) == Total(feeds, counts) + 1
  {
    if i == 0 {
      TotalOfOthers(feeds[1..], counts, feeds[0], Get(counts, feeds[0], 0) + 1);
    } else {
      TotalCounts(feeds[1..], counts, i - 1);
    }
  }

  lemma {:induction false} TotalZero(feeds: seq<FeedKey>, counts: map<FeedKey, nat>)
    requires forall f <- counts :: counts[f] == 0
    ensures Total(feeds, counts) == 0
  {
    if feeds != [] {
      TotalZero(feeds[1..], counts);
    }
  }

  lemma CountOne(counts: map<FeedKey, nat>, feed: FeedKey)
    ensures Total(FeedKeys(), counts[feed := Get(counts, feed, 0) + 1]) == Total(FeedKeys(), counts) + 1
  {
    FeedKeysListed(feed);
    TotalCounts(FeedKeys(), counts, FeedIndex(feed));
  }

  // ---- refinement ---------------------------------------------------------------------------

  /** What the store shows is the image of the log. */
  ghost predicate Shows(o: Options, s: Store, log: seq<Arrival>) {
    && (forall f :: Get(s.buffers, f, []) == Take(NewestFirst(log, f), o.bufferSize))
    && (forall f :: Get(s.byFeed, f, 0) == |NewestFirst(log, f)|)
    && s.stored == |log| == Total(FeedKeys(), s.byFeed)
    && s.latency == TakeLast(Latencies(log), LATENCY_SAMPLES)
    && s.lastEventTime == if log == [] then None else Some(log[|log| - 1].event.receivedAt)
  }

  lemma TakePush<T>(x: T, xs: seq<T>, n: nat)
    ensures Take([x] + Take(xs, n), n) == Take([x] + xs, n)
  {
    if n > 0 && |xs| > n {
      assert ([x] + xs[..n])[..n] == [x] + xs[..n - 1];
      assert ([x] + xs)[..n] == [x] + xs[..n - 1];
    }
  }

  lemma PushShows(o: Options, s: Store, log: seq<Arrival>, a: Arrival)
    requires Shows(o, s, log)
    ensures Shows(o, Push(o, s, a.event, a.at), log + [a])
  {
    var r := Push(o, s, a.event, a.at);
    var longer := log + [a];
    assert longer[..|longer| - 1] == log;
    forall f
      ensures Get(r.buffers, f, []) == Take(NewestFirst(longer, f), o.bufferSize)
      ensures Get(r.byFeed, f, 0) == |NewestFirst(longer, f)|
    {
      if f == a.event.feedKey {
        TakePush(a.event, NewestFirst(log, f), o.bufferSize);
      }
    }
    CountOne(s.byFeed, a.event.feedKey);
  }

  lemma EmptyShowsNothing(o: Options)
    ensures Shows(o, Empty(), [])
  {
    hide FeedKeys;
    TotalZero(FeedKeys(), Empty().byFeed);
  }

  lemma ArrivalShows(o: Options, s: Store, log: seq<Arrival>, a: Arrival, cleaning: bool)
    requires Shows(o, s, log)
    ensures Shows(o, Added(o, s, a.event, a.at, cleaning),
                  if Stores(o, s, a.event, a.at, cleaning) then log + [a] else log)
  {
    hide Cleaned, FeedKeys;
    var r := Receive(o, s, a.at, cleaning);
    assert Shows(o, r, log);
    if Stores(o, s, a.event, a.at, cleaning) {
      PushShows(o, r, log, a);
    }
  }

  lemma ArrivalCounted(o: Options, s: Store, a: Arrival, cleaning: bool)
    ensures var r := Added(o, s, a.event, a.at, cleaning);
      r.received == s.received + 1 && r.stored + r.deduplicated == s.stored + s.deduplicated + 1
  {
    hide Cleaned, Duplicate;
  }

  lemma RunUnfolds(o: Options, start: Store, arrivals: seq<Arrival>, cleaning: bool)
    requires arrivals != []
    ensures var front, last := arrivals[..|arrivals| - 1], arrivals[|arrivals| - 1];
      var before := Run(o, start, front, cleaning);
      && Run(o, start, arrivals, cleaning) == Added(o, before, last.event, last.at, cleaning)
      && Kept(o, start, arrivals, cleaning) ==
         if Stores(o, before, last.event, last.at, cleaning) then Kept(o, start, front, cleaning) + [last]
         else Kept(o, start, front, cleaning)
  {
    hide Added, Stores;
  }

  /** After any run, whatever the clock does, the store shows what it kept. */
  lemma {:induction false} RunShowsKept(o: Options, arrivals: seq<Arrival>, cleaning: bool)
    ensures Shows(o, Run(o, Empty(), arrivals, cleaning), Kept(o, Empty(), arrivals, cleaning))
    ensures var s := Run(o, Empty(), arrivals, cleaning); s.received == |arrivals| == s.stored + s.deduplicated
  {
    if arrivals == [] {
      EmptyShowsNothing(o);
    } else {
      hide Empty, Shows, Added, Stores;
      var n := |arrivals| - 1;
      var before := Run(o, Empty(), arrivals[..n], cleaning);
      RunShowsKept(o, arrivals[..n], cleaning);
      RunUnfolds(o, Empty(), arrivals, cleaning);
      ArrivalShows(o, before, Kept(o, Empty(), arrivals[..n], cleaning), arrivals[n], cleaning);
      ArrivalCounted(o, before, arrivals[n], cleaning);
    }
  }

  /** Each feed buffer is the newest part of what the feed kept; counters and samples follow it too. */
  lemma BuffersRefineLog(o: Options, arrivals: seq<Arrival>)
    ensures var s, kept := Run(o, Empty(), arrivals, true), Kept(o, Empty(), arrivals, true);
      && (forall f :: Get(s.buffers, f, []) == Take(NewestFirst(kept, f), o.bufferSize))
      && s.received == |arrivals| == s.stored + s.deduplicated
      && s.stored == |kept| == Total(FeedKeys(), s.byFeed)
      && s.latency == TakeLast(Latencies(kept), LATENCY_SAMPLES)
  {
    RunShowsKept(o, arrivals, true);
  }

  /** Reading a feed gives the newest events it kept: as many as asked for, within 1 and the buffer size. */
  lemma EventsReadLog(o: Options, arrivals: seq<Arrival>, feed: FeedKey, limit: int)
    requires o.bufferSize > 0
    ensures var n := if limit < 1 then 1 else if limit > o.bufferSize then o.bufferSize else limit;
      GetEvents(o, Run(o, Empty(), arrivals, true), feed, limit) ==
      Take(NewestFirst(Kept(o, Empty(), arrivals, true), feed), n)
  {
    hide Run, Kept, NewestFirst, FeedKeys, Total, Latencies, Empty;
    RunShowsKept(o, arrivals, true);
    var s := Run(o, Empty(), arrivals, true);
    assert Get(s.buffers, feed, []) == Take(NewestFirst(Kept(o, Empty(), arrivals, true), feed), o.bufferSize);
  }
}
