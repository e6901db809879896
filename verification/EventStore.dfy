/**
 * The in-memory event store (apps/server/src/events/eventStore.ts): bounded buffers per feed, a
 * time-limited duplicate index that is cleaned lazily, counters and latency samples.
 */
module EventStore {
  import opened Wrappers

  datatype FeedKey =
    | Listings | Delistings
    | AllDerivativesTopBuy5m | AllDerivativesTopSell5m | AllSpotTopBuy5m | AllSpotTopSell5m
    | AllSpotPer | AllDerivativesPer | TopOiGainers60m | TopOiLosers60m
    | OiAlerts | PriceAlerts1 | PriceAlerts2 | PriceAlertsFeed | VolAlerts
    | FlowsAlert | CexTrack | TopFunding | EtfCrypto | Onchain24AllFlows | Onchain1AllFlows
    | RawUnclassified

  /** The source's `feedKeys`. */
  function FeedKeys(): seq<FeedKey> {
   [
    Listings, Delistings, AllDerivativesTopBuy5m, AllDerivativesTopSell5m, AllSpotTopBuy5m, AllSpotTopSell5m,
    AllSpotPer, AllDerivativesPer, TopOiGainers60m, TopOiLosers60m, OiAlerts, PriceAlerts1, PriceAlerts2,
    PriceAlertsFeed, VolAlerts, FlowsAlert, CexTrack, TopFunding, EtfCrypto, Onchain24AllFlows, Onchain1AllFlows,
    RawUnclassified]
  }

  /** `category` is the source's `chapter/category` label. */
  datatype Event = Event(id: string, feedKey: FeedKey, category: string, receivedAt: int, latencyMs: Option<real>)

  /** The configuration only admits positive sizes and times; zero is allowed here. */
  datatype Options = Options(bufferSize: nat, dedupeTtlMs: nat)

  datatype Store = Store(
    buffers: map<FeedKey, seq<Event>>,
    dedupe: map<string, int>,
    received: nat,
    stored: nat,
    deduplicated: nat,
    byFeed: map<FeedKey, nat>,
    lastEventTime: Option<int>,
    lastByCategory: map<string, int>,
    latency: seq<real>)

  function Get<K, V>(m: map<K, V>, k: K, fallback: V): V {
    if k in m then m[k] else fallback
  }

  function Take<T>(xs: seq<T>, n: nat): seq<T> {
    if |xs| <= n then xs else xs[..n]
  }

  const LATENCY_SAMPLES: nat := 100

  function Empty(): Store {
    Store(map f | f in FeedKeys() :: [], map[], 0, 0, 0, map f | f in FeedKeys() :: 0, None, map[], [])
  }

  // ---- one event ----------------------------------------------------------------------------

  /** Entries still in force at an instant. */
  function Unexpired(dedupe: map<string, int>, now: int): map<string, int> {
    map id | id in dedupe && dedupe[id] > now :: dedupe[id]
  }

  /** `cleanupDedupe`, which only bothers when the index has grown large. */
  function Cleaned(o: Options, dedupe: map<string, int>, now: int): map<string, int> {
    if |dedupe| <= o.bufferSize * 20 then dedupe else Unexpired(dedupe, now)
  }

  predicate Duplicate(dedupe: map<string, int>, id: string, now: int) {
    id in dedupe && dedupe[id] > now
  }

  function Sampled(samples: seq<real>, latencyMs: Option<real>): seq<real> {
    match latencyMs
    case None => samples
    case Some(ms) => if |samples| + 1 > LATENCY_SAMPLES then (samples + [ms])[1..] else samples + [ms]
  }

  function Push(o: Options, s: Store, event: Event, now: int): Store {
    s.(dedupe := s.dedupe[event.id := now + o.dedupeTtlMs],
       buffers := s.buffers[event.feedKey := Take([event] + Get(s.buffers, event.feedKey, []), o.bufferSize)],
       stored := s.stored + 1,
       byFeed := s.byFeed[event.feedKey := Get(s.byFeed, event.feedKey, 0) + 1],
       lastEventTime := Some(event.receivedAt),
       lastByCategory := s.lastByCategory[event.category := event.receivedAt],
       latency := Sampled(s.latency, event.latencyMs))
  }

  function Receive(o: Options, s: Store, now: int, cleaning: bool): Store {
    s.(received := s.received + 1, dedupe := if cleaning then Cleaned(o, s.dedupe, now) else s.dedupe)
  }

  /** `addEvent`; without `cleaning` it is the store that never drops an index entry. */
  function Added(o: Options, s: Store, event: Event, now: int, cleaning: bool): Store {
    var r := Receive(o, s, now, cleaning);
    if Duplicate(r.dedupe, event.id, now) then r.(deduplicated := r.deduplicated + 1) else Push(o, r, event, now)
  }

  predicate Stores(o: Options, s: Store, event: Event, now: int, cleaning: bool) {
    !Duplicate(Receive(o, s, now, cleaning).dedupe, event.id, now)
  }

  /** `getEvents` of one feed: at least one event is asked for, and no more than a buffer holds. */
  function GetEvents(o: Options, s: Store, feed: FeedKey, limit: int): seq<Event> {
    var wanted := if limit <= o.bufferSize then limit else o.bufferSize;
    Take(Get(s.buffers, feed, []), if wanted >= 1 then wanted else 1)
  }

  /** An event handed to the store, and what the clock then reads. */
  datatype Arrival = Arrival(event: Event, at: int)

  /** `addEvents`, one arrival after the other. */
  function Run(o: Options, start: Store, arrivals: seq<Arrival>, cleaning: bool): Store {
    if arrivals == [] then start
    else
      var last := arrivals[|arrivals| - 1];
      Added(o, Run(o, start, arrivals[..|arrivals| - 1], cleaning), last.event, last.at, cleaning)
  }

  /** The arrivals that `addEvents` reports as stored. */
  function Kept(o: Options, start: Store, arrivals: seq<Arrival>, cleaning: bool): seq<Arrival> {
    if arrivals == [] then []
    else
      var last := arrivals[|arrivals| - 1];
      var earlier := arrivals[..|arrivals| - 1];
      Kept(o, start, earlier, cleaning) +
      if Stores(o, Run(o, start, earlier, cleaning), last.event, last.at, cleaning) then [last] else []
  }

  // ---- the class ----------------------------------------------------------------------------

  class EventStore {
    const options: Options
    var buffers: map<FeedKey, seq<Event>>
    var dedupe: map<string, int>
    var received: nat
    var stored: nat
    var deduplicated: nat
    var byFeed: map<FeedKey, nat>
    var lastEventTime: Option<int>
    var lastByCategory: map<string, int>
    var latency: seq<real>

    function View(): Store
      reads this
    {
      Store(buffers, dedupe, received, stored, deduplicated, byFeed, lastEventTime, lastByCategory, latency)
    }

    constructor (options: Options)
      ensures View() == Empty()
      ensures this.options == options
    {
      this.options := options;
      received, stored, deduplicated := 0, 0, 0;
      buffers := Empty().buffers;
      byFeed := Empty().byFeed;
      dedupe, lastByCategory, latency, lastEventTime := map[], map[], [], None;
    }

    method CleanupDedupe(now: int)
      modifies `dedupe
      ensures dedupe == Cleaned(options, old(dedupe), now)
    {
      if |dedupe| <= options.bufferSize * 20 {
        return;
      }
      var remaining := dedupe.Keys;
      while remaining != {}
        invariant remaining <= old(dedupe).Keys
        invariant dedupe == map id | id in old(dedupe) && (id in remaining || old(dedupe)[id] > now) :: old(dedupe)[id]
        decreases |remaining|
      {
        var id :| id in remaining;
        remaining := remaining - {id};
        if dedupe[id] <= now {
          dedupe := dedupe - {id};
        }
      }
    }

    method AddLatency(latencyMs: Option<real>)
      modifies `latency
      ensures latency == Sampled(old(latency), latencyMs)
    {
      if latencyMs.Some? {
        latency := latency + [latencyMs.value];
        if |latency| > LATENCY_SAMPLES {
          latency := latency[1..];
        }
      }
    }

    method PushBuffer(event: Event)
      modifies `buffers
      ensures buffers ==
              old(buffers)[event.feedKey := Take([event] + Get(old(buffers), event.feedKey, []), options.bufferSize)]
    {
      var buffer := [event] + Get(buffers, event.feedKey, []);
      if |buffer| > options.bufferSize {
        buffer := buffer[..options.bufferSize];
      }
      buffers := buffers[event.feedKey := buffer];
    }

    method CountEvent(event: Event)
      modifies `stored, `byFeed
      ensures stored == old(stored) + 1
      ensures byFeed == old(byFeed)[event.feedKey := Get(old(byFeed), event.feedKey, 0) + 1]
    {
      stored := stored + 1;
      byFeed := byFeed[event.feedKey := Get(byFeed, event.feedKey, 0) + 1];
    }

    /** The storing half of `addEvent`. */
    method StoreEvent(event: Event, now: int)
      modifies `dedupe, `buffers, `stored, `byFeed, `lastEventTime, `lastByCategory, `latency
      ensures View() == Push(options, old(View()), event, now)
    {
      hide Sampled, Take, Get;
      dedupe := dedupe[event.id := now + options.dedupeTtlMs];
      PushBuffer(event);
      CountEvent(event);
      lastEventTime := Some(event.receivedAt);
      lastByCategory := lastByCategory[event.category := event.receivedAt];
      AddLatency(event.latencyMs);
    }

    method AddEvent(event: Event, now: int) returns (ok: bool)
      modifies this
      ensures View() == Added(options, old(View()), event, now, true)
      ensures ok == Stores(options, old(View()), event, now, true)
    {
      hide Cleaned, Push;
      received := received + 1;
      CleanupDedupe(now);
      if event.id in dedupe && dedupe[event.id] > now {
        deduplicated := deduplicated + 1;
        return false;
      }
      StoreEvent(event, now);
      return true;
    }

    method AddEvents(arrivals: seq<Arrival>) returns (kept: seq<Arrival>)
      modifies this
      ensures View() == Run(options, old(View()), arrivals, true)
      ensures kept == Kept(options, old(View()), arrivals, true)
    {
      hide Added, Stores, Empty;
      kept := [];
      for i := 0 to |arrivals|
        invariant View() == Run(options, old(View()), arrivals[..i], true)
        invariant kept == Kept(options, old(View()), arrivals[..i], true)
      {
        assert arrivals[..i + 1][..i] == arrivals[..i];
        var ok := AddEvent(arrivals[i].event, arrivals[i].at);
        if ok {
          kept := kept + [arrivals[i]];
        }
      }
      assert arrivals[..|arrivals|] == arrivals;
    }
  }
}
