/**
 * The server-sent event stream: the hub that registers and writes to clients
 * (apps/server/src/http/sse.ts), the snapshot it opens with (apps/server/src/events/eventStore.ts)
 * and the reducer that keeps the browser's copy (apps/web/src/App.tsx).
 */
module SseHub {
  import opened Wrappers
  import opened Numbers
  import opened EventStore
  import opened Sequences

  datatype Feed = Feed(events: seq<Event>, latest: Option<Event>)

  datatype Latency = Latency(latestMs: Option<real>, averageMs: Option<int>, samples: nat)

  datatype Snapshot = Snapshot(
    feeds: map<FeedKey, Feed>,
    received: nat,
    stored: nat,
    deduplicated: nat,
    byFeed: map<FeedKey, nat>,
    lastEventTime: Option<int>,
    latency: Latency)

  /** What goes over the wire; every kind the event list ignores is `Other`. */
  datatype Message = SnapshotMessage(snapshot: Snapshot) | EventMessage(event: Event) | Other

  const BROWSER_EVENTS: nat := 100

  function First<T>(xs: seq<T>): Option<T> {
    if xs == [] then None else Some(xs[0])
  }

  function Last<T>(xs: seq<T>): Option<T> {
    if xs == [] then None else Some(xs[|xs| - 1])
  }

  // ---- the server's snapshot ----------------------------------------------------------------

  function LatencyStats(samples: seq<real>): Latency {
    Latency(Last(samples),
            if samples == [] then None else Some(RoundToInt(Sum(samples) / |samples| as real)), |samples|)
  }

  function SnapshotOf(s: Store): Snapshot {
    Snapshot(
      map f | f in FeedKeys() :: var events := Get(s.buffers, f, []); Feed(events, First(events)),
      s.received, s.stored, s.deduplicated, s.byFeed, s.lastEventTime, LatencyStats(s.latency))
  }

  // ---- the browser's reducer ----------------------------------------------------------------

  function UpdateLatency(current: Latency, latencyMs: Option<real>): Latency {
    match latencyMs
    case None => current
    case Some(ms) =>
      var previous := match current.averageMs case Some(average) => average as real case None => ms;
      Latency(Some(ms),
              Some(RoundToInt((previous * current.samples as real + ms) / (current.samples + 1) as real)),
              current.samples + 1)
  }

  function EventsOf(v: Snapshot, feed: FeedKey): seq<Event> {
    Get(v.feeds, feed, Feed([], None)).events
  }

  predicate Shown(v: Snapshot, event: Event) {
    exists e <- EventsOf(v, event.feedKey) :: e.id == event.id
  }

  function AddEventToSnapshot(v: Snapshot, event: Event): Snapshot {
    if Shown(v, event) then v
    else
      var events := Take([event] + EventsOf(v, event.feedKey), BROWSER_EVENTS);
      v.(feeds := v.feeds[event.feedKey := Feed(events, First(events))],
         received := v.received + 1,
         stored := v.stored + 1,
         byFeed := v.byFeed[event.feedKey := Get(v.byFeed, event.feedKey, 0) + 1],
         lastEventTime := Some(event.receivedAt),
         latency := UpdateLatency(v.latency, event.latencyMs))
  }

  function Apply(v: Snapshot, m: Message): Snapshot {
    match m
    case SnapshotMessage(snapshot) => snapshot
    case EventMessage(event) => AddEventToSnapshot(v, event)
    case Other => v
  }

  /** The page after reading these messages, from whatever it showed before. */
  function ApplyAll(v: Snapshot, messages: seq<Message>): Snapshot {
    if messages == [] then v
    else Apply(ApplyAll(v, messages[..|messages| - 1]), messages[|messages| - 1])
  }

  // ---- the hub ------------------------------------------------------------------------------

  /** What has been written to each open client. */
  type Wires = map<nat, seq<Message>>

  /** Writes to every client; the ones whose reply is broken are dropped. */
  function Written(wires: Wires, m: Message, broken: set<nat>): Wires {
    map id | id in wires && id !in broken :: wires[id] + [m]
  }

  /** A new stream opens with the snapshot, then the status and other current states, then a heartbeat. */
  function Opening(snapshot: Snapshot, others: nat): seq<Message> {
    [SnapshotMessage(snapshot)] + seq(others, _ => Other)
  }

  class SseHub {
    var clients: Wires
    var nextClientId: nat
    var listening: bool

    constructor ()
      ensures clients == map[] && nextClientId == 1 && listening
    {
      clients, nextClientId, listening := map[], 1, true;
    }

    method HandleStream(store: EventStore, others: nat, broken: bool) returns (id: nat)
      modifies `clients, `nextClientId
      ensures id == old(nextClientId) && nextClientId == old(nextClientId) + 1
      ensures clients ==
              if broken then old(clients) - {id} else old(clients)[id := Opening(SnapshotOf(store.View()), others)]
    {
      hide SnapshotOf;
      id := nextClientId;
      nextClientId := nextClientId + 1;
      var wire := [SnapshotMessage(SnapshotOf(store.View()))];
      for sent := 0 to others
        invariant wire == Opening(SnapshotOf(store.View()), sent)
      {
        wire := wire + [Other];
      }
      clients := if broken then clients - {id} else clients[id := wire];
    }

    method Broadcast(m: Message, broken: set<nat>)
      modifies `clients
      ensures clients == Written(old(clients), m, broken)
    {
      var remaining := clients.Keys;
      while remaining != {}
        invariant remaining <= old(clients).Keys
        invariant clients == map id | id in old(clients) && (id in remaining || id !in broken) ::
                               if id in remaining then old(clients)[id] else old(clients)[id] + [m]
        decreases |remaining|
      {
        var id :| id in remaining;
        remaining := remaining - {id};
        clients := if id in broken then clients - {id} else clients[id := clients[id] + [m]];
      }
    }

    /** The store emitted an event it stored. */
    method OnStoreEvent(event: Event, broken: set<nat>)
      modifies `clients
      ensures clients == if listening then Written(old(clients), EventMessage(event), broken) else old(clients)
    {
      if listening {
        Broadcast(EventMessage(event), broken);
      }
    }

    method OnClientClose(id: nat)
      modifies `clients
      ensures clients == old(clients) - {id}
    {
      clients := clients - {id};
    }

    method Close()
      modifies `clients, `listening
      ensures clients == map[] && !listening
    {
      listening := false;
      clients := map[];
    }
  }
}
