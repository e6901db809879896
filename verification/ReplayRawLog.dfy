/**
 * Seeding an empty store from the raw log: apps/server/src/events/replayRawLog.ts. The log is read
 * backwards in one pass; normalising a line is taken as given.
 */
module ReplayRawLog {
  import opened EventStore

  /** A non-empty line of the log: one that does not parse, or a record with the events it normalises to. */
  datatype Line = Unreadable | Record(events: seq<Event>)

  const ONE_HOUR_MS: int := 3_600_000

  /** `selected` with its insertion order, and the time of the first event met for each feed. */
  datatype Scan = Scan(order: seq<FeedKey>, selected: map<FeedKey, seq<Event>>, newest: map<FeedKey, int>)

  const NOTHING: Scan := Scan([], map[], map[])

  /** Feeds the replay may fill: routed ones that hold nothing yet. */
  predicate Replayable(store: Store, feed: FeedKey) {
    feed != RawUnclassified && Get(store.buffers, feed, []) == []
  }

  function Pick(store: Store, s: Scan, e: Event): Scan {
    if !Replayable(store, e.feedKey) then s
    else if e.feedKey !in s.newest then
      Scan(s.order + [e.feedKey], s.selected[e.feedKey := [e]], s.newest[e.feedKey := e.receivedAt])
    else if e.receivedAt >= s.newest[e.feedKey] - ONE_HOUR_MS then
      s.(selected := s.selected[e.feedKey := Get(s.selected, e.feedKey, []) + [e]])
    else s
  }

  function PickAll(store: Store, s: Scan, events: seq<Event>): Scan {
    if events == [] then s else Pick(store, PickAll(store, s, events[..|events| - 1]), events[|events| - 1])
  }

  function EventsIn(line: Line): seq<Event> {
    if line.Record? then line.events else []
  }

  /** The events in the order the scan meets them: last line first, each line forwards. */
  function Met(log: seq<Line>): seq<Event> {
    if log == [] then [] else EventsIn(log[|log| - 1]) + Met(log[..|log| - 1])
  }

  function Flat(order: seq<FeedKey>, selected: map<FeedKey, seq<Event>>): seq<Event> {
    if order == [] then [] else Flat(order[..|order| - 1], selected) + Get(selected, order[|order| - 1], [])
  }

  /** Puts an event behind those that are not later. */
  function InsertByTime(events: seq<Event>, e: Event): seq<Event> {
    if events == [] || events[|events| - 1].receivedAt <= e.receivedAt then events + [e]
    else InsertByTime(events[..|events| - 1], e) + [events[|events| - 1]]
  }

  /** The stable sort by time received. */
  function SortByTime(events: seq<Event>): seq<Event> {
    if events == [] then [] else InsertByTime(SortByTime(events[..|events| - 1]), events[|events| - 1])
  }

  /** What the replay hands to the store. */
  function Replay(store: Store, log: seq<Line>): seq<Event> {
    var s := PickAll(store, NOTHING, Met(log));
    SortByTime(Flat(s.order, s.selected))
  }

  /** The same, with what the clock reads as each event is added. */
  function Arrivals(events: seq<Event>, clock: nat -> int): seq<Arrival> {
    seq(|events|, i requires 0 <= i < |events| => Arrival(events[i], clock(i)))
  }

  function SkippedLines(log: seq<Line>): nat {
    if log == [] then 0 else SkippedLines(log[..|log| - 1]) + if log[|log| - 1].Unreadable? then 1 else 0
  }

  lemma {:induction false} PickAllConcat(store: Store, s: Scan, a: seq<Event>, b: seq<Event>)
    ensures PickAll(store, s, a + b) == PickAll(store, PickAll(store, s, a), b)
  {
    if b == [] {
      assert a + b == a;
    } else {
      PickAllConcat(store, s, a, b[..|b| - 1]);
      assert (a + b)[..|a + b| - 1] == a + b[..|b| - 1];
    }
  }

  lemma MetMore(store: Store, s: Scan, log: seq<Line>, index: nat)
    requires index < |log|
    ensures PickAll(store, s, Met(log[..index + 1])) ==
            PickAll(store, PickAll(store, s, EventsIn(log[index])), Met(log[..index]))
    ensures log[index].Unreadable? ==> PickAll(store, s, EventsIn(log[index])) == s
  {
    hide Pick;
    assert log[..index + 1][..index] == log[..index];
    PickAllConcat(store, s, EventsIn(log[index]), Met(log[..index]));
  }

  lemma NothingMet(store: Store, s: Scan, log: seq<Line>)
    ensures PickAll(store, s, Met(log[..0])) == s
  {
  }

  method ReplayLatestRawEventsFromLog(log: seq<Line>, store: EventStore, clock: nat -> int)
    returns (replayed: nat, scanned: nat, skipped: nat)
    modifies store
    ensures var arrivals := Arrivals(Replay(old(store.View()), log), clock);
      store.View() == Run(store.options, old(store.View()), arrivals, true)
      && replayed == |Kept(store.options, old(store.View()), arrivals, true)|
    ensures scanned == |log| && skipped == SkippedLines(log)
  {
    hide Pick, PickAll, Run, Kept, SortByTime, Flat, Arrivals;
    scanned, skipped := 0, 0;
    ghost var view := store.View();
    var scan := NOTHING;
    var index := |log|;
    assert log[..index] == log;
    while index > 0
      invariant 0 <= index <= |log| && scanned == |log| - index
      invariant skipped + SkippedLines(log[..index]) == SkippedLines(log)
      invariant PickAll(view, scan, Met(log[..index])) == PickAll(view, NOTHING, Met(log))
      invariant store.View() == view
    {
      index := index - 1;
      scanned := scanned + 1;
      var line := log[index];
      assert log[..index + 1][..index] == log[..index];
      MetMore(view, scan, log, index);
      if line.Unreadable? {
        skipped := skipped + 1;
      } else {
        scan := ScanRecord(store, scan, line.events);
      }
    }
    NothingMet(view, scan, log);
    var events := SortByTime(Flat(scan.order, scan.selected));
    var kept := store.AddEvents(Arrivals(events, clock));
    replayed := |kept|;
  }

  /** The inner loop over one record's events. */
  method ScanRecord(store: EventStore, before: Scan, events: seq<Event>) returns (scan: Scan)
    ensures scan == PickAll(store.View(), before, events)
  {
    scan := before;
    for i := 0 to |events|
      invariant scan == PickAll(store.View(), before, events[..i])
    {
      var event := events[i];
      assert events[..i + 1][..i] == events[..i];
      if event.feedKey == RawUnclassified || Get(store.buffers, event.feedKey, []) != [] {
        continue;
      }
      if event.feedKey !in scan.newest {
        scan := Scan(scan.order + [event.feedKey], scan.selected[event.feedKey := [event]],
                     scan.newest[event.feedKey := event.receivedAt]);
      } else if event.receivedAt >= scan.newest[event.feedKey] - ONE_HOUR_MS {
        scan := scan.(selected := scan.selected[event.feedKey := Get(scan.selected, event.feedKey, []) + [event]]);
      }
    }
    assert events[..|events|] == events;
  }
}
