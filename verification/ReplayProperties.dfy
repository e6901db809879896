/** The backward scan against its two-pass specification, and the buffers it leaves. */
module ReplayProperties {
  import opened Wrappers
  import opened EventStore
  import opened EventLog
  import opened ReplayRawLog

  /** The time of the first event of a feed that the scan meets. */
  function FirstTime(met: seq<Event>, feed: FeedKey): Option<int> {
    if met == [] then None
    else
      var earlier, last := FirstTime(met[..|met| - 1], feed), met[|met| - 1];
      if earlier.None? && last.feedKey == feed then Some(last.receivedAt) else earlier
  }

  /** The newest time of a feed, whatever the order. */
  function NewestTime(met: seq<Event>, feed: FeedKey): Option<int> {
    if met == [] then None
    else
      var earlier, last := NewestTime(met[..|met| - 1], feed), met[|met| - 1];
      if last.feedKey != feed then earlier
      else if earlier.Some? && earlier.value >= last.receivedAt then earlier
      else Some(last.receivedAt)
  }

  /** The events of a feed from an instant on. */
  function Since(met: seq<Event>, feed: FeedKey, from: int): seq<Event> {
    if met == [] then []
    else
      var last := met[|met| - 1];
      Since(met[..|met| - 1], feed, from) + if last.feedKey == feed && last.receivedAt >= from then [last] else []
  }

  /** What the scan has picked for a feed. */
  ghost predicate Picked(store: Store, met: seq<Event>, s: Scan, feed: FeedKey) {
    var first := FirstTime(met, feed);
    if !Replayable(store, feed) || first.None? then feed !in s.newest && feed !in s.selected && feed !in s.order
    else
      && feed in s.newest && s.newest[feed] == first.value
      && feed in s.selected && s.selected[feed] == Since(met, feed, first.value - ONE_HOUR_MS)
      && feed in s.order
  }

  lemma FirstTimePush(met: seq<Event>, e: Event, feed: FeedKey)
    ensures FirstTime(met + [e], feed) ==
            if FirstTime(met, feed).None? && e.feedKey == feed then Some(e.receivedAt) else FirstTime(met, feed)
  {
    assert (met + [e])[..|met|] == met;
  }

  lemma SincePush(met: seq<Event>, e: Event, feed: FeedKey, from: int)
    ensures Since(met + [e], feed, from) ==
            if e.feedKey == feed && e.receivedAt >= from then Since(met, feed, from) + [e] else Since(met, feed, from)
  {
    assert (met + [e])[..|met|] == met;
  }

  lemma PickStep(store: Store, met: seq<Event>, s: Scan, e: Event, feed: FeedKey)
    requires Picked(store, met, s, feed)
    ensures Picked(store, met + [e], Pick(store, s, e), feed)
  {
    hide FirstTime, Since, Replayable;
    FirstTimePush(met, e, feed);
    var first := FirstTime(met, feed);
    if first.Some? {
      SincePush(met, e, feed, first.value - ONE_HOUR_MS);
    } else if e.feedKey == feed {
      NothingSince(met, feed, e.receivedAt - ONE_HOUR_MS);
      SincePush(met, e, feed, e.receivedAt - ONE_HOUR_MS);
    }
  }

  lemma {:induction false} NothingSince(met: seq<Event>, feed: FeedKey, from: int)
    requires FirstTime(met, feed).None?
    ensures Since(met, feed, from) == []
  {
    if met != [] {
      NothingSince(met[..|met| - 1], feed, from);
    }
  }

  lemma {:induction false} PickAllPicks(store: Store, met: seq<Event>, feed: FeedKey)
    ensures Picked(store, met, PickAll(store, NOTHING, met), feed)
  {
    if met != [] {
      hide Picked, Pick;
      PickAllPicks(store, met[..|met| - 1], feed);
      PickStep(store, met[..|met| - 1], PickAll(store, NOTHING, met[..|met| - 1]), met[|met| - 1], feed);
      assert met == met[..|met| - 1] + [met[|met| - 1]];
    } else {
      assert Picked(store, [], NOTHING, feed);
    }
  }

  // ---- one pass against two -----------------------------------------------------------------

  lemma {:induction false} FirstAtMostNewest(met: seq<Event>, feed: FeedKey)
    ensures FirstTime(met, feed).Some? <==> NewestTime(met, feed).Some?
    ensures FirstTime(met, feed).Some? ==> FirstTime(met, feed).value <= NewestTime(met, feed).value
  {
    if met != [] {
      FirstAtMostNewest(met[..|met| - 1], feed);
    }
  }

  lemma {:induction false} SinceLater(met: seq<Event>, feed: FeedKey, from: int, later: int)
    requires from <= later
    ensures |Since(met, feed, later)| <= |Since(met, feed, from)|
    ensures |Since(met, feed, later)| == |Since(met, feed, from)| <==>
            forall e <- met | e.feedKey == feed :: !(from <= e.receivedAt < later)
    ensures |Since(met, feed, later)| == |Since(met, feed, from)| ==> Since(met, feed, later) == Since(met, feed, from)
  {
    if met != [] {
      SinceLater(met[..|met| - 1], feed, from, later);
      assert met == met[..|met| - 1] + [met[|met| - 1]];
    }
  }

  /** What the two-pass reading of the rule selects: everything within an hour of the feed's newest event. */
  function WithinHourOfNewest(met: seq<Event>, feed: FeedKey): seq<Event> {
    match NewestTime(met, feed)
    case Some(newest) => Since(met, feed, newest - ONE_HOUR_MS)
    case None => []
  }

  function Selected(store: Store, log: seq<Line>, feed: FeedKey): seq<Event> {
    Get(PickAll(store, NOTHING, Met(log)).selected, feed, [])
  }

  /**
   * For a feed the replay may fill, the one backward pass selects what two passes would exactly when
   * no event of the feed is within an hour of the first one met but not of the newest.
   */
  lemma OnePassIsTwoPasses(store: Store, log: seq<Line>, feed: FeedKey)
    requires Replayable(store, feed)
    ensures Selected(store, log, feed) == WithinHourOfNewest(Met(log), feed) <==>
            forall e <- Met(log) | e.feedKey == feed ::
              !(FirstTime(Met(log), feed).GetOr(0) - ONE_HOUR_MS <= e.receivedAt <
                NewestTime(Met(log), feed).GetOr(0) - ONE_HOUR_MS)
  {
    hide FirstTime, NewestTime, Since, Met, PickAll;
    var met := Met(log);
    PickAllPicks(store, met, feed);
    FirstAtMostNewest(met, feed);
    if FirstTime(met, feed).Some? {
      SinceLater(met, feed, FirstTime(met, feed).value - ONE_HOUR_MS, NewestTime(met, feed).value - ONE_HOUR_MS);
    }
  }

  /**
   * In a log of two lines whose earlier one carries the later time, the pass keeps both events though
   * the one it met first is more than an hour older than the newest.
   */
  lemma LaterTimeFirst(store: Store, earlier: Event, later: Event)
    requires earlier.feedKey == later.feedKey && Replayable(store, earlier.feedKey)
    requires earlier.receivedAt + ONE_HOUR_MS < later.receivedAt
    ensures var log := [Record([later]), Record([earlier])];
      && Selected(store, log, earlier.feedKey) == [earlier, later]
      && WithinHourOfNewest(Met(log), earlier.feedKey) == [later]
  {
    hide Replayable, PickAll;
    var log, feed := [Record([later]), Record([earlier])], earlier.feedKey;
    assert log[..1][..0] == [] && log[..1][0] == log[0];
    assert Met(log[..1]) == [later] + Met(log[..1][..0]);
    assert Met(log) == [earlier] + [later];
    assert [] + [earlier] == [earlier];
    FirstTimePush([], earlier, feed);
    FirstTimePush([earlier], later, feed);
    forall from
      ensures Since([earlier] + [later], feed, from) ==
              if earlier.receivedAt >= from then [earlier] + [later]
              else if later.receivedAt >= from then [later] else []
    {
      SincePush([], earlier, feed, from);
      SincePush([earlier], later, feed, from);
    }
    PickAllPicks(store, [earlier] + [later], feed);
    NewestOfTwo(earlier, later);
  }

  lemma NewestOfTwo(earlier: Event, later: Event)
    requires earlier.feedKey == later.feedKey && earlier.receivedAt < later.receivedAt
    ensures NewestTime([earlier] + [later], earlier.feedKey) == Some(later.receivedAt)
  {
    var met := [earlier] + [later];
    assert met[..1] == [earlier] && [earlier][..0] == [];
    assert NewestTime([earlier], earlier.feedKey) == Some(earlier.receivedAt);
  }

  /** Lines are in order of time, the events of one line sharing theirs. */
  ghost predicate InOrder(log: seq<Line>) {
    forall i, j, d, e | 0 <= i <= j < |log| && d in EventsIn(log[i]) && e in EventsIn(log[j]) ::
      d.receivedAt <= e.receivedAt
  }

  lemma {:induction false} MetMember(log: seq<Line>, e: Event)
    ensures e in Met(log) <==> exists i | 0 <= i < |log| :: e in EventsIn(log[i])
  {
    hide EventsIn;
    if log != [] {
      var n := |log| - 1;
      MetMember(log[..n], e);
      if i :| 0 <= i < |log| && e in EventsIn(log[i]) {
        assert i < n ==> log[..n][i] == log[i];
      }
      if i :| 0 <= i < n && e in EventsIn(log[..n][i]) {
        assert log[i] == log[..n][i];
      }
    }
  }

  ghost predicate Descending(met: seq<Event>) {
    forall i, j | 0 <= i < j < |met| :: met[i].receivedAt >= met[j].receivedAt
  }

  lemma {:induction false} MetDescends(log: seq<Line>)
    requires InOrder(log)
    ensures Descending(Met(log))
  {
    if log != [] {
      var n := |log| - 1;
      assert InOrder(log[..n]) by {
        assert forall i | 0 <= i < n :: log[..n][i] == log[i];
      }
      MetDescends(log[..n]);
      var head, tail := EventsIn(log[n]), Met(log[..n]);
      forall d, e | d in head && e in tail
        ensures d.receivedAt >= e.receivedAt
      {
        MetMember(log[..n], e);
        var i :| 0 <= i < n && e in EventsIn(log[..n][i]);
        assert log[i] == log[..n][i];
      }
      forall d, e | d in head && e in head
        ensures d.receivedAt >= e.receivedAt
      {
        assert d in EventsIn(log[n]) && e in EventsIn(log[n]);
      }
      Joined(head, tail);
    }
  }

  lemma Joined(head: seq<Event>, tail: seq<Event>)
    requires Descending(tail)
    requires forall d, e | d in head && (e in tail || e in head) :: d.receivedAt >= e.receivedAt
    ensures Descending(head + tail)
  {
    var all := head + tail;
    forall i, j | 0 <= i < j < |all|
      ensures all[i].receivedAt >= all[j].receivedAt
    {
      assert i < |head| ==> all[i] in head;
      assert j < |head| ==> all[j] in head;
      assert j >= |head| ==> all[j] == tail[j - |head|] && all[j] in tail;
      assert i >= |head| ==> all[i] == tail[i - |head|];
    }
  }

  lemma {:induction false} DescendingFirstIsNewest(met: seq<Event>, feed: FeedKey)
    requires Descending(met)
    ensures FirstTime(met, feed) == NewestTime(met, feed)
    ensures NewestTime(met, feed).Some? && met != [] ==> NewestTime(met, feed).value >= met[|met| - 1].receivedAt
  {
    if met != [] {
      DescendingFirstIsNewest(met[..|met| - 1], feed);
    }
  }

  /** In a log whose times do not decrease, each fillable feed gets exactly its events within an hour of its newest. */
  lemma OrderedLogSelection(store: Store, log: seq<Line>, feed: FeedKey)
    requires InOrder(log) && Replayable(store, feed)
    ensures Selected(store, log, feed) == WithinHourOfNewest(Met(log), feed)
  {
    hide Replayable;
    MetDescends(log);
    DescendingFirstIsNewest(Met(log), feed);
    OnePassIsTwoPasses(store, log, feed);
  }

  // ---- what reaches the store ---------------------------------------------------------------

  function OfFeed(events: seq<Event>, feed: FeedKey): seq<Event> {
    if events == [] then []
    else
      OfFeed(events[..|events| - 1], feed) +
      if events[|events| - 1].feedKey == feed then [events[|events| - 1]] else []
  }

  ghost predicate Ascending(events: seq<Event>) {
    forall i, j | 0 <= i < j < |events| :: events[i].receivedAt <= events[j].receivedAt
  }

  lemma OfFeedPush(events: seq<Event>, e: Event, feed: FeedKey)
    ensures OfFeed(events + [e], feed) == if e.feedKey == feed then OfFeed(events, feed) + [e] else OfFeed(events, feed)
  {
    assert (events + [e])[..|events|] == events;
  }

  lemma {:induction false} OfFeedConcat(a: seq<Event>, b: seq<Event>, feed: FeedKey)
    ensures OfFeed(a + b, feed) == OfFeed(a, feed) + OfFeed(b, feed)
  {
    if b == [] {
      assert a + b == a;
    } else {
      OfFeedConcat(a, b[..|b| - 1], feed);
      assert (a + b)[..|a + b| - 1] == a + b[..|b| - 1];
    }
  }

  lemma {:induction false} OfFeedMembers(events: seq<Event>, feed: FeedKey)
    ensures forall e <- OfFeed(events, feed) :: e in events && e.feedKey == feed
    ensures (forall e <- events :: e.feedKey == feed) ==> OfFeed(events, feed) == events
    ensures (forall e <- events :: e.feedKey != feed) ==> OfFeed(events, feed) == []
  {
    if events != [] {
      var front := events[..|events| - 1];
      OfFeedMembers(front, feed);
      assert events == front + [events[|events| - 1]];
    }
  }

  lemma {:induction false} InsertKeepsOrder(events: seq<Event>, e: Event)
    requires Ascending(events)
    ensures Ascending(InsertByTime(events, e))
    ensures forall d <- InsertByTime(events, e) :: d == e || d in events
  {
    if events != [] && events[|events| - 1].receivedAt > e.receivedAt {
      var front, last := events[..|events| - 1], events[|events| - 1];
      InsertKeepsOrder(front, e);
      var inserted := InsertByTime(front, e);
      forall i | 0 <= i < |inserted|
        ensures inserted[i].receivedAt <= last.receivedAt
      {
        assert inserted[i] in inserted;
        if inserted[i] in front {
          var k :| 0 <= k < |front| && front[k] == inserted[i];
          assert events[k] == front[k];
        }
      }
    }
  }

  lemma {:induction false} SortAscends(events: seq<Event>)
    ensures Ascending(SortByTime(events))
  {
    if events != [] {
      SortAscends(events[..|events| - 1]);
      InsertKeepsOrder(SortByTime(events[..|events| - 1]), events[|events| - 1]);
    }
  }

  lemma InsertAtEnd(events: seq<Event>, e: Event)
    requires forall d <- events :: d.receivedAt <= e.receivedAt
    ensures InsertByTime(events, e) == events + [e]
  {
  }

  lemma InsertBeforeLast(front: seq<Event>, last: Event, e: Event)
    requires last.receivedAt > e.receivedAt
    ensures InsertByTime(front + [last], e) == InsertByTime(front, e) + [last]
  {
    assert (front + [last])[..|front|] == front;
  }

  /** Stable sorting of one feed is unaffected by the events of the others. */
  lemma {:induction false} InsertOfFeed(events: seq<Event>, e: Event, feed: FeedKey)
    requires Ascending(events)
    ensures OfFeed(InsertByTime(events, e), feed) ==
            if e.feedKey == feed then InsertByTime(OfFeed(events, feed), e) else OfFeed(events, feed)
  {
    hide OfFeed, InsertByTime;
    if events == [] || events[|events| - 1].receivedAt <= e.receivedAt {
      OfFeedMembers(events, feed);
      InsertAtEnd(events, e);
      InsertAtEnd(OfFeed(events, feed), e);
      OfFeedPush(events, e, feed);
    } else {
      var front, last := events[..|events| - 1], events[|events| - 1];
      assert events == front + [last];
      InsertOfFeed(front, e, feed);
      InsertBeforeLast(front, last, e);
      InsertBeforeLast(OfFeed(front, feed), last, e);
      OfFeedPush(front, last, feed);
      OfFeedPush(InsertByTime(front, e), last, feed);
    }
  }

  lemma SortPush(events: seq<Event>, e: Event)
    ensures SortByTime(events + [e]) == InsertByTime(SortByTime(events), e)
  {
    assert (events + [e])[..|events|] == events;
  }

  lemma {:induction false} SortOfFeed(events: seq<Event>, feed: FeedKey)
    ensures OfFeed(SortByTime(events), feed) == SortByTime(OfFeed(events, feed))
  {
    if events != [] {
      hide OfFeed, SortByTime, InsertByTime;
      var front, last := events[..|events| - 1], events[|events| - 1];
      assert events == front + [last];
      SortOfFeed(front, feed);
      SortAscends(front);
      SortPush(front, last);
      InsertOfFeed(SortByTime(front), last, feed);
      OfFeedPush(front, last, feed);
      SortPush(OfFeed(front, feed), last);
    }
  }

  /** Each feed is listed once, with only its own events. */
  ghost predicate Tidy(s: Scan) {
    && ListedOnce(s.order)
    && (forall f :: f in s.order <==> f in s.newest)
    && (forall f :: OwnEvents(s, f))
  }

  ghost predicate OwnEvents(s: Scan, feed: FeedKey) {
    (forall e <- Get(s.selected, feed, []) :: e.feedKey == feed) && (feed in s.selected ==> feed in s.newest)
  }

  lemma {:induction false} PickAllTidy(store: Store, met: seq<Event>)
    ensures Tidy(PickAll(store, NOTHING, met))
  {
    if met != [] {
      PickAllTidy(store, met[..|met| - 1]);
      PickTidy(store, PickAll(store, NOTHING, met[..|met| - 1]), met[|met| - 1]);
    }
  }

  lemma PickTidy(store: Store, s: Scan, e: Event)
    requires Tidy(s)
    ensures Tidy(Pick(store, s, e))
  {
    forall f
      ensures OwnEvents(Pick(store, s, e), f)
    {
      assert OwnEvents(s, f);
    }
  }

  lemma OwnOnly(s: Scan, f: FeedKey, feed: FeedKey)
    requires OwnEvents(s, f)
    ensures OfFeed(Get(s.selected, f, []), feed) == if f == feed then Get(s.selected, f, []) else []
  {
    OfFeedMembers(Get(s.selected, f, []), feed);
  }

  ghost predicate ListedOnce(order: seq<FeedKey>) {
    forall i, j | 0 <= i < j < |order| :: order[i] != order[j]
  }

  lemma ListedOnceFront(order: seq<FeedKey>)
    requires ListedOnce(order) && order != []
    ensures ListedOnce(order[..|order| - 1]) && order[|order| - 1] !in order[..|order| - 1]
    ensures forall f :: f in order <==> f in order[..|order| - 1] || f == order[|order| - 1]
  {
    assert order == order[..|order| - 1] + [order[|order| - 1]];
  }

  lemma FlatUnfolds(order: seq<FeedKey>, selected: map<FeedKey, seq<Event>>)
    requires order != []
    ensures Flat(order, selected) == Flat(order[..|order| - 1], selected) + Get(selected, order[|order| - 1], [])
  {
  }

  lemma Beside<T>(head: seq<T>, tail: seq<T>)
    ensures head == [] ==> head + tail == tail
    ensures tail == [] ==> head + tail == head
  {
  }

  lemma {:induction false} FlatOfFeed(s: Scan, order: seq<FeedKey>, feed: FeedKey)
    requires ListedOnce(order) && forall f :: OwnEvents(s, f)
    ensures OfFeed(Flat(order, s.selected), feed) == if feed in order then Get(s.selected, feed, []) else []
  {
    if order != [] {
      hide OfFeed, OwnEvents, ListedOnce, Get, Flat;
      var front, last := order[..|order| - 1], order[|order| - 1];
      ListedOnceFront(order);
      FlatOfFeed(s, front, feed);
      FlatUnfolds(order, s.selected);
      OfFeedConcat(Flat(front, s.selected), Get(s.selected, last, []), feed);
      OwnOnly(s, last, feed);
      Beside(OfFeed(Flat(front, s.selected), feed), OfFeed(Get(s.selected, last, []), feed));
    }
  }

  /**
   * The replay hands the store, for each feed, that feed's selection in order of time (nothing at all
   * for feeds that already hold events), and everything it hands over is in order of time.
   */
  lemma ReplayOrdersSelection(store: Store, log: seq<Line>, feed: FeedKey)
    ensures OfFeed(Replay(store, log), feed) == SortByTime(Selected(store, log, feed))
    ensures !Replayable(store, feed) ==> OfFeed(Replay(store, log), feed) == []
    ensures Ascending(Replay(store, log))
  {
    hide SortByTime, PickAll, Met, Flat, Replayable;
    var s := PickAll(store, NOTHING, Met(log));
    PickAllTidy(store, Met(log));
    PickAllPicks(store, Met(log), feed);
    FlatOfFeed(s, s.order, feed);
    SortOfFeed(Flat(s.order, s.selected), feed);
    SortAscends(Flat(s.order, s.selected));
    SortNothing();
    assert OwnEvents(s, feed);
  }

  lemma SortNothing()
    ensures SortByTime([]) == []
  {
  }

  // ---- the buffers it leaves ----------------------------------------------------------------

  /** A run pushes what it keeps in front of what a feed already held. */
  lemma {:induction false} BufferAfterRun(o: Options, start: Store, arrivals: seq<Arrival>, feed: FeedKey)
    requires |Get(start.buffers, feed, [])| <= o.bufferSize
    ensures Get(Run(o, start, arrivals, true).buffers, feed, []) ==
            Take(NewestFirst(Kept(o, start, arrivals, true), feed) + Get(start.buffers, feed, []), o.bufferSize)
  {
    var held := Get(start.buffers, feed, []);
    if arrivals == [] {
      assert [] + held == held;
    } else {
      hide Run, Added, Stores, Take, NewestFirst, Kept, Get;
      var front, last := arrivals[..|arrivals| - 1], arrivals[|arrivals| - 1];
      BufferAfterRun(o, start, front, feed);
      RunUnfolds(o, start, arrivals, true);
      BufferAfterAdd(o, Run(o, start, front, true), last, feed);
      PushedInFront(o, Kept(o, start, front, true), held, last, feed);
    }
  }

  lemma PushedInFront(o: Options, kept: seq<Arrival>, held: seq<Event>, a: Arrival, feed: FeedKey)
    ensures Take(NewestFirst(kept + [a], feed) + held, o.bufferSize) ==
            if a.event.feedKey == feed
            then Take([a.event] + Take(NewestFirst(kept, feed) + held, o.bufferSize), o.bufferSize)
            else Take(NewestFirst(kept, feed) + held, o.bufferSize)
  {
    hide Take, NewestFirst;
    NewestFirstPush(kept, a, feed);
    TakePush(a.event, NewestFirst(kept, feed) + held, o.bufferSize);
    assert [a.event] + (NewestFirst(kept, feed) + held) == [a.event] + NewestFirst(kept, feed) + held;
  }

  lemma NewestFirstPush(log: seq<Arrival>, a: Arrival, feed: FeedKey)
    ensures NewestFirst(log + [a], feed) ==
            if a.event.feedKey == feed then [a.event] + NewestFirst(log, feed) else NewestFirst(log, feed)
  {
    assert (log + [a])[..|log|] == log;
  }

  lemma BufferAfterAdd(o: Options, s: Store, a: Arrival, feed: FeedKey)
    ensures Get(Added(o, s, a.event, a.at, true).buffers, feed, []) ==
            if Stores(o, s, a.event, a.at, true) && a.event.feedKey == feed
            then Take([a.event] + Get(s.buffers, feed, []), o.bufferSize) else Get(s.buffers, feed, [])
  {
    hide Cleaned, Duplicate, Sampled;
  }

  ghost predicate InTime(arrivals: seq<Arrival>) {
    forall i, j | 0 <= i < j < |arrivals| :: arrivals[i].event.receivedAt <= arrivals[j].event.receivedAt
  }

  /** What the store keeps of arrivals in order of time is in order of time. */
  lemma {:induction false} KeptInOrder(o: Options, start: Store, arrivals: seq<Arrival>)
    requires InTime(arrivals)
    ensures InTime(Kept(o, start, arrivals, true))
    ensures forall a <- Kept(o, start, arrivals, true) :: a in arrivals
  {
    if arrivals != [] {
      hide Stores, Run;
      KeptInOrder(o, start, arrivals[..|arrivals| - 1]);
      var kept := Kept(o, start, arrivals[..|arrivals| - 1], true);
      assert forall i | 0 <= i < |kept| :: kept[i] in arrivals[..|arrivals| - 1];
    }
  }

  lemma {:induction false} NewestFirstBounded(log: seq<Arrival>, feed: FeedKey, at: int)
    requires forall a <- log :: a.event.receivedAt <= at
    ensures forall e <- NewestFirst(log, feed) :: e.receivedAt <= at
  {
    if log != [] {
      NewestFirstBounded(log[..|log| - 1], feed, at);
    }
  }

  lemma {:induction false} NewestFirstDescends(log: seq<Arrival>, feed: FeedKey)
    requires InTime(log)
    ensures Descending(NewestFirst(log, feed))
  {
    if log != [] {
      var front, last := log[..|log| - 1], log[|log| - 1];
      NewestFirstDescends(front, feed);
      assert forall i | 0 <= i < |front| :: log[i].event.receivedAt <= last.event.receivedAt;
      NewestFirstBounded(front, feed, last.event.receivedAt);
      if last.event.feedKey == feed {
        Joined([last.event], NewestFirst(front, feed));
      }
    }
  }

  lemma {:induction false} NewestFirstNothing(log: seq<Arrival>, feed: FeedKey)
    requires forall a <- log :: a.event.feedKey != feed
    ensures NewestFirst(log, feed) == []
  {
    if log != [] {
      NewestFirstNothing(log[..|log| - 1], feed);
    }
  }

  /**
   * After a replay each feed that was empty shows, newest first, what the store kept of the replayed
   * events; a feed that held events shows them unchanged.
   */
  lemma BuffersAfterReplay(o: Options, store: Store, log: seq<Line>, clock: nat -> int, feed: FeedKey)
    requires |Get(store.buffers, feed, [])| <= o.bufferSize
    ensures var arrivals := Arrivals(Replay(store, log), clock);
      var buffer, kept := Get(Run(o, store, arrivals, true).buffers, feed, []), Kept(o, store, arrivals, true);
      if Replayable(store, feed)
      then buffer == Take(NewestFirst(kept, feed), o.bufferSize) && Descending(buffer)
      else buffer == Get(store.buffers, feed, [])
  {
    hide Run, Kept, Replay, NewestFirst, Cleaned;
    var arrivals := Arrivals(Replay(store, log), clock);
    var kept := Kept(o, store, arrivals, true);
    ReplayOrdersSelection(store, log, feed);
    KeptInOrder(o, store, arrivals);
    NewestFirstDescends(kept, feed);
    BufferAfterRun(o, store, arrivals, feed);
    if Replayable(store, feed) {
      assert NewestFirst(kept, feed) + [] == NewestFirst(kept, feed);
    } else {
      NoneOfFeed(Replay(store, log), feed);
      NewestFirstNothing(kept, feed);
      assert [] + Get(store.buffers, feed, []) == Get(store.buffers, feed, []);
    }
  }

  lemma {:induction false} NoneOfFeed(events: seq<Event>, feed: FeedKey)
    requires OfFeed(events, feed) == []
    ensures forall e <- events :: e.feedKey != feed
  {
    if events != [] {
      NoneOfFeed(events[..|events| - 1], feed);
      assert events == events[..|events| - 1] + [events[|events| - 1]];
    }
  }
}
