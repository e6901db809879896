/** The browser's copy against the server's store, over whole runs of the stream. */
module BrowserCopy {
  import opened Wrappers
  import opened Numbers
  import opened EventStore
  import opened EventLog
  import opened SseHub

  datatype Step =
    | Arrive(event: Event, now: int, broken: set<nat>)
    | Connect(others: nat, failed: bool)
    | Announce(broken: set<nat>)
    | Disconnect(id: nat)
    | Shutdown

  /** `log` only records what the store stored; the code keeps no such list. */
  datatype System = System(store: Store, log: seq<Arrival>, wires: Wires, nextId: nat, listening: bool)

  function Start(): System {
    System(Empty(), [], map[], 1, true)
  }

  function Next(o: Options, sys: System, step: Step): System {
    match step
    case Arrive(event, now, broken) =>
      var stores := Stores(o, sys.store, event, now, true);
      sys.(store := Added(o, sys.store, event, now, true),
           log := if stores then sys.log + [Arrival(event, now)] else sys.log,
           wires := if stores && sys.listening then Written(sys.wires, EventMessage(event), broken) else sys.wires)
    case Connect(others, failed) =>
      sys.(wires := if failed then sys.wires - {sys.nextId}
                    else sys.wires[sys.nextId := Opening(SnapshotOf(sys.store), others)],
           nextId := sys.nextId + 1)
    case Announce(broken) => sys.(wires := Written(sys.wires, Other, broken))
    case Disconnect(id) => sys.(wires := sys.wires - {id})
    case Shutdown => sys.(wires := map[], listening := false)
  }

  function After(o: Options, steps: seq<Step>): System {
    if steps == [] then Start() else Next(o, After(o, steps[..|steps| - 1]), steps[|steps| - 1])
  }

  // ---- agreement ----------------------------------------------------------------------------

  /** How many events of a feed both sides are sure to hold. */
  function Common(o: Options): nat {
    MinNat(BROWSER_EVENTS, o.bufferSize)
  }

  ghost predicate FeedsAgree(o: Options, s: Store, v: Snapshot) {
    forall f :: Take(EventsOf(v, f), Common(o)) == Take(Get(s.buffers, f, []), Common(o))
  }

  ghost predicate CountersAgree(s: Store, v: Snapshot) {
    && v.stored == s.stored
    && (forall f :: Get(v.byFeed, f, 0) == Get(s.byFeed, f, 0))
    && v.lastEventTime == s.lastEventTime
    && v.received - v.deduplicated == s.received - s.deduplicated
  }

  ghost predicate LatencyAgrees(samples: seq<real>, latency: Latency) {
    latency.latestMs == Last(samples) && MinNat(latency.samples, LATENCY_SAMPLES) == |samples|
  }

  /** The copy shows what the server would show, on the part of each feed both hold. */
  ghost predicate Agrees(o: Options, s: Store, v: Snapshot) {
    FeedsAgree(o, s, v) && CountersAgree(s, v) && LatencyAgrees(s.latency, v.latency)
  }

  lemma TakeTake<T>(xs: seq<T>, m: nat, n: nat)
    ensures Take(Take(xs, m), n) == Take(xs, MinNat(m, n))
  {
  }

  lemma TakeFront<T>(x: T, xs: seq<T>, ys: seq<T>, n: nat, m: nat)
    requires Take(xs, m) == Take(ys, m) && m <= n
    ensures Take(Take([x] + xs, n), m) == Take([x] + ys, m)
  {
    TakeTake([x] + xs, n, m);
    TakePush(x, xs, m);
    TakePush(x, ys, m);
  }

  lemma FeedsStay(o: Options, s: Store, v: Snapshot, event: Event, now: int)
    requires FeedsAgree(o, s, v) && !Shown(v, event)
    ensures FeedsAgree(o, Push(o, s, event, now), AddEventToSnapshot(v, event))
  {
    var t, w := Push(o, s, event, now), AddEventToSnapshot(v, event);
    forall f
      ensures Take(EventsOf(w, f), Common(o)) == Take(Get(t.buffers, f, []), Common(o))
    {
      var mine, theirs := EventsOf(v, f), Get(s.buffers, f, []);
      assert Take(mine, Common(o)) == Take(theirs, Common(o));
      if f == event.feedKey {
        TakeFront(event, mine, mine, BROWSER_EVENTS, Common(o));
        TakeFront(event, theirs, mine, o.bufferSize, Common(o));
        assert EventsOf(w, f) == Take([event] + mine, BROWSER_EVENTS);
        assert Get(t.buffers, f, []) == Take([event] + theirs, o.bufferSize);
      } else {
        assert EventsOf(w, f) == mine && Get(t.buffers, f, []) == theirs;
      }
    }
  }

  lemma CountersStay(o: Options, s: Store, v: Snapshot, event: Event, now: int)
    requires CountersAgree(s, v)
    ensures CountersAgree(Push(o, s.(received := s.received + 1), event, now), AddEventToSnapshot(v, event)) <==>
            !Shown(v, event)
  {
    hide Take, Sampled, UpdateLatency, Shown;
    var t, w := Push(o, s, event, now), AddEventToSnapshot(v, event);
    if !Shown(v, event) {
      forall f
        ensures Get(w.byFeed, f, 0) == Get(t.byFeed, f, 0)
      {
        assert Get(v.byFeed, f, 0) == Get(s.byFeed, f, 0);
      }
    } else {
      assert w.stored == s.stored < t.stored;
    }
  }

  lemma LatencyStays(samples: seq<real>, latency: Latency, latencyMs: Option<real>)
    requires LatencyAgrees(samples, latency)
    ensures LatencyAgrees(Sampled(samples, latencyMs), UpdateLatency(latency, latencyMs))
  {
  }

  lemma PushInAgreement(o: Options, s: Store, v: Snapshot, event: Event, now: int)
    requires Agrees(o, s, v)
    ensures Agrees(o, Push(o, s.(received := s.received + 1), event, now), AddEventToSnapshot(v, event)) <==>
            !Shown(v, event)
  {
    hide CountersAgree, LatencyAgrees, Take, Sampled, UpdateLatency, Shown, EventsOf;
    CountersStay(o, s, v, event, now);
    if !Shown(v, event) {
      assert FeedsAgree(o, s.(received := s.received + 1), v);
      FeedsStay(o, s.(received := s.received + 1), v, event, now);
      LatencyStays(s.latency, v.latency, event.latencyMs);
    }
  }

  /** One stored event keeps the two sides in agreement exactly when the page does not show its id already. */
  lemma StaysInAgreement(o: Options, s: Store, v: Snapshot, event: Event, now: int)
    requires Agrees(o, s, v) && Stores(o, s, event, now, true)
    ensures Agrees(o, Added(o, s, event, now, true), AddEventToSnapshot(v, event)) <==> !Shown(v, event)
  {
    hide Cleaned, Take, Sampled, AddEventToSnapshot, Shown, EventsOf, LatencyAgrees;
    var cleaned := s.(dedupe := Cleaned(o, s.dedupe, now));
    assert Agrees(o, cleaned, v);
    PushInAgreement(o, cleaned, v, event, now);
  }

  // ---- what the page holds ------------------------------------------------------------------

  /** The longest list of a feed a page can hold. */
  function Window(o: Options): nat {
    MaxNat(BROWSER_EVENTS, o.bufferSize)
  }

  /** Each list on the page is the newest part of the feed's log. */
  ghost predicate Holds(o: Options, log: seq<Arrival>, v: Snapshot) {
    forall f :: EventsOf(v, f) <= NewestFirst(log, f) && |EventsOf(v, f)| <= Window(o)
  }

  /** No stored event repeats an id found among the newest events its feed then had. */
  ghost predicate NoRepeats(o: Options, log: seq<Arrival>) {
    log == [] ||
    var front, event := log[..|log| - 1], log[|log| - 1].event;
    && NoRepeats(o, front)
    && forall e <- Take(NewestFirst(front, event.feedKey), Window(o)) :: e.id != event.id
  }

  lemma NotShown(o: Options, log: seq<Arrival>, v: Snapshot, a: Arrival)
    requires Holds(o, log, v) && NoRepeats(o, log + [a])
    ensures !Shown(v, a.event)
  {
    assert (log + [a])[..|log|] == log;
    var mine := EventsOf(v, a.event.feedKey);
    var newest := NewestFirst(log, a.event.feedKey);
    assert mine <= newest;
    assert mine <= Take(newest, Window(o));
    forall e <- mine
      ensures e.id != a.event.id
    {
      assert e in Take(newest, Window(o));
    }
  }

  lemma HoldsMore(o: Options, log: seq<Arrival>, v: Snapshot, a: Arrival)
    requires Holds(o, log, v) && !Shown(v, a.event)
    ensures Holds(o, log + [a], AddEventToSnapshot(v, a.event))
  {
    hide Shown, UpdateLatency;
    var w := AddEventToSnapshot(v, a.event);
    assert (log + [a])[..|log|] == log;
    forall f
      ensures EventsOf(w, f) <= NewestFirst(log + [a], f) && |EventsOf(w, f)| <= Window(o)
    {
      assert EventsOf(v, f) <= NewestFirst(log, f);
      if f == a.event.feedKey {
        assert [a.event] + EventsOf(v, f) <= NewestFirst(log + [a], f);
        assert EventsOf(w, f) == Take([a.event] + EventsOf(v, f), BROWSER_EVENTS);
      } else {
        assert EventsOf(w, f) == EventsOf(v, f);
      }
    }
  }

  lemma StatsAgree(samples: seq<real>)
    requires |samples| <= LATENCY_SAMPLES
    ensures LatencyAgrees(samples, LatencyStats(samples))
  {
  }

  /** A fresh snapshot agrees with the store, and holds what the log says. */
  lemma SnapshotInStep(o: Options, s: Store, log: seq<Arrival>)
    requires Shows(o, s, log)
    ensures InStep(o, s, log, SnapshotOf(s))
  {
    hide FeedKeys, Empty, LatencyStats;
    var v := SnapshotOf(s);
    forall f
      ensures EventsOf(v, f) == Get(s.buffers, f, [])
      ensures EventsOf(v, f) <= NewestFirst(log, f) && |EventsOf(v, f)| <= Window(o)
    {
      FeedKeysListed(f);
      assert f in FeedKeys();
      assert Get(s.buffers, f, []) == Take(NewestFirst(log, f), o.bufferSize);
    }
    StatsAgree(s.latency);
  }

  ghost predicate InStep(o: Options, s: Store, log: seq<Arrival>, v: Snapshot) {
    Agrees(o, s, v) && Holds(o, log, v)
  }

  // ---- whole runs ---------------------------------------------------------------------------

  lemma {:induction false} OpeningShows(v: Snapshot, snapshot: Snapshot, others: nat)
    ensures ApplyAll(v, Opening(snapshot, others)) == snapshot
  {
    var opening := Opening(snapshot, others);
    if others == 0 {
      assert opening == [SnapshotMessage(snapshot)];
      assert opening[..0] == [];
    } else {
      OpeningShows(v, snapshot, others - 1);
      assert opening[..|opening| - 1] == Opening(snapshot, others - 1);
    }
  }

  lemma ReadingOneMore(v: Snapshot, messages: seq<Message>, m: Message)
    ensures ApplyAll(v, messages + [m]) == Apply(ApplyAll(v, messages), m)
  {
    assert (messages + [m])[..|messages|] == messages;
  }

  lemma NextShows(o: Options, sys: System, step: Step)
    requires Shows(o, sys.store, sys.log)
    ensures Shows(o, Next(o, sys, step).store, Next(o, sys, step).log)
  {
    hide Shows, Written, SnapshotOf, Opening, Stores, Added;
    if step.Arrive? {
      ArrivalShows(o, sys.store, sys.log, Arrival(step.event, step.now), true);
    }
  }

  /** Whatever the clock and the clients do, the store shows its log. */
  lemma {:induction false} StoreShowsLog(o: Options, steps: seq<Step>)
    ensures var sys := After(o, steps); Shows(o, sys.store, sys.log)
  {
    if steps == [] {
      EmptyShowsNothing(o);
    } else {
      hide Empty, Shows, Next;
      StoreShowsLog(o, steps[..|steps| - 1]);
      NextShows(o, After(o, steps[..|steps| - 1]), steps[|steps| - 1]);
    }
  }

  lemma RejectedInStep(o: Options, s: Store, log: seq<Arrival>, v: Snapshot, a: Arrival)
    requires InStep(o, s, log, v) && !Stores(o, s, a.event, a.at, true)
    ensures InStep(o, Added(o, s, a.event, a.at, true), log, v)
  {
    hide Cleaned, Holds;
    assert FeedsAgree(o, Added(o, s, a.event, a.at, true), v) by {
      assert FeedsAgree(o, s, v);
    }
  }

  lemma AcceptedInStep(o: Options, s: Store, log: seq<Arrival>, v: Snapshot, a: Arrival)
    requires InStep(o, s, log, v) && NoRepeats(o, log + [a]) && Stores(o, s, a.event, a.at, true)
    ensures InStep(o, Added(o, s, a.event, a.at, true), log + [a], AddEventToSnapshot(v, a.event))
  {
    hide Agrees, Holds, NoRepeats, Shown, Stores, Added;
    NotShown(o, log, v, a);
    StaysInAgreement(o, s, v, a.event, a.at);
    HoldsMore(o, log, v, a);
  }

  /** The page behind a wire, once it has read everything written so far. */
  ghost predicate PageInStep(o: Options, sys: System, page: Snapshot, id: nat) {
    id in sys.wires ==> InStep(o, sys.store, sys.log, ApplyAll(page, sys.wires[id]))
  }

  lemma NextInStep(o: Options, sys: System, step: Step, page: Snapshot, id: nat)
    requires Shows(o, sys.store, sys.log) && PageInStep(o, sys, page, id) && id < sys.nextId
    requires Next(o, sys, step).listening && NoRepeats(o, Next(o, sys, step).log)
    ensures PageInStep(o, Next(o, sys, step), page, id)
  {
    hide Shows, InStep, Stores, Added, NoRepeats, SnapshotOf, ApplyAll;
    if id in sys.wires {
      var wire := sys.wires[id];
      match step
      case Arrive(event, now, broken) =>
        var a := Arrival(event, now);
        if Stores(o, sys.store, event, now, true) {
          AcceptedInStep(o, sys.store, sys.log, ApplyAll(page, wire), a);
          ReadingOneMore(page, wire, EventMessage(event));
        } else {
          RejectedInStep(o, sys.store, sys.log, ApplyAll(page, wire), a);
        }
      case Announce(broken) =>
        ReadingOneMore(page, wire, Other);
      case _ =>
    }
  }

  lemma ConnectedInStep(o: Options, sys: System, others: nat, page: Snapshot)
    requires Shows(o, sys.store, sys.log)
    ensures PageInStep(o, Next(o, sys, Connect(others, false)), page, sys.nextId)
  {
    hide Shows, InStep, SnapshotOf, ApplyAll, Opening;
    OpeningShows(page, SnapshotOf(sys.store), others);
    SnapshotInStep(o, sys.store, sys.log);
  }

  /** Ids are handed out once: an open wire has an id below the next one. */
  lemma {:induction false} WiresNumbered(o: Options, steps: seq<Step>, id: nat)
    requires id in After(o, steps).wires
    ensures id < After(o, steps).nextId
  {
    hide Added, Stores, SnapshotOf, Opening, Empty;
    var front := steps[..|steps| - 1];
    if id in After(o, front).wires {
      WiresNumbered(o, front, id);
    }
  }

  /**
   * Over every run: as long as no stored event repeats a recent id of its feed, each connected page
   * that has read its wire shows what the server shows, whatever it showed before connecting.
   */
  lemma {:induction false} EveryPageInStep(o: Options, steps: seq<Step>, page: Snapshot, id: nat)
    requires After(o, steps).listening && NoRepeats(o, After(o, steps).log)
    ensures PageInStep(o, After(o, steps), page, id)
  {
    if steps != [] && id in After(o, steps).wires {
      var front, step := steps[..|steps| - 1], steps[|steps| - 1];
      var sys := After(o, front);
      hide Next, Start, Shows, NoRepeats, PageInStep, ApplyAll;
      StoreShowsLog(o, front);
      EarlierLogs(o, sys, step);
      if id in sys.wires {
        WiresNumbered(o, front, id);
        EveryPageInStep(o, front, page, id);
        NextInStep(o, sys, step, page, id);
      } else {
        NewWire(o, sys, step, id);
        ConnectedInStep(o, sys, step.others, page);
      }
    } else if steps != [] {
      assert PageInStep(o, After(o, steps), page, id);
    }
  }

  lemma NewWire(o: Options, sys: System, step: Step, id: nat)
    requires id !in sys.wires && id in Next(o, sys, step).wires
    ensures step.Connect? && !step.failed && id == sys.nextId
  {
    hide Added, Stores, SnapshotOf, Opening;
  }

  lemma EarlierLogs(o: Options, sys: System, step: Step)
    requires Next(o, sys, step).listening && NoRepeats(o, Next(o, sys, step).log)
    ensures sys.listening && NoRepeats(o, sys.log)
  {
    hide Added, Stores, SnapshotOf, Opening, Written, Window;
  }

  // ---- exactly when a page stays in step ----------------------------------------------------

  /** At this step an event was stored whose id the page, already connected, was showing. */
  ghost predicate MissedAt(o: Options, steps: seq<Step>, k: nat, page: Snapshot, id: nat)
    requires k < |steps|
  {
    MissedBy(o, After(o, steps[..k]), steps[k], page, id)
  }

  ghost predicate MissedBy(o: Options, sys: System, step: Step, page: Snapshot, id: nat) {
    && id in sys.wires && step.Arrive? && Stores(o, sys.store, step.event, step.now, true)
    && Shown(ApplyAll(page, sys.wires[id]), step.event)
  }

  ghost predicate Missed(o: Options, steps: seq<Step>, page: Snapshot, id: nat) {
    exists k: nat | k < |steps| :: MissedAt(o, steps, k, page, id)
  }

  lemma MissedStep(o: Options, steps: seq<Step>, page: Snapshot, id: nat)
    requires steps != []
    ensures var n := |steps| - 1;
      Missed(o, steps, page, id) <==> Missed(o, steps[..n], page, id) || MissedAt(o, steps, n, page, id)
  {
    hide MissedBy;
    var n := |steps| - 1;
    forall k: nat | k < n
      ensures MissedAt(o, steps, k, page, id) == MissedAt(o, steps[..n], k, page, id)
    {
      assert steps[..n][..k] == steps[..k];
    }
  }

  /** A page that has missed an event has counted fewer than the server; one that has not shows what it shows. */
  ghost predicate Standing(o: Options, s: Store, v: Snapshot, missed: bool) {
    if missed then v.stored < s.stored else Agrees(o, s, v)
  }

  lemma ArrivalStanding(o: Options, s: Store, v: Snapshot, missed: bool, event: Event, now: int)
    requires Standing(o, s, v, missed)
    ensures var t := Added(o, s, event, now, true);
      if Stores(o, s, event, now, true) then Standing(o, t, AddEventToSnapshot(v, event), missed || Shown(v, event))
      else Standing(o, t, v, missed)
  {
    hide Agrees;
    ArrivalCounts(o, s, v, event, now);
    if !missed {
      AgreeingCounts(o, s, v);
      if Stores(o, s, event, now, true) {
        StaysInAgreement(o, s, v, event, now);
      } else {
        RejectedAgrees(o, s, v, event, now);
      }
    }
  }

  lemma AgreeingCounts(o: Options, s: Store, v: Snapshot)
    requires Agrees(o, s, v)
    ensures v.stored == s.stored
  {
    hide FeedsAgree, LatencyAgrees;
  }

  lemma ArrivalCounts(o: Options, s: Store, v: Snapshot, event: Event, now: int)
    ensures Added(o, s, event, now, true).stored == s.stored + if Stores(o, s, event, now, true) then 1 else 0
    ensures AddEventToSnapshot(v, event).stored == v.stored + if Shown(v, event) then 0 else 1
  {
    hide Cleaned, Take, Sampled, UpdateLatency, Shown;
  }

  lemma RejectedAgrees(o: Options, s: Store, v: Snapshot, event: Event, now: int)
    requires Agrees(o, s, v) && !Stores(o, s, event, now, true)
    ensures Agrees(o, Added(o, s, event, now, true), v)
  {
    hide Cleaned, Take;
    assert FeedsAgree(o, s, v);
  }

  lemma NextStanding(o: Options, sys: System, step: Step, page: Snapshot, id: nat, missed: bool)
    requires id in sys.wires && id < sys.nextId && id in Next(o, sys, step).wires && Next(o, sys, step).listening
    requires Standing(o, sys.store, ApplyAll(page, sys.wires[id]), missed)
    ensures var r := Next(o, sys, step);
      Standing(o, r.store, ApplyAll(page, r.wires[id]), missed || MissedBy(o, sys, step, page, id))
  {
    hide Standing, Stores, Added, SnapshotOf, ApplyAll, Shown;
    var wire := sys.wires[id];
    match step
    case Arrive(event, now, broken) =>
      ArrivalStanding(o, sys.store, ApplyAll(page, wire), missed, event, now);
      ReadingOneMore(page, wire, EventMessage(event));
    case Announce(broken) =>
      ReadingOneMore(page, wire, Other);
    case _ =>
  }

  lemma {:induction false} PageStanding(o: Options, steps: seq<Step>, page: Snapshot, id: nat)
    requires After(o, steps).listening && id in After(o, steps).wires
    ensures var sys := After(o, steps);
      Standing(o, sys.store, ApplyAll(page, sys.wires[id]), Missed(o, steps, page, id))
  {
    hide Next, Start, Shows, ApplyAll, Standing, Missed, MissedBy;
    if steps == [] {
      NoWires();
    } else {
      var front, step := steps[..|steps| - 1], steps[|steps| - 1];
      var sys := After(o, front);
      MissedStep(o, steps, page, id);
      if id in sys.wires {
        WiresNumbered(o, front, id);
        ListeningBefore(o, sys, step);
        PageStanding(o, front, page, id);
        NextStanding(o, sys, step, page, id, Missed(o, front, page, id));
      } else {
        NewWire(o, sys, step, id);
        NotMissedBefore(o, front, page, id);
        NewPageStands(o, front, step, page, id);
      }
    }
  }

  lemma NoWires()
    ensures Start().wires == map[]
  {
  }

  lemma ListeningBefore(o: Options, sys: System, step: Step)
    requires Next(o, sys, step).listening
    ensures sys.listening
  {
    hide Added, Stores, SnapshotOf, Opening, Written;
  }

  lemma NewPageStands(o: Options, front: seq<Step>, step: Step, page: Snapshot, id: nat)
    requires var sys := After(o, front); step.Connect? && !step.failed && id == sys.nextId && id !in sys.wires
    ensures var r := Next(o, After(o, front), step);
      id in r.wires && Standing(o, r.store, ApplyAll(page, r.wires[id]), MissedBy(o, After(o, front), step, page, id))
  {
    hide Shows, SnapshotOf, ApplyAll, Opening, Agrees;
    var sys := After(o, front);
    StoreShowsLog(o, front);
    OpeningShows(page, SnapshotOf(sys.store), step.others);
    SnapshotInStep(o, sys.store, sys.log);
  }

  /** A page that is not connected, and whose id is still to be given out, has missed nothing. */
  lemma NotMissedBefore(o: Options, steps: seq<Step>, page: Snapshot, id: nat)
    requires id == After(o, steps).nextId
    ensures !Missed(o, steps, page, id)
  {
    hide Next, Start, ApplyAll, NoRepeats;
    forall k: nat | k < |steps|
      ensures !MissedAt(o, steps, k, page, id)
    {
      WiresOnlyGrow(o, steps, k, id);
      if id in After(o, steps[..k]).wires {
        WiresNumbered(o, steps[..k], id);
      }
    }
  }

  /**
   * Over every run: a connected page that has read its wire shows what the server shows exactly when
   * no event stored since it connected was already on the page when it was stored.
   */
  lemma PageInStepExactly(o: Options, steps: seq<Step>, page: Snapshot, id: nat)
    requires After(o, steps).listening && id in After(o, steps).wires
    ensures var sys := After(o, steps);
      Agrees(o, sys.store, ApplyAll(page, sys.wires[id])) <==> !Missed(o, steps, page, id)
  {
    hide Missed, Agrees, ApplyAll, After;
    PageStanding(o, steps, page, id);
    var sys := After(o, steps);
    if Agrees(o, sys.store, ApplyAll(page, sys.wires[id])) {
      AgreeingCounts(o, sys.store, ApplyAll(page, sys.wires[id]));
    }
  }

  // ---- an id that comes back ----------------------------------------------------------------

  /** One page connects, an event arrives, and the same event arrives again when its TTL is over. */
  function RepeatAfterTtl(o: Options, event: Event): seq<Step> {
    [Connect(0, false), Arrive(event, 0, {}), Arrive(event, o.dedupeTtlMs, {})]
  }

  lemma AfterStep(o: Options, steps: seq<Step>, step: Step)
    ensures After(o, steps + [step]) == Next(o, After(o, steps), step)
  {
    assert (steps + [step])[..|steps|] == steps;
  }

  lemma FirstTime(o: Options, event: Event)
    ensures var sys := After(o, [Connect(0, false), Arrive(event, 0, {})]);
      && sys.listening && sys.store.stored == 1 && sys.store.dedupe == map[event.id := o.dedupeTtlMs]
      && sys.wires == map[1 := [SnapshotMessage(SnapshotOf(Empty()))] + [EventMessage(event)]]
  {
    hide SnapshotOf, Take, Sampled;
    AfterStep(o, [], Connect(0, false));
    AfterStep(o, [Connect(0, false)], Arrive(event, 0, {}));
    assert [] + [Connect(0, false)] == [Connect(0, false)];
    assert [Connect(0, false)] + [Arrive(event, 0, {})] == [Connect(0, false), Arrive(event, 0, {})];
    assert Opening(SnapshotOf(Empty()), 0) == [SnapshotMessage(SnapshotOf(Empty()))];
    var connected := After(o, [Connect(0, false)]);
    assert connected.wires == map[1 := [SnapshotMessage(SnapshotOf(Empty()))]];
    assert connected.store == Empty() && connected.listening;
    FirstStored(o, connected, event, [SnapshotMessage(SnapshotOf(Empty()))]);
  }

  lemma FirstStored(o: Options, sys: System, event: Event, wire: seq<Message>)
    requires sys.listening && sys.store == Empty() && sys.wires == map[1 := wire]
    ensures var r := Next(o, sys, Arrive(event, 0, {}));
      && r.listening && r.store.stored == 1 && r.store.dedupe == map[event.id := o.dedupeTtlMs]
      && r.wires == map[1 := wire + [EventMessage(event)]]
  {
    hide Take, Sampled, Get, FeedKeys;
  }

  lemma SecondTime(o: Options, sys: System, event: Event, wire: seq<Message>)
    requires sys.listening && sys.store.stored == 1 && sys.store.dedupe == map[event.id := o.dedupeTtlMs]
    requires sys.wires == map[1 := wire]
    ensures var r := Next(o, sys, Arrive(event, o.dedupeTtlMs, {}));
      r.store.stored == 2 && r.wires == map[1 := wire + [EventMessage(event)]]
  {
    hide Take, Sampled;
  }

  lemma ShownOnce(page: Snapshot, event: Event)
    ensures var opening := [SnapshotMessage(SnapshotOf(Empty()))];
      ApplyAll(page, opening + [EventMessage(event)] + [EventMessage(event)]).stored == 1
  {
    hide LatencyStats, UpdateLatency, FeedKeys;
    var v := SnapshotOf(Empty());
    var opening := [SnapshotMessage(v)];
    assert opening[..0] == [];
    assert ApplyAll(page, opening) == v;
    ReadingOneMore(page, opening, EventMessage(event));
    ReadingOneMore(page, opening + [EventMessage(event)], EventMessage(event));
    var w := AddEventToSnapshot(v, event);
    NothingShown(event);
    assert EventsOf(w, event.feedKey) == Take([event], BROWSER_EVENTS) == [event];
    assert event in EventsOf(w, event.feedKey);
  }

  lemma NothingShown(event: Event)
    ensures EventsOf(SnapshotOf(Empty()), event.feedKey) == []
  {
    hide LatencyStats;
  }

  /**
   * An id stored again after its TTL, while the page still shows it, is one stored event more on
   * the server and none on the page.
   */
  lemma RepeatBreaksAgreement(o: Options, event: Event, page: Snapshot)
    ensures var sys := After(o, RepeatAfterTtl(o, event));
      && sys.listening && 1 in sys.wires
      && sys.store.stored == 2 && ApplyAll(page, sys.wires[1]).stored == 1
      && !Agrees(o, sys.store, ApplyAll(page, sys.wires[1]))
  {
    hide SnapshotOf, Next, ApplyAll, FeedsAgree, LatencyAgrees;
    var steps := RepeatAfterTtl(o, event);
    var before := steps[..2];
    assert before == [Connect(0, false), Arrive(event, 0, {})];
    FirstTime(o, event);
    var opening := [SnapshotMessage(SnapshotOf(Empty()))];
    AfterStep(o, before, steps[2]);
    assert before + [steps[2]] == steps;
    SecondTime(o, After(o, before), event, opening + [EventMessage(event)]);
    ShownOnce(page, event);
    StillListening(o, After(o, before), steps[2]);
  }

  lemma StillListening(o: Options, sys: System, step: Step)
    requires sys.listening && !step.Shutdown?
    ensures Next(o, sys, step).listening
  {
    hide Added, Stores, Written, Opening, SnapshotOf;
  }

  // ---- pages that lag -----------------------------------------------------------------------

  lemma WireGrows(o: Options, sys: System, step: Step, id: nat)
    requires id < sys.nextId
    ensures sys.nextId <= Next(o, sys, step).nextId
    ensures id in Next(o, sys, step).wires ==> id in sys.wires && sys.wires[id] <= Next(o, sys, step).wires[id]
  {
    hide Added, Stores, SnapshotOf, Opening;
  }

  /** A wire that is still open was open before, and has only been appended to. */
  lemma {:induction false} WiresOnlyGrow(o: Options, steps: seq<Step>, k: nat, id: nat)
    requires k <= |steps|
    ensures After(o, steps[..k]).nextId <= After(o, steps).nextId
    ensures id < After(o, steps[..k]).nextId && id in After(o, steps).wires ==>
              id in After(o, steps[..k]).wires && After(o, steps[..k]).wires[id] <= After(o, steps).wires[id]
    ensures After(o, steps).listening && NoRepeats(o, After(o, steps).log) ==>
              After(o, steps[..k]).listening && NoRepeats(o, After(o, steps[..k]).log)
    decreases |steps|
  {
    if k == |steps| {
      assert steps[..k] == steps;
    } else {
      hide Next, Start, NoRepeats;
      var front, step := steps[..|steps| - 1], steps[|steps| - 1];
      assert front[..k] == steps[..k];
      WiresOnlyGrow(o, front, k, id);
      if id < After(o, steps[..k]).nextId {
        WireGrows(o, After(o, front), step, id);
      }
      NextIdGrows(o, After(o, front), step);
      if After(o, steps).listening && NoRepeats(o, After(o, steps).log) {
        EarlierLogs(o, After(o, front), step);
      }
    }
  }

  lemma NextIdGrows(o: Options, sys: System, step: Step)
    ensures sys.nextId <= Next(o, sys, step).nextId
  {
    hide Added, Stores, SnapshotOf, Opening, Written;
  }

  /**
   * A page that has read only what was written by an earlier moment shows what the server showed
   * then, and what it has yet to read is a continuation of it.
   */
  lemma LaggingPageShowsThePast(o: Options, steps: seq<Step>, k: nat, page: Snapshot, id: nat)
    requires k <= |steps| && id in After(o, steps).wires && id < After(o, steps[..k]).nextId
    requires After(o, steps).listening && NoRepeats(o, After(o, steps).log)
    ensures id in After(o, steps[..k]).wires
    ensures var past, now := After(o, steps[..k]), After(o, steps);
      past.wires[id] <= now.wires[id] && InStep(o, past.store, past.log, ApplyAll(page, past.wires[id]))
  {
    hide InStep, NoRepeats, Start, Next;
    WiresOnlyGrow(o, steps, k, id);
    EveryPageInStep(o, steps[..k], page, id);
  }
}
