/** What holds of the durable ingestion queue after every interleaving of its steps. */
module DurableQueueSafety {
  import opened DurableQueue

  // ---- one drainer --------------------------------------------------------------------------

  ghost predicate OneDrainer(q: Queue) {
    || (!q.processing && q.inFlight == 0 && q.activations == map[] && q.queue == [])
    || (q.processing && q.inFlight == 1 && exists id :: q.activations.Keys == {id})
  }

  /** Nothing is processing: the state between the end of one drainer and the start of the next. */
  ghost predicate Quiet(q: Queue) {
    !q.processing && q.activations == map[]
  }

  lemma LoopHeadOneDrainer(q: Queue, id: nat)
    requires q.processing && q.activations.Keys <= {id}
    requires q.inFlight <= 1 && (q.queue == [] ==> q.inFlight == 0)
    ensures OneDrainer(LoopHead(q, id))
  {
    if q.queue == [] {
      assert q.activations - {id} == map[];
    } else {
      assert LoopHead(q, id).activations.Keys == {id};
    }
  }

  lemma ScheduleOneDrainer(q: Queue)
    requires OneDrainer(q) || (Quiet(q) && q.inFlight == 0)
    ensures OneDrainer(ScheduleProcessing(q))
  {
    if !q.processing {
      LoopHeadOneDrainer(q.(processing := true, nextActivation := q.nextActivation + 1), q.nextActivation);
    }
  }

  lemma NextOneDrainer(o: Options, q: Queue, step: Step)
    requires OneDrainer(q)
    ensures OneDrainer(Next(o, q, step))
  {
    match step
    case Enqueue(job) =>
      if Accepts(o, q) {
        var pushed := Push(q, job);
        if q.processing {
          var id :| q.activations.Keys == {id};
          assert pushed.activations.Keys == {id};
        }
        ScheduleOneDrainer(pushed);
      } else if q.processing {
        var id :| q.activations.Keys == {id};
        assert EnqueueStep(o, q, job).activations.Keys == {id};
      }
    case StopCalled =>
      if q.state != Stopped {
        var stopping := q.(state := Draining, stops := q.stops + 1);
        if q.processing {
          var id :| q.activations.Keys == {id};
          assert stopping.activations.Keys == {id};
        }
        ScheduleOneDrainer(stopping);
      }
    case StopReturns =>
      if q.processing {
        var id :| q.activations.Keys == {id};
        assert StopReturnsStep(q).activations.Keys == {id};
      }
    case WriteSucceeds(id, events, entries) =>
      if id in q.activations && q.activations[id].Writing? {
        OnlyDrainer(q, id);
        LoopHeadOneDrainer(MarkWritten(q, q.activations[id].item, events, entries), id);
      }
    case WriteFails(id, transient) =>
      if id in q.activations && q.activations[id].Writing? {
        OnlyDrainer(q, id);
        assert WriteFailsStep(o, q, id, transient).activations.Keys == {id};
      }
    case SleepEnds(id) =>
      if id in q.activations && q.activations[id].Sleeping? {
        OnlyDrainer(q, id);
        assert SleepEndsStep(q, id).activations.Keys == {id};
      }
    case RecordEnds(id) =>
      if id in q.activations && q.activations[id].Recording? {
        OnlyDrainer(q, id);
        LoopHeadOneDrainer(q.(inFlight := 0), id);
      }
  }

  lemma OnlyDrainer(q: Queue, id: nat)
    requires OneDrainer(q) && id in q.activations
    ensures q.processing && q.inFlight == 1 && q.activations.Keys == {id}
  {
    var other :| q.activations.Keys == {other};
    assert id in q.activations.Keys;
  }

  // ---- conservation and order ---------------------------------------------------------------

  /** The jobs whose writing has begun and is not decided yet. */
  ghost function Undecided(activations: map<nat, Activation>): multiset<Item> {
    if activations == map[] then multiset{}
    else
      var id :| id in activations.Keys;
      UndecidedOf(activations[id])
  }

  function UndecidedOf(activation: Activation): multiset<Item> {
    if activation.Recording? then multiset{} else multiset{activation.item}
  }

  lemma UndecidedIs(activations: map<nat, Activation>, id: nat)
    requires activations.Keys == {id}
    ensures Undecided(activations) == UndecidedOf(activations[id])
  {
    assert id in activations.Keys;
    assert forall other | other in activations.Keys :: other == id;
  }

  ghost predicate Increasing(items: seq<Item>) {
    forall i, j | 0 <= i < j < |items| :: items[i].ticket < items[j].ticket
  }

  /** Counters count, every accepted job is accounted for once, and writing starts in order of acceptance. */
  ghost predicate Accounted(q: Queue) {
    var h := q.history;
    && q.accepted == |h.accepted| && q.writtenJobs == |h.written| && q.failed == |h.failed|
    && q.dropped == h.refused + |h.droppedAtStop|
    && (forall i | 0 <= i < |h.accepted| :: h.accepted[i].ticket == i)
    && multiset(h.started) == multiset(h.written) + multiset(h.failed) + Undecided(q.activations)
    && multiset(h.accepted) == multiset(h.started) + multiset(q.queue) + multiset(h.droppedAtStop)
    && Increasing(h.started + q.queue)
  }

  lemma TicketsBounded(q: Queue, item: Item)
    requires Accounted(q)
    requires item in q.history.started + q.queue
    ensures item.ticket < q.accepted && q.history.accepted[item.ticket] == item
  {
    var h := q.history;
    assert item in multiset(h.started) + multiset(q.queue) + multiset(h.droppedAtStop) by {
      if item in h.started {
        assert item in multiset(h.started);
      } else {
        assert item in multiset(q.queue);
      }
    }
    assert item in multiset(h.accepted);
    var i :| 0 <= i < |h.accepted| && h.accepted[i] == item;
  }

  /** The state after deciding a job or scheduling, before the loop head runs: nothing is undecided. */
  lemma LoopHeadAccounted(q: Queue, id: nat)
    requires q.activations.Keys <= {id}
    requires Accounted(q.(activations := map[]))
    ensures Accounted(LoopHead(q, id))
  {
    var r := LoopHead(q, id);
    if q.queue == [] {
      assert q.activations - {id} == map[];
    } else {
      assert r.activations.Keys == {id};
      UndecidedIs(r.activations, id);
      assert q.queue == [q.queue[0]] + q.queue[1..];
      assert r.history.started + r.queue == q.history.started + q.queue;
    }
  }

  lemma ScheduleAccounted(q: Queue)
    requires OneDrainer(q) || (Quiet(q) && q.inFlight == 0)
    requires Accounted(q)
    ensures Accounted(ScheduleProcessing(q))
  {
    if !q.processing {
      var started := q.(processing := true, nextActivation := q.nextActivation + 1);
      assert started.activations == map[];
      AccountedIgnores(q, started);
      LoopHeadAccounted(started, q.nextActivation);
    }
  }

  lemma PushAccounted(q: Queue, job: Job)
    requires Accounted(q)
    ensures Accounted(Push(q, job))
  {
    var item := Item(job, q.accepted);
    var r := Push(q, job);
    var before := q.history.started + q.queue;
    assert r.history.started + r.queue == before + [item];
    forall i | 0 <= i < |before|
      ensures before[i].ticket < item.ticket
    {
      TicketsBounded(q, before[i]);
    }
  }

  /** The accounts look at the history, the counters, the queue and the activations only. */
  lemma AccountedIgnores(q: Queue, r: Queue)
    requires Accounted(q)
    requires r.history == q.history && r.queue == q.queue && r.activations == q.activations
    requires r.accepted == q.accepted && r.writtenJobs == q.writtenJobs && r.failed == q.failed &&
             r.dropped == q.dropped
    ensures Accounted(r)
  {
  }

  lemma IncreasingPrefix(items: seq<Item>, more: seq<Item>)
    requires Increasing(items + more)
    ensures Increasing(items)
  {
    forall i, j | 0 <= i < j < |items|
      ensures items[i].ticket < items[j].ticket
    {
      assert (items + more)[i] == items[i] && (items + more)[j] == items[j];
    }
  }

  lemma EnqueueAccounted(o: Options, q: Queue, job: Job)
    requires OneDrainer(q) && Accounted(q)
    ensures Accounted(EnqueueStep(o, q, job))
  {
    if Accepts(o, q) {
      var pushed := Push(q, job);
      PushAccounted(q, job);
      if q.processing {
        assert ScheduleProcessing(pushed) == pushed;
      } else {
        ScheduleAccounted(pushed);
      }
    }
  }

  lemma StopReturnsAccounted(q: Queue)
    requires Accounted(q)
    ensures Accounted(StopReturnsStep(q))
  {
    if q.stops > 0 {
      IncreasingPrefix(q.history.started, q.queue);
      assert q.history.started + [] == q.history.started;
    }
  }

  lemma WriteSucceedsAccounted(q: Queue, id: nat, events: nat, entries: nat)
    requires OneDrainer(q) && Accounted(q)
    ensures Accounted(WriteSucceedsStep(q, id, events, entries))
  {
    if id in q.activations && q.activations[id].Writing? {
      OnlyDrainer(q, id);
      UndecidedIs(q.activations, id);
      var decided := MarkWritten(q, q.activations[id].item, events, entries);
      LoopHeadAccounted(decided, id);
    }
  }

  lemma WriteFailsAccounted(o: Options, q: Queue, id: nat, transient: bool)
    requires OneDrainer(q) && Accounted(q)
    ensures Accounted(WriteFailsStep(o, q, id, transient))
  {
    hide GiveUp, SleepFirst, Accounted;
    if id in q.activations && q.activations[id].Writing? {
      OnlyDrainer(q, id);
      var Writing(item, attempt) := q.activations[id];
      GiveUpAccounted(q, id, item);
      SleepFirstAccounted(o, q, id, item, attempt + 1);
    }
  }

  lemma GiveUpAccounted(q: Queue, id: nat, item: Item)
    requires Accounted(q) && q.activations.Keys == {id} && q.activations[id].Writing? && q.activations[id].item == item
    ensures Accounted(GiveUp(q, id, item))
  {
    var r := GiveUp(q, id, item);
    assert r.activations.Keys == {id};
    UndecidedIs(q.activations, id);
    UndecidedIs(r.activations, id);
  }

  lemma SleepFirstAccounted(o: Options, q: Queue, id: nat, item: Item, attempt: nat)
    requires Accounted(q) && q.activations.Keys == {id} && q.activations[id].Writing? && q.activations[id].item == item
    ensures Accounted(SleepFirst(o, q, id, item, attempt))
  {
    var r := SleepFirst(o, q, id, item, attempt);
    assert r.activations.Keys == {id};
    UndecidedIs(q.activations, id);
    UndecidedIs(r.activations, id);
  }

  lemma SleepEndsAccounted(q: Queue, id: nat)
    requires OneDrainer(q) && Accounted(q)
    ensures Accounted(SleepEndsStep(q, id))
  {
    if id in q.activations && q.activations[id].Sleeping? {
      var r := SleepEndsStep(q, id);
      OnlyDrainer(q, id);
      assert r.activations.Keys == {id};
      UndecidedIs(q.activations, id);
      UndecidedIs(r.activations, id);
    }
  }

  lemma RecordEndsAccounted(q: Queue, id: nat)
    requires OneDrainer(q) && Accounted(q)
    ensures Accounted(RecordEndsStep(q, id))
  {
    if id in q.activations && q.activations[id].Recording? {
      OnlyDrainer(q, id);
      UndecidedIs(q.activations, id);
      LoopHeadAccounted(q.(inFlight := 0), id);
    }
  }

  lemma StopCalledAccounted(q: Queue)
    requires OneDrainer(q) && Accounted(q)
    ensures Accounted(StopCalledStep(q))
  {
    if q.state != Stopped {
      var stopping := q.(state := Draining, stops := q.stops + 1);
      AccountedIgnores(q, stopping);
      if !q.processing {
        ScheduleAccounted(stopping);
      }
    }
  }

  lemma NextAccounted(o: Options, q: Queue, step: Step)
    requires OneDrainer(q) && Accounted(q)
    ensures Accounted(Next(o, q, step))
  {
    hide Accounted, OneDrainer;
    match step
    case Enqueue(job) => EnqueueAccounted(o, q, job);
    case StopCalled => StopCalledAccounted(q);
    case StopReturns => StopReturnsAccounted(q);
    case WriteSucceeds(id, events, entries) => WriteSucceedsAccounted(q, id, events, entries);
    case WriteFails(id, transient) => WriteFailsAccounted(o, q, id, transient);
    case SleepEnds(id) => SleepEndsAccounted(q, id);
    case RecordEnds(id) => RecordEndsAccounted(q, id);
  }

  // ---- depth --------------------------------------------------------------------------------

  lemma NextDepth(o: Options, q: Queue, step: Step)
    requires |q.queue| <= o.maxQueueDepth
    ensures |Next(o, q, step).queue| <= o.maxQueueDepth
  {
  }

  // ---- retries ------------------------------------------------------------------------------

  function Calls(q: Queue, ticket: nat): nat {
    if ticket in q.history.calls then q.history.calls[ticket] else 0
  }

  function Slept(q: Queue, ticket: nat): nat {
    if ticket in q.history.slept then q.history.slept[ticket] else 0
  }

  /** How often the job of an activation has been called for, and how long it slept, follow from its attempt. */
  ghost predicate AttemptFits(o: Options, q: Queue, a: Activation) {
    match a
    case Writing(item, attempt) =>
      attempt <= o.maxRetries && Calls(q, item.ticket) == attempt + 1 &&
        Slept(q, item.ticket) == TotalDelayMs(o, attempt)
    case Sleeping(item, attempt) =>
      1 <= attempt <= o.maxRetries && Calls(q, item.ticket) == attempt &&
        Slept(q, item.ticket) == TotalDelayMs(o, attempt)
    case Recording(item) => true
  }

  /** A job is written at most `maxRetries + 1` times and sleeps exactly the delays between its writes. */
  ghost predicate TicketBounded(o: Options, q: Queue, ticket: nat) {
    var calls, slept := Calls(q, ticket), Slept(q, ticket);
    && calls <= o.maxRetries + 1
    && (calls == 0 ==> slept == 0)
    && (calls > 0 ==> slept == TotalDelayMs(o, calls - 1) || (calls <= o.maxRetries && slept == TotalDelayMs(o, calls)))
  }

  ghost predicate RetriesBounded(o: Options, q: Queue) {
    && (forall t: nat :: TicketBounded(o, q, t))
    && (forall id <- q.activations :: AttemptFits(o, q, q.activations[id]))
    && (forall t: nat | Calls(q, t) > 0 || Slept(q, t) > 0 :: Started(q, t))
  }

  ghost predicate Started(q: Queue, ticket: nat) {
    exists item <- q.history.started :: item.ticket == ticket
  }

  lemma CallWriteRetries(o: Options, q: Queue, id: nat, item: Item, attempt: nat)
    requires forall t: nat :: TicketBounded(o, q, t)
    requires q.activations.Keys <= {id}
    requires forall t: nat | Calls(q, t) > 0 || Slept(q, t) > 0 :: Started(q, t)
    requires Started(q, item.ticket)
    requires attempt <= o.maxRetries && Calls(q, item.ticket) == attempt &&
             Slept(q, item.ticket) == TotalDelayMs(o, attempt)
    ensures RetriesBounded(o, CallWrite(q, id, item, attempt))
  {
    var r := CallWrite(q, id, item, attempt);
    forall t: nat
      ensures TicketBounded(o, r, t)
      ensures Calls(r, t) > 0 || Slept(r, t) > 0 ==> Started(r, t)
    {
      assert TicketBounded(o, q, t);
      assert Slept(r, t) == Slept(q, t);
      assert Calls(r, t) == if t == item.ticket then attempt + 1 else Calls(q, t);
      assert Started(r, t) <==> Started(q, t);
    }
  }

  lemma LoopHeadRetries(o: Options, q: Queue, id: nat)
    requires q.activations.Keys <= {id}
    requires Accounted(q.(activations := map[]))
    requires RetriesBounded(o, q)
    ensures RetriesBounded(o, LoopHead(q, id))
  {
    if q.queue == [] {
      var r := LoopHead(q, id);
      forall t: nat
        ensures TicketBounded(o, r, t)
        ensures Calls(r, t) > 0 || Slept(r, t) > 0 ==> Started(r, t)
      {
        assert TicketBounded(o, q, t);
      }
    } else {
      var item := q.queue[0];
      var r := q.(queue := q.queue[1..], inFlight := 1, history := q.history.(started := q.history.started + [item]));
      assert !Started(q, item.ticket) by {
        NotYetStarted(q);
      }
      assert Calls(q, item.ticket) == 0 && Slept(q, item.ticket) == 0;
      forall t: nat
        ensures TicketBounded(o, r, t)
        ensures Calls(r, t) > 0 || Slept(r, t) > 0 ==> Started(r, t)
      {
        assert TicketBounded(o, q, t);
        if i :| i in q.history.started && i.ticket == t {
          assert i in r.history.started;
        }
      }
      assert item in r.history.started;
      CallWriteRetries(o, r, id, item, 0);
    }
  }

  lemma NotYetStarted(q: Queue)
    requires Accounted(q.(activations := map[])) && q.queue != []
    ensures !Started(q, q.queue[0].ticket)
  {
    var all := q.history.started + q.queue;
    var n := |q.history.started|;
    assert all[n] == q.queue[0];
    forall i | 0 <= i < n
      ensures q.history.started[i].ticket != q.queue[0].ticket
    {
      assert all[i] == q.history.started[i];
    }
  }

  /** Retries look at the started jobs, the calls, the sleeps and the activations only. */
  lemma RetriesIgnore(o: Options, q: Queue, r: Queue)
    requires RetriesBounded(o, q)
    requires r.activations == q.activations && r.history.started == q.history.started
    requires r.history.calls == q.history.calls && r.history.slept == q.history.slept
    ensures RetriesBounded(o, r)
  {
    forall t: nat
      ensures TicketBounded(o, r, t)
      ensures Calls(r, t) > 0 || Slept(r, t) > 0 ==> Started(r, t)
    {
      assert TicketBounded(o, q, t);
      assert Started(r, t) <==> Started(q, t);
    }
    forall id | id in r.activations
      ensures AttemptFits(o, r, r.activations[id])
    {
      assert AttemptFits(o, q, q.activations[id]);
    }
  }

  lemma ScheduleRetries(o: Options, q: Queue)
    requires OneDrainer(q) || (Quiet(q) && q.inFlight == 0)
    requires Accounted(q) && RetriesBounded(o, q)
    ensures RetriesBounded(o, ScheduleProcessing(q))
  {
    if !q.processing {
      var started := q.(processing := true, nextActivation := q.nextActivation + 1);
      RetriesIgnore(o, q, started);
      assert started.activations == map[];
      AccountedIgnores(q, started.(activations := map[]));
      LoopHeadRetries(o, started, q.nextActivation);
    }
  }

  lemma EnqueueRetries(o: Options, q: Queue, job: Job)
    requires OneDrainer(q) && Accounted(q) && RetriesBounded(o, q)
    ensures RetriesBounded(o, EnqueueStep(o, q, job))
  {
    if Accepts(o, q) {
      var pushed := Push(q, job);
      PushAccounted(q, job);
      RetriesIgnore(o, q, pushed);
      if q.processing {
        assert ScheduleProcessing(pushed) == pushed;
      } else {
        ScheduleRetries(o, pushed);
      }
    } else {
      RetriesIgnore(o, q, EnqueueStep(o, q, job));
    }
  }

  lemma WriteSucceedsRetries(o: Options, q: Queue, id: nat, events: nat, entries: nat)
    requires OneDrainer(q) && Accounted(q) && RetriesBounded(o, q)
    ensures RetriesBounded(o, WriteSucceedsStep(q, id, events, entries))
  {
    if id in q.activations && q.activations[id].Writing? {
      OnlyDrainer(q, id);
      UndecidedIs(q.activations, id);
      var decided := MarkWritten(q, q.activations[id].item, events, entries);
      RetriesIgnore(o, q, decided);
      LoopHeadRetries(o, decided, id);
    }
  }

  lemma GiveUpRetries(o: Options, q: Queue, id: nat, item: Item)
    requires RetriesBounded(o, q) && q.activations.Keys == {id}
    ensures RetriesBounded(o, GiveUp(q, id, item))
  {
    hide AttemptFits, TotalDelayMs;
    var r := GiveUp(q, id, item);
    assert AttemptFits(o, r, Recording(item)) by {
      RecordingFits(o, r, item);
    }
    forall t: nat
      ensures TicketBounded(o, r, t)
      ensures Calls(r, t) > 0 || Slept(r, t) > 0 ==> Started(r, t)
    {
      assert TicketBounded(o, q, t);
      assert Started(r, t) <==> Started(q, t);
    }
  }

  lemma RecordingFits(o: Options, q: Queue, item: Item)
    ensures AttemptFits(o, q, Recording(item))
  {
  }

  lemma SleepRetries(o: Options, q: Queue, id: nat, item: Item, attempt: nat)
    requires RetriesBounded(o, q) && q.activations.Keys == {id}
    requires AttemptFits(o, q, Writing(item, attempt)) && attempt < o.maxRetries
    ensures RetriesBounded(o, SleepFirst(o, q, id, item, attempt + 1))
  {
    hide RetryDelayMs;
    var r := SleepFirst(o, q, id, item, attempt + 1);
    forall t: nat
      ensures TicketBounded(o, r, t)
      ensures Calls(r, t) > 0 || Slept(r, t) > 0 ==> Started(r, t)
    {
      assert TicketBounded(o, q, t);
      assert Calls(r, t) == Calls(q, t);
      assert Started(r, t) <==> Started(q, t);
    }
  }

  lemma WriteFailsRetries(o: Options, q: Queue, id: nat, transient: bool)
    requires OneDrainer(q) && Accounted(q) && RetriesBounded(o, q)
    ensures RetriesBounded(o, WriteFailsStep(o, q, id, transient))
  {
    hide TicketBounded, AttemptFits, Accounted, GiveUp, SleepFirst;
    if id in q.activations && q.activations[id].Writing? {
      OnlyDrainer(q, id);
      var Writing(item, attempt) := q.activations[id];
      assert AttemptFits(o, q, q.activations[id]);
      if attempt >= o.maxRetries || !transient {
        GiveUpRetries(o, q, id, item);
      } else {
        SleepRetries(o, q, id, item, attempt);
      }
    }
  }

  lemma SleepEndsRetries(o: Options, q: Queue, id: nat)
    requires OneDrainer(q) && Accounted(q) && RetriesBounded(o, q)
    ensures RetriesBounded(o, SleepEndsStep(q, id))
  {
    if id in q.activations && q.activations[id].Sleeping? {
      OnlyDrainer(q, id);
      assert AttemptFits(o, q, q.activations[id]);
      assert Calls(q, q.activations[id].item.ticket) > 0;
      CallWriteRetries(o, q, id, q.activations[id].item, q.activations[id].attempt);
    }
  }

  lemma RecordEndsRetries(o: Options, q: Queue, id: nat)
    requires OneDrainer(q) && Accounted(q) && RetriesBounded(o, q)
    ensures RetriesBounded(o, RecordEndsStep(q, id))
  {
    if id in q.activations && q.activations[id].Recording? {
      OnlyDrainer(q, id);
      UndecidedIs(q.activations, id);
      RetriesIgnore(o, q, q.(inFlight := 0));
      LoopHeadRetries(o, q.(inFlight := 0), id);
    }
  }

  lemma StopCalledRetries(o: Options, q: Queue)
    requires OneDrainer(q) && Accounted(q) && RetriesBounded(o, q)
    ensures RetriesBounded(o, StopCalledStep(q))
  {
    if q.state != Stopped {
      var stopping := q.(state := Draining, stops := q.stops + 1);
      RetriesIgnore(o, q, stopping);
      AccountedIgnores(q, stopping);
      if !q.processing {
        ScheduleRetries(o, stopping);
      }
    }
  }

  lemma NextRetries(o: Options, q: Queue, step: Step)
    requires OneDrainer(q) && Accounted(q) && RetriesBounded(o, q)
    ensures RetriesBounded(o, Next(o, q, step))
  {
    hide Accounted, OneDrainer, RetriesBounded;
    match step
    case Enqueue(job) => EnqueueRetries(o, q, job);
    case StopCalled => StopCalledRetries(o, q);
    case StopReturns => RetriesIgnore(o, q, StopReturnsStep(q));
    case WriteSucceeds(id, events, entries) => WriteSucceedsRetries(o, q, id, events, entries);
    case WriteFails(id, transient) => WriteFailsRetries(o, q, id, transient);
    case SleepEnds(id) => SleepEndsRetries(o, q, id);
    case RecordEnds(id) => RecordEndsRetries(o, q, id);
  }

  // ---- every run ----------------------------------------------------------------------------

  lemma {:induction false} RunInvariant(o: Options, steps: seq<Step>)
    ensures var q := Run(o, steps);
      OneDrainer(q) && Accounted(q) && RetriesBounded(o, q) && |q.queue| <= o.maxQueueDepth
  {
    if steps == [] {
      InitialInvariant(o);
    } else {
      var n := |steps| - 1;
      RunInvariant(o, steps[..n]);
      NextOneDrainer(o, Run(o, steps[..n]), steps[n]);
      NextAccounted(o, Run(o, steps[..n]), steps[n]);
      NextRetries(o, Run(o, steps[..n]), steps[n]);
      NextDepth(o, Run(o, steps[..n]), steps[n]);
    }
  }

  lemma InitialInvariant(o: Options)
    ensures OneDrainer(INITIAL) && Accounted(INITIAL) && RetriesBounded(o, INITIAL)
  {
    assert forall t: nat :: Calls(INITIAL, t) == 0 && Slept(INITIAL, t) == 0;
  }

  /**
   * In every interleaving: at most one drainer and one job in flight, a non-empty queue has a live
   * drainer, and the depth limit holds.
   */
  lemma OneDrainerAlways(o: Options, steps: seq<Step>)
    ensures var q := Run(o, steps);
      |q.activations| <= 1 && q.inFlight == |q.activations| && (q.processing <==> |q.activations| == 1) &&
      (q.queue != [] ==> |q.activations| == 1) && |q.queue| <= o.maxQueueDepth
  {
    RunInvariant(o, steps);
  }

  /**
   * In every interleaving each accepted job is in exactly one place (written, failed, queued, still
   * being written, or dropped by a stop), and no job is in two.
   */
  lemma JobsConserved(o: Options, steps: seq<Step>)
    ensures var q := Run(o, steps);
      multiset(q.history.accepted) ==
        multiset(q.history.written) + multiset(q.history.failed) + Undecided(q.activations) +
        multiset(q.queue) + multiset(q.history.droppedAtStop)
    ensures var q := Run(o, steps);
      q.accepted == q.writtenJobs + q.failed + |Undecided(q.activations)| + |q.queue| + (q.dropped - q.history.refused)
    ensures var q := Run(o, steps);
      forall i, j | 0 <= i < j < |q.history.accepted| :: q.history.accepted[i] != q.history.accepted[j]
  {
    RunInvariant(o, steps);
    var q := Run(o, steps);
    assert |multiset(q.history.accepted)| == q.accepted;
  }

  /** Jobs are first written in the order they were accepted, ahead of everything still queued. */
  lemma WritesStartInOrder(o: Options, steps: seq<Step>)
    ensures var q := Run(o, steps);
      Increasing(q.history.started + q.queue) && forall item <- q.history.started + q.queue ::
        item.ticket < |q.history.accepted| && q.history.accepted[item.ticket] == item
  {
    RunInvariant(o, steps);
    var q := Run(o, steps);
    forall item | item in q.history.started + q.queue
      ensures item.ticket < |q.history.accepted| && q.history.accepted[item.ticket] == item
    {
      TicketsBounded(q, item);
    }
  }

  // ---- retry bounds -------------------------------------------------------------------------

  lemma {:induction false} Pow2Grows(m: nat, n: nat)
    requires m <= n
    ensures 1 <= Pow2(m) <= Pow2(n)
  {
    if m < n {
      Pow2Grows(m, n - 1);
    } else if n > 0 {
      Pow2Grows(n - 1, n - 1);
    }
  }

  /** Delays never decrease from one attempt to the next and never exceed the maximum. */
  lemma DelaysGrow(o: Options, attempt: nat, later: nat)
    requires attempt <= later
    ensures RetryDelayMs(o, attempt) <= RetryDelayMs(o, later) <= o.retryMaxMs
  {
    var a, b := if attempt == 0 then 0 else attempt - 1, if later == 0 then 0 else later - 1;
    Pow2Grows(a, b);
    Scaled(o.retryBaseMs, Pow2(a), Pow2(b));
  }

  lemma Scaled(k: nat, a: nat, b: nat)
    requires a <= b
    ensures k * a <= k * b
  {
  }

  lemma Geometric(base: nat, p: nat, total: nat, delay: nat)
    requires total <= base * (p - 1) && delay <= base * p
    ensures total + delay <= base * (2 * p - 1)
  {
    assert base * (p - 1) + base * p == base * (2 * p - 1);
  }

  lemma Linear(most: nat, n: nat, total: nat, delay: nat)
    requires total <= n * most && delay <= most
    ensures total + delay <= (n + 1) * most
  {
    assert n * most + most == (n + 1) * most;
  }

  /** The total sleep is bounded geometrically and linearly. */
  lemma {:induction false} TotalDelayBounded(o: Options, retries: nat)
    ensures TotalDelayMs(o, retries) <= o.retryBaseMs * (Pow2(retries) - 1)
    ensures TotalDelayMs(o, retries) <= retries * o.retryMaxMs
  {
    if retries > 0 {
      TotalDelayBounded(o, retries - 1);
      DelaysGrow(o, retries, retries);
      Pow2Grows(0, retries - 1);
      Geometric(o.retryBaseMs, Pow2(retries - 1), TotalDelayMs(o, retries - 1), RetryDelayMs(o, retries));
      Linear(o.retryMaxMs, retries - 1, TotalDelayMs(o, retries - 1), RetryDelayMs(o, retries));
    }
  }

  lemma {:induction false} TotalDelayGrows(o: Options, m: nat, n: nat)
    requires m <= n
    ensures TotalDelayMs(o, m) <= TotalDelayMs(o, n)
  {
    if m < n {
      TotalDelayGrows(o, m, n - 1);
    }
  }

  lemma TotalSleepBounded(o: Options, retries: nat)
    requires retries <= o.maxRetries
    ensures TotalDelayMs(o, retries) <= o.retryBaseMs * (Pow2(o.maxRetries) - 1)
    ensures TotalDelayMs(o, retries) <= o.maxRetries * o.retryMaxMs
  {
    TotalDelayGrows(o, retries, o.maxRetries);
    TotalDelayBounded(o, o.maxRetries);
  }

  lemma TicketTotal(o: Options, q: Queue, ticket: nat)
    requires TicketBounded(o, q, ticket)
    ensures Calls(q, ticket) <= o.maxRetries + 1
    ensures Slept(q, ticket) <= o.retryBaseMs * (Pow2(o.maxRetries) - 1)
    ensures Slept(q, ticket) <= o.maxRetries * o.retryMaxMs
  {
    hide Calls, Slept, TotalDelayMs, Pow2;
    var calls := Calls(q, ticket);
    TotalSleepBounded(o, 0);
    NoDelay(o);
    if calls > 0 {
      TotalSleepBounded(o, calls - 1);
      if calls <= o.maxRetries {
        TotalSleepBounded(o, calls);
      }
    }
  }

  /** So many retries have been made or are being slept for, and the sleep is theirs. */
  ghost predicate RetriesMade(o: Options, q: Queue, ticket: nat, retries: nat) {
    && retries <= o.maxRetries && retries <= Calls(q, ticket) <= retries + 1
    && Slept(q, ticket) == TotalDelayMs(o, retries)
    && Slept(q, ticket) <= o.retryBaseMs * (Pow2(retries) - 1)
    && Slept(q, ticket) <= retries * o.retryMaxMs
  }

  lemma TicketRetries(o: Options, q: Queue, ticket: nat) returns (retries: nat)
    requires TicketBounded(o, q, ticket)
    ensures RetriesMade(o, q, ticket, retries)
  {
    hide Calls, Slept, TotalDelayMs, Pow2;
    var calls := Calls(q, ticket);
    NoDelay(o);
    retries := if calls == 0 then 0 else if Slept(q, ticket) == TotalDelayMs(o, calls - 1) then calls - 1 else calls;
    TotalDelayBounded(o, retries);
  }

  lemma NoDelay(o: Options)
    ensures TotalDelayMs(o, 0) == 0
  {
  }

  /**
   * In every interleaving a job has made some number of retries, at most `maxRetries`: it was written
   * as often or once more, and has slept exactly the delays of those retries, within their bounds.
   */
  lemma RetriesBoundedAlways(o: Options, steps: seq<Step>, ticket: nat)
    ensures var q := Run(o, steps);
      && Calls(q, ticket) <= o.maxRetries + 1
      && Slept(q, ticket) <= o.retryBaseMs * (Pow2(o.maxRetries) - 1)
      && Slept(q, ticket) <= o.maxRetries * o.retryMaxMs
      && exists retries: nat :: RetriesMade(o, q, ticket, retries)
  {
    hide Run, OneDrainer, Accounted, TicketBounded, AttemptFits, Pow2, RetriesMade;
    RunInvariant(o, steps);
    assert TicketBounded(o, Run(o, steps), ticket);
    TicketTotal(o, Run(o, steps), ticket);
    var retries := TicketRetries(o, Run(o, steps), ticket);
  }

  // ---- stopping -----------------------------------------------------------------------------

  /** A job is refused exactly while draining or stopped, or when the queue is full. */
  lemma EnqueueAccepts(o: Options, q: Queue, job: Job)
    ensures (EnqueueStep(o, q, job).accepted == q.accepted + 1) <==> Accepts(o, q)
    ensures !Accepts(o, q) ==> EnqueueStep(o, q, job).queue == q.queue && EnqueueStep(o, q, job).accepted == q.accepted
  {
  }

  ghost predicate FinalFailure(o: Options, q: Queue, step: Step) {
    step.WriteFails? && step.id in q.activations && q.activations[step.id].Writing? &&
    (!step.transient || q.activations[step.id].attempt >= o.maxRetries)
  }

  /** The states in which no job is accepted, whatever room there is. */
  predicate Refusing(state: State) {
    state == Draining || state == Stopped
  }

  /**
   * Draining and stopped are left together exactly by a write that fails for good; otherwise a
   * stopped queue stays stopped and a draining one drains on until it is stopped.
   */
  lemma RefusalIsLeft(o: Options, q: Queue, step: Step)
    requires Refusing(q.state)
    ensures !Refusing(Next(o, q, step).state) <==> FinalFailure(o, q, step)
    ensures FinalFailure(o, q, step) ==> Next(o, q, step).state == Degraded
    ensures q.state == Stopped && !FinalFailure(o, q, step) ==> Next(o, q, step).state == Stopped
    ensures q.state == Draining && !FinalFailure(o, q, step) ==>
              (Next(o, q, step).state == Stopped <==> step.StopReturns? && q.stops > 0)
  {
  }

  /** A run in which a queue accepts jobs again while it is still being drained: the write in flight fails. */
  lemma DrainReopens(o: Options, job: Job)
    requires o.maxQueueDepth > 0
    ensures var draining := Run(o, [Enqueue(job), StopCalled]);
      draining.state == Draining && !Accepts(o, draining)
    ensures var reopened := Run(o, [Enqueue(job), StopCalled, WriteFails(0, false)]);
      Accepts(o, reopened) && reopened.stops == 1
  {
    var steps := [Enqueue(job), StopCalled, WriteFails(0, false)];
    assert steps[..2] == [Enqueue(job), StopCalled];
    assert steps[..2][..1] == [Enqueue(job)];
    assert [Enqueue(job)][..0] == [];
    assert Run(o, []) == INITIAL;
    var one := Run(o, [Enqueue(job)]);
    assert one == EnqueueStep(o, INITIAL, job);
    assert one.activations == map[0 := Writing(Item(job, 0), 0)] && one.queue == [] && one.processing;
    var two := Run(o, steps[..2]);
    assert two == StopCalledStep(one);
    assert Run(o, steps) == WriteFailsStep(o, two, 0, false);
  }

  /** A run in which a stopped queue accepts a job again: the write in flight at the stop fails. */
  lemma StoppedReopens(o: Options, job: Job)
    requires o.maxQueueDepth > 0
    ensures var stopped := Run(o, [Enqueue(job), StopCalled, StopReturns]);
      stopped.state == Stopped && !Accepts(o, stopped)
    ensures Accepts(o, Run(o, [Enqueue(job), StopCalled, StopReturns, WriteFails(0, false)]))
  {
    var steps := [Enqueue(job), StopCalled, StopReturns, WriteFails(0, false)];
    assert steps[..3] == [Enqueue(job), StopCalled, StopReturns];
    assert steps[..3][..2] == [Enqueue(job), StopCalled];
    assert steps[..3][..2][..1] == [Enqueue(job)];
    assert [Enqueue(job)][..0] == [];
    assert Run(o, []) == INITIAL;
    var one := Run(o, [Enqueue(job)]);
    assert one == EnqueueStep(o, INITIAL, job);
    assert one.activations == map[0 := Writing(Item(job, 0), 0)] && one.queue == [] && one.processing;
    var two := Run(o, steps[..3][..2]);
    assert two == StopCalledStep(one);
    var three := Run(o, steps[..3]);
    assert three == StopReturnsStep(two);
    assert Run(o, steps) == WriteFailsStep(o, three, 0, false);
  }
}
