/**
 * The durable ingestion queue (apps/server/src/db/durableIngestion.ts) as a protocol: every stretch
 * of code between two `await` points is one step, and the steps of the drainer, of callers of
 * `enqueue` and of callers of `stop` interleave freely. Callbacks are taken not to throw.
 */
module DurableQueue {
  /** A raw event with what the queue keeps about it. */
  datatype Job = Job(raw: string, endpoint: string, receivedAt: int, normalizedEventIds: seq<string>)

  /** A queued job; the ticket is its place in the order of acceptance. */
  datatype Item = Item(job: Job, ticket: nat)

  datatype Options = Options(maxQueueDepth: nat, maxRetries: nat, retryBaseMs: nat, retryMaxMs: nat)

  datatype State = Running | Draining | Stopped | Degraded

  /** Where an activation of `processQueue` is suspended. */
  datatype Activation =
    | Writing(item: Item, attempt: nat)
    | Sleeping(item: Item, attempt: nat)
    | Recording(item: Item)

  /** What has happened so far; the source keeps only counts of it. */
  datatype History = History(
    accepted: seq<Item>,
    started: seq<Item>,
    written: seq<Item>,
    failed: seq<Item>,
    droppedAtStop: seq<Item>,
    refused: nat,
    calls: map<nat, nat>,
    slept: map<nat, nat>)

  datatype Queue = Queue(
    queue: seq<Item>,
    processing: bool,
    inFlight: nat,
    state: State,
    connected: bool,
    accepted: nat,
    writtenJobs: nat,
    writtenEvents: nat,
    writtenEntries: nat,
    dropped: nat,
    failed: nat,
    retried: nat,
    activations: map<nat, Activation>,
    nextActivation: nat,
    stops: nat,
    history: History)

  const INITIAL: Queue :=
    Queue([], false, 0, Running, true, 0, 0, 0, 0, 0, 0, 0, map[], 0, 0, History([], [], [], [], [], 0, map[], map[]))

  datatype Step =
    | Enqueue(job: Job)
    | StopCalled
    | StopReturns
    | WriteSucceeds(id: nat, events: nat, entries: nat)
    | WriteFails(id: nat, transient: bool)
    | SleepEnds(id: nat)
    | RecordEnds(id: nat)

  // ---- retry delays -------------------------------------------------------------------------

  function Pow2(n: nat): nat {
    if n == 0 then 1 else 2 * Pow2(n - 1)
  }

  function RetryDelayMs(o: Options, attempt: nat): nat {
    var exponential := o.retryBaseMs * Pow2(if attempt == 0 then 0 else attempt - 1);
    if o.retryMaxMs <= exponential then o.retryMaxMs else exponential
  }

  /** The time slept over the first retries of a job. */
  function TotalDelayMs(o: Options, retries: nat): nat {
    if retries == 0 then 0 else TotalDelayMs(o, retries - 1) + RetryDelayMs(o, retries)
  }

  // ---- the code between awaits --------------------------------------------------------------

  /** Calling `ingestRawEvent` and suspending on it. */
  function CallWrite(q: Queue, id: nat, item: Item, attempt: nat): Queue {
    var calls := q.history.calls;
    var before := if item.ticket in calls then calls[item.ticket] else 0;
    q.(activations := q.activations[id := Writing(item, attempt)],
       history := q.history.(calls := calls[item.ticket := before + 1]))
  }

  /** `processQueue` from its loop head to the next await, or to its end. */
  function LoopHead(q: Queue, id: nat): Queue {
    if q.queue != [] then
      var item := q.queue[0];
      CallWrite(q.(queue := q.queue[1..], inFlight := 1, history := q.history.(started := q.history.started + [item])),
                id, item, 0)
    else
      q.(processing := false, activations := q.activations - {id})
  }

  function ScheduleProcessing(q: Queue): Queue {
    if q.processing then q
    else LoopHead(q.(processing := true, nextActivation := q.nextActivation + 1), q.nextActivation)
  }

  predicate Accepts(o: Options, q: Queue) {
    q.state != Draining && q.state != Stopped && |q.queue| < o.maxQueueDepth
  }

  function Push(q: Queue, job: Job): Queue {
    var item := Item(job, q.accepted);
    q.(queue := q.queue + [item], accepted := q.accepted + 1,
       history := q.history.(accepted := q.history.accepted + [item]))
  }

  function EnqueueStep(o: Options, q: Queue, job: Job): Queue {
    if q.state == Draining || q.state == Stopped then q
    else if |q.queue| >= o.maxQueueDepth then
      q.(dropped := q.dropped + 1, state := Degraded, history := q.history.(refused := q.history.refused + 1))
    else ScheduleProcessing(Push(q, job))
  }

  function StopCalledStep(q: Queue): Queue {
    if q.state == Stopped then q
    else ScheduleProcessing(q.(state := Draining, stops := q.stops + 1))
  }

  /** A waiting `stop` goes on: the queue is idle, or its deadline has passed. */
  function StopReturnsStep(q: Queue): Queue {
    if q.stops == 0 then q
    else
      q.(stops := q.stops - 1, state := Stopped, queue := [], dropped := q.dropped + |q.queue|,
         history := q.history.(droppedAtStop := q.history.droppedAtStop + q.queue))
  }

  function MarkWritten(q: Queue, item: Item, events: nat, entries: nat): Queue {
    q.(connected := true, writtenJobs := q.writtenJobs + 1, writtenEvents := q.writtenEvents + events,
       writtenEntries := q.writtenEntries + entries, inFlight := 0,
       state := if q.state == Degraded then Running else q.state,
       history := q.history.(written := q.history.written + [item]))
  }

  function WriteSucceedsStep(q: Queue, id: nat, events: nat, entries: nat): Queue {
    if id !in q.activations || !q.activations[id].Writing? then q
    else LoopHead(MarkWritten(q, q.activations[id].item, events, entries), id)
  }

  /** The job is given up and its failure is about to be recorded. */
  function GiveUp(q: Queue, id: nat, item: Item): Queue {
    q.(connected := false, failed := q.failed + 1, state := Degraded,
       activations := q.activations[id := Recording(item)],
       history := q.history.(failed := q.history.failed + [item]))
  }

  /** The job will be written again after a sleep; `attempt` counts the retries. */
  function SleepFirst(o: Options, q: Queue, id: nat, item: Item, attempt: nat): Queue {
    var slept := q.history.slept;
    var before := if item.ticket in slept then slept[item.ticket] else 0;
    q.(retried := q.retried + 1,
       activations := q.activations[id := Sleeping(item, attempt)],
       history := q.history.(slept := slept[item.ticket := before + RetryDelayMs(o, attempt)]))
  }

  function WriteFailsStep(o: Options, q: Queue, id: nat, transient: bool): Queue {
    if id !in q.activations || !q.activations[id].Writing? then q
    else
      var Writing(item, attempt) := q.activations[id];
      if attempt >= o.maxRetries || !transient then GiveUp(q, id, item) else SleepFirst(o, q, id, item, attempt + 1)
  }

  function SleepEndsStep(q: Queue, id: nat): Queue {
    if id !in q.activations || !q.activations[id].Sleeping? then q
    else CallWrite(q, id, q.activations[id].item, q.activations[id].attempt)
  }

  function RecordEndsStep(q: Queue, id: nat): Queue {
    if id !in q.activations || !q.activations[id].Recording? then q
    else LoopHead(q.(inFlight := 0), id)
  }

  function Next(o: Options, q: Queue, step: Step): Queue {
    match step
    case Enqueue(job) => EnqueueStep(o, q, job)
    case StopCalled => StopCalledStep(q)
    case StopReturns => StopReturnsStep(q)
    case WriteSucceeds(id, events, entries) => WriteSucceedsStep(q, id, events, entries)
    case WriteFails(id, transient) => WriteFailsStep(o, q, id, transient)
    case SleepEnds(id) => SleepEndsStep(q, id)
    case RecordEnds(id) => RecordEndsStep(q, id)
  }

  /** The state after a sequence of steps; steps of activations that are not there change nothing. */
  function Run(o: Options, steps: seq<Step>): Queue {
    if steps == [] then INITIAL else Next(o, Run(o, steps[..|steps| - 1]), steps[|steps| - 1])
  }

  // ---- the class ----------------------------------------------------------------------------

  /**
   * The source's class. `activations` stands for the suspended calls of `processQueue` that the
   * JavaScript runtime keeps, `stops` for the suspended calls of `stop`; `history` is specification only.
   */
  class DurableIngestionQueue {
    const options: Options
    var queue: seq<Item>
    var processing: bool
    var inFlight: nat
    var state: State
    var connected: bool
    var accepted: nat
    var writtenJobs: nat
    var writtenEvents: nat
    var writtenEntries: nat
    var dropped: nat
    var failed: nat
    var retried: nat
    var activations: map<nat, Activation>
    var nextActivation: nat
    var stops: nat
    ghost var history: History

    ghost function View(): Queue
      reads this
    {
      Queue(queue, processing, inFlight, state, connected, accepted, writtenJobs, writtenEvents, writtenEntries,
            dropped, failed, retried, activations, nextActivation, stops, history)
    }

    constructor (options: Options)
      ensures View() == INITIAL
      ensures this.options == options
    {
      this.options := options;
      queue, processing, inFlight, state, connected := [], false, 0, Running, true;
      accepted, writtenJobs, writtenEvents, writtenEntries := 0, 0, 0, 0;
      dropped, failed, retried := 0, 0, 0;
      activations, nextActivation, stops := map[], 0, 0;
      history := INITIAL.history;
    }

    method Enqueue(job: Job) returns (ok: bool)
      modifies this
      ensures View() == EnqueueStep(options, old(View()), job)
      ensures ok == Accepts(options, old(View()))
    {
      hide Push, ScheduleProcessing;
      if state == Draining || state == Stopped {
        return false;
      }
      if |queue| >= options.maxQueueDepth {
        dropped := dropped + 1;
        state := Degraded;
        history := history.(refused := history.refused + 1);
        return false;
      }
      PushJob(job);
      ScheduleDrainer();
      return true;
    }

    method PushJob(job: Job)
      modifies `queue, `accepted, `history
      ensures View() == Push(old(View()), job)
    {
      var item := Item(job, accepted);
      queue := queue + [item];
      accepted := accepted + 1;
      history := history.(accepted := history.accepted + [item]);
    }

    /** `stop` up to its first wait. */
    method Stop()
      modifies this
      ensures View() == StopCalledStep(old(View()))
    {
      if state == Stopped {
        return;
      }
      hide ScheduleProcessing;
      state := Draining;
      stops := stops + 1;
      ScheduleDrainer();
    }

    /** `stop` after its wait, because the queue went idle or the deadline passed. */
    method FinishStop()
      modifies this
      ensures View() == StopReturnsStep(old(View()))
    {
      if stops == 0 {
        return;
      }
      stops := stops - 1;
      if |queue| > 0 {
        dropped := dropped + |queue|;
        history := history.(droppedAtStop := history.droppedAtStop + queue);
        queue := [];
      }
      state := Stopped;
    }

    method ScheduleDrainer()
      modifies this
      ensures View() == ScheduleProcessing(old(View()))
    {
      if processing {
        return;
      }
      processing := true;
      nextActivation := nextActivation + 1;
      Drain(nextActivation - 1);
    }

    /** `processQueue` from its loop head to the next await; the loop only leaves when the queue is empty. */
    method Drain(id: nat)
      modifies this
      ensures View() == LoopHead(old(View()), id)
    {
      if |queue| > 0 {
        var item := queue[0];
        queue := queue[1..];
        inFlight := 1;
        history := history.(started := history.started + [item]);
        StartWrite(id, item, 0);
      } else {
        processing := false;
        activations := activations - {id};
      }
    }

    method StartWrite(id: nat, item: Item, attempt: nat)
      modifies this
      ensures View() == CallWrite(old(View()), id, item, attempt)
    {
      activations := activations[id := Writing(item, attempt)];
      history := CallWrite(View(), id, item, attempt).history;
    }

    method LogWritten(item: Item, events: nat, entries: nat)
      modifies `writtenEvents, `writtenEntries, `history
      ensures writtenEvents == old(writtenEvents) + events && writtenEntries == old(writtenEntries) + entries
      ensures history == old(history).(written := old(history).written + [item])
    {
      writtenEvents := writtenEvents + events;
      writtenEntries := writtenEntries + entries;
      history := history.(written := history.written + [item]);
    }

    /** What a successful write counts and clears. */
    method CountWrite(item: Item, events: nat, entries: nat)
      modifies `connected, `inFlight, `writtenJobs, `writtenEvents, `writtenEntries, `state, `history
      ensures View() == MarkWritten(old(View()), item, events, entries)
    {
      if state == Degraded {
        state := Running;
      }
      connected, inFlight, writtenJobs := true, 0, writtenJobs + 1;
      LogWritten(item, events, entries);
    }

    /** The awaited write resolves. */
    method OnWritten(id: nat, events: nat, entries: nat)
      modifies this
      ensures View() == WriteSucceedsStep(old(View()), id, events, entries)
    {
      hide LoopHead, MarkWritten;
      if id in activations && activations[id].Writing? {
        CountWrite(activations[id].item, events, entries);
        Drain(id);
      }
    }

    method FailJob(id: nat, item: Item)
      modifies `connected, `failed, `state, `activations, `history
      ensures View() == GiveUp(old(View()), id, item)
    {
      connected := false;
      failed := failed + 1;
      state := Degraded;
      activations := activations[id := Recording(item)];
      history := history.(failed := history.failed + [item]);
    }

    method RetryJob(id: nat, item: Item, attempt: nat)
      modifies `retried, `activations, `history
      ensures View() == SleepFirst(options, old(View()), id, item, attempt)
    {
      history := SleepFirst(options, View(), id, item, attempt).history;
      retried := retried + 1;
      activations := activations[id := Sleeping(item, attempt)];
    }

    /** The awaited write rejects: sleep and retry, or give the job up and record the failure. */
    method OnWriteError(id: nat, transient: bool)
      modifies this
      ensures View() == WriteFailsStep(options, old(View()), id, transient)
    {
      hide GiveUp, SleepFirst;
      if id !in activations || !activations[id].Writing? {
        return;
      }
      var item, attempt := activations[id].item, activations[id].attempt;
      if attempt >= options.maxRetries || !transient {
        FailJob(id, item);
      } else {
        attempt := attempt + 1;
        RetryJob(id, item, attempt);
      }
    }

    method OnSlept(id: nat)
      modifies this
      ensures View() == SleepEndsStep(old(View()), id)
    {
      if id in activations && activations[id].Sleeping? {
        StartWrite(id, activations[id].item, activations[id].attempt);
      }
    }

    /** `recordFailure` is over, whether it succeeded or was logged. */
    method OnRecorded(id: nat)
      modifies this
      ensures View() == RecordEndsStep(old(View()), id)
    {
      hide LoopHead;
      if id in activations && activations[id].Recording? {
        inFlight := 0;
        Drain(id);
      }
    }
  }
}
