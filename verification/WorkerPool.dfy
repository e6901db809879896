/**
 * The bounded worker pool `mapWithConcurrency` of apps/server/src/exchanges/spotPerformance.ts.
 * Every worker runs on its own up to its `await`; the mapper's answers come back in any order, and
 * a rejected call ends its worker while the others go on.
 */
module WorkerPool {
  import opened Wrappers

  datatype Worker = Awaiting(index: nat) | Done | Failed(index: nat)

  /** `calls` records the indices the mapper has been called on; the code keeps no such list. */
  datatype Pool<R> = Pool(nextIndex: nat, workers: seq<Worker>, results: seq<Option<R>>, calls: seq<nat>)

  datatype Step = Settle(worker: nat) | Reject(worker: nat)

  function WorkerCount(n: nat, concurrency: int): nat {
    var wanted := if concurrency < 1 then 1 else concurrency;
    if wanted <= n then wanted else n
  }

  /** What a worker does at the head of its loop: claim the next index and call the mapper, or finish. */
  function Claimed(pool: Pool): Worker {
    if pool.nextIndex < |pool.results| then Awaiting(pool.nextIndex) else Done
  }

  function Claim<R>(pool: Pool<R>): Pool<R> {
    if pool.nextIndex < |pool.results|
    then pool.(nextIndex := pool.nextIndex + 1, calls := pool.calls + [pool.nextIndex])
    else pool
  }

  /** The first `k` workers have been started. */
  function Started<R>(n: nat, k: nat): Pool<R> {
    if k == 0 then Pool(0, [], seq(n, _ => None), [])
    else
      var pool := Started<R>(n, k - 1);
      Claim(pool).(workers := pool.workers + [Claimed(pool)])
  }

  predicate Enabled(pool: Pool, step: Step) {
    step.worker < |pool.workers| && pool.workers[step.worker].Awaiting?
    && pool.workers[step.worker].index < |pool.results|
  }

  /** One answer of the mapper; an answer nobody waits for changes nothing. */
  function Next<T, R>(items: seq<T>, mapper: T -> R, pool: Pool<R>, step: Step): Pool<R>
    requires |pool.results| == |items|
  {
    if !Enabled(pool, step) then pool
    else
      var index := pool.workers[step.worker].index;
      match step
      case Settle(w) =>
        Claim(pool).(results := pool.results[index := Some(mapper(items[index]))],
                     workers := pool.workers[w := Claimed(pool)])
      case Reject(w) => pool.(workers := pool.workers[w := Failed(index)])
  }

  function Run<T, R>(items: seq<T>, concurrency: int, mapper: T -> R, steps: seq<Step>): (pool: Pool<R>)
    ensures |pool.results| == |items|
    decreases |steps|
  {
    if steps == [] then
      StartedSize<R>(|items|, WorkerCount(|items|, concurrency));
      Started(|items|, WorkerCount(|items|, concurrency))
    else Next(items, mapper, Run(items, concurrency, mapper, steps[..|steps| - 1]), steps[|steps| - 1])
  }

  lemma {:induction false} StartedSize<R>(n: nat, k: nat)
    ensures |Started<R>(n, k).results| == n && |Started<R>(n, k).workers| == k
  {
    if k > 0 {
      StartedSize<R>(n, k - 1);
    }
  }

  // ---- the invariant ------------------------------------------------------------------------

  predicate Holds(w: Worker, index: nat) {
    !w.Done? && w.index == index
  }

  predicate Held(workers: seq<Worker>, index: nat) {
    exists w | 0 <= w < |workers| :: Holds(workers[w], index)
  }

  /**
   * Every claimed index has its answer or exactly one worker that waits for it or failed on it, and
   * workers only finish when nothing is left to claim.
   */
  ghost predicate Sound<T, R>(items: seq<T>, mapper: T -> R, pool: Pool<R>) {
    && |pool.results| == |items| && pool.nextIndex <= |items|
    && |pool.calls| == pool.nextIndex && (forall i | 0 <= i < |pool.calls| :: pool.calls[i] == i)
    && (forall w <- pool.workers :: !w.Done? ==> w.index < pool.nextIndex && pool.results[w.index].None?)
    && (forall v, w | 0 <= v < w < |pool.workers| && !pool.workers[v].Done? && !pool.workers[w].Done? ::
          pool.workers[v].index != pool.workers[w].index)
    && (forall i | 0 <= i < pool.nextIndex ::
          pool.results[i] == Some(mapper(items[i])) || Held(pool.workers, i))
    && (forall i | pool.nextIndex <= i < |items| :: pool.results[i].None?)
    && (Done in pool.workers ==> pool.nextIndex == |items|)
  }

  lemma {:induction false} StartedPool<R>(n: nat, k: nat)
    requires k <= n
    ensures Started<R>(n, k) ==
            Pool(k, seq(k, i requires 0 <= i => Awaiting(i)), seq(n, _ => None), seq(k, i requires 0 <= i => i))
  {
    if k > 0 {
      StartedPool<R>(n, k - 1);
      assert seq(k, i requires 0 <= i => Awaiting(i)) == seq(k - 1, i requires 0 <= i => Awaiting(i)) +
             [Awaiting(k - 1)];
      assert seq(k, i requires 0 <= i => i) == seq(k - 1, i requires 0 <= i => i) + [k - 1];
    }
  }

  lemma StartSound<T, R>(items: seq<T>, mapper: T -> R, k: nat)
    requires k <= |items|
    ensures Sound(items, mapper, Started(|items|, k))
  {
    StartedPool<R>(|items|, k);
    var pool := Started<R>(|items|, k);
    forall i | 0 <= i < k
      ensures Held(pool.workers, i)
    {
      assert Holds(pool.workers[i], i);
    }
  }

  lemma SettleSound<T, R>(items: seq<T>, mapper: T -> R, pool: Pool<R>, w: nat)
    requires Sound(items, mapper, pool) && Enabled(pool, Settle(w))
    ensures Sound(items, mapper, Next(items, mapper, pool, Settle(w)))
  {
    var next, index := Next(items, mapper, pool, Settle(w)), pool.workers[w].index;
    forall i | 0 <= i < next.nextIndex
      ensures next.results[i] == Some(mapper(items[i])) || Held(next.workers, i)
    {
      if i == pool.nextIndex {
        assert Holds(next.workers[w], i);
      } else if i != index && Held(pool.workers, i) {
        var v :| 0 <= v < |pool.workers| && Holds(pool.workers[v], i);
        assert Holds(next.workers[v], i);
      }
    }
  }

  lemma RejectSound<T, R>(items: seq<T>, mapper: T -> R, pool: Pool<R>, w: nat)
    requires Sound(items, mapper, pool) && Enabled(pool, Reject(w))
    ensures Sound(items, mapper, Next(items, mapper, pool, Reject(w)))
  {
    var next, index := Next(items, mapper, pool, Reject(w)), pool.workers[w].index;
    forall i | 0 <= i < next.nextIndex
      ensures next.results[i] == Some(mapper(items[i])) || Held(next.workers, i)
    {
      if Held(pool.workers, i) {
        var v :| 0 <= v < |pool.workers| && Holds(pool.workers[v], i);
        assert Holds(next.workers[v], i);
      }
    }
  }

  lemma NextSound<T, R>(items: seq<T>, mapper: T -> R, pool: Pool<R>, step: Step)
    requires Sound(items, mapper, pool)
    ensures Sound(items, mapper, Next(items, mapper, pool, step))
    ensures |Next(items, mapper, pool, step).workers| == |pool.workers|
  {
    if Enabled(pool, step) {
      match step
      case Settle(w) => SettleSound(items, mapper, pool, w);
      case Reject(w) => RejectSound(items, mapper, pool, w);
    }
  }

  lemma {:induction false} RunSound<T, R>(items: seq<T>, concurrency: int, mapper: T -> R, steps: seq<Step>)
    ensures Sound(items, mapper, Run(items, concurrency, mapper, steps))
    ensures |Run(items, concurrency, mapper, steps).workers| == WorkerCount(|items|, concurrency)
  {
    hide Sound, Next;
    if steps == [] {
      StartSound(items, mapper, WorkerCount(|items|, concurrency));
      StartedSize<R>(|items|, WorkerCount(|items|, concurrency));
    } else {
      var n := |steps| - 1;
      RunSound(items, concurrency, mapper, steps[..n]);
      NextSound(items, mapper, Run(items, concurrency, mapper, steps[..n]), steps[n]);
    }
  }

  // ---- counting -----------------------------------------------------------------------------

  /** Mapper calls not yet answered. */
  function Outstanding(workers: seq<Worker>): nat {
    if workers == [] then 0
    else Outstanding(workers[..|workers| - 1]) + if workers[|workers| - 1].Awaiting? then 1 else 0
  }

  /** Answers still to come if nothing is rejected. */
  function Left(pool: Pool): int {
    |pool.results| - pool.nextIndex + Outstanding(pool.workers)
  }

  lemma {:induction false} OutstandingBounded(workers: seq<Worker>)
    ensures Outstanding(workers) <= |workers|
    ensures Outstanding(workers) == 0 <==> forall w <- workers :: !w.Awaiting?
  {
    if workers != [] {
      OutstandingBounded(workers[..|workers| - 1]);
      assert workers == workers[..|workers| - 1] + [workers[|workers| - 1]];
    }
  }

  lemma {:induction false} OutstandingReplaced(workers: seq<Worker>, w: nat, worker: Worker)
    requires w < |workers| && workers[w].Awaiting?
    ensures Outstanding(workers[w := worker]) == Outstanding(workers) - if worker.Awaiting? then 0 else 1
  {
    var n := |workers| - 1;
    if w < n {
      OutstandingReplaced(workers[..n], w, worker);
      assert workers[w := worker][..n] == workers[..n][w := worker];
    } else {
      assert workers[w := worker][..n] == workers[..n];
    }
  }

  // ---- every interleaving -------------------------------------------------------------------

  /** The mapper is called on each index at most once, in input order. */
  lemma CalledOnceInOrder<T, R>(items: seq<T>, concurrency: int, mapper: T -> R, steps: seq<Step>)
    ensures var calls := Run(items, concurrency, mapper, steps).calls;
      |calls| <= |items| && forall i | 0 <= i < |calls| :: calls[i] == i
  {
    RunSound(items, concurrency, mapper, steps);
  }

  /** Never more calls outstanding than workers, whatever was asked for, nor than items. */
  lemma OutstandingAlwaysBounded<T, R>(items: seq<T>, concurrency: int, mapper: T -> R, steps: seq<Step>)
    ensures Outstanding(Run(items, concurrency, mapper, steps).workers) <= |items|
    ensures Outstanding(Run(items, concurrency, mapper, steps).workers) <= if concurrency < 1 then 1 else concurrency
  {
    hide Sound;
    RunSound(items, concurrency, mapper, steps);
    OutstandingBounded(Run(items, concurrency, mapper, steps).workers);
  }

  /** Every answer brings the end nearer by one, a rejection included. */
  lemma AnswersCountDown<T, R>(items: seq<T>, mapper: T -> R, pool: Pool<R>, step: Step)
    requires Sound(items, mapper, pool) && Enabled(pool, step)
    ensures Left(Next(items, mapper, pool, step)) == Left(pool) - 1
  {
    var next := Next(items, mapper, pool, step);
    OutstandingReplaced(pool.workers, step.worker, next.workers[step.worker]);
  }

  predicate AnyFailed(workers: seq<Worker>) {
    exists w <- workers :: w.Failed?
  }

  /** The pool never stalls: unless it is over, some worker waits for an answer. */
  lemma NeverStalls<T, R>(items: seq<T>, concurrency: int, mapper: T -> R, steps: seq<Step>)
    ensures var pool := Run(items, concurrency, mapper, steps);
      Outstanding(pool.workers) > 0 || AnyFailed(pool.workers) || Left(pool) == 0
  {
    RunSound(items, concurrency, mapper, steps);
    var pool := Run(items, concurrency, mapper, steps);
    OutstandingBounded(pool.workers);
    if Outstanding(pool.workers) == 0 && !AnyFailed(pool.workers) {
      if pool.workers == [] {
        assert |items| == 0;
      } else {
        assert pool.workers[0] in pool.workers;
      }
    }
  }

  /** How many of these answers somebody waited for. */
  function Answered<T, R>(items: seq<T>, concurrency: int, mapper: T -> R, steps: seq<Step>): nat {
    if steps == [] then 0
    else
      var front := steps[..|steps| - 1];
      Answered(items, concurrency, mapper, front) +
      if Enabled(Run(items, concurrency, mapper, front), steps[|steps| - 1]) then 1 else 0
  }

  lemma {:induction false} LeftAtStart<R>(n: nat, k: nat)
    requires k <= n
    ensures Left(Started<R>(n, k)) == n
  {
    StartedPool<R>(n, k);
    if k > 0 {
      LeftAtStart<R>(n, k - 1);
      StartedPool<R>(n, k - 1);
      var workers := Started<R>(n, k).workers;
      assert workers[..k - 1] == Started<R>(n, k - 1).workers;
    }
  }

  /** What is left is the items minus the answers so far, so there are at most as many answers as items. */
  lemma {:induction false} AnswersBounded<T, R>(items: seq<T>, concurrency: int, mapper: T -> R, steps: seq<Step>)
    ensures Left(Run(items, concurrency, mapper, steps)) == |items| - Answered(items, concurrency, mapper, steps)
    ensures Answered(items, concurrency, mapper, steps) <= |items|
  {
    hide Sound, Left;
    if steps == [] {
      LeftAtStart<R>(|items|, WorkerCount(|items|, concurrency));
    } else {
      var front := steps[..|steps| - 1];
      AnswersBounded(items, concurrency, mapper, front);
      RunSound(items, concurrency, mapper, front);
      if Enabled(Run(items, concurrency, mapper, front), steps[|steps| - 1]) {
        AnswersCountDown(items, mapper, Run(items, concurrency, mapper, front), steps[|steps| - 1]);
      }
    }
    RunSound(items, concurrency, mapper, steps);
    SoundLeft(items, mapper, Run(items, concurrency, mapper, steps));
  }

  lemma SoundLeft<T, R>(items: seq<T>, mapper: T -> R, pool: Pool<R>)
    requires Sound(items, mapper, pool)
    ensures Left(pool) >= 0
  {
  }

  lemma AllSettled<T, R>(items: seq<T>, mapper: T -> R, pool: Pool<R>)
    requires Sound(items, mapper, pool) && (items != [] ==> pool.workers != [])
    requires forall w <- pool.workers :: w.Done?
    ensures forall i | 0 <= i < |items| :: pool.results[i] == Some(mapper(items[i]))
  {
    if items != [] {
      assert pool.workers[0] in pool.workers;
    }
    forall i | 0 <= i < |items|
      ensures pool.results[i] == Some(mapper(items[i]))
    {
      assert !Held(pool.workers, i);
    }
  }

  /** When every worker is done the results are the mapped items, in input order. */
  lemma ResultsInInputOrder<T, R>(items: seq<T>, concurrency: int, mapper: T -> R, steps: seq<Step>)
    requires forall w <- Run(items, concurrency, mapper, steps).workers :: w.Done?
    ensures Run(items, concurrency, mapper, steps).results ==
            seq(|items|, i requires 0 <= i < |items| => Some(mapper(items[i])))
  {
    RunSound(items, concurrency, mapper, steps);
    AllSettled(items, mapper, Run(items, concurrency, mapper, steps));
  }

  // ---- the pool as it runs ------------------------------------------------------------------

  /** Workers have failed only on calls that fail, and answers have come only from calls that do not. */
  ghost predicate Truthful<T, R>(items: seq<T>, fails: T -> bool, pool: Pool<R>) {
    && |pool.results| == |items|
    && (forall w <- pool.workers :: w.Failed? ==> w.index < |items| && fails(items[w.index]))
    && (forall i | 0 <= i < |items| && pool.results[i].Some? :: !fails(items[i]))
  }

  lemma NextTruthful<T, R>(items: seq<T>, mapper: T -> R, fails: T -> bool, pool: Pool<R>, step: Step)
    requires Truthful(items, fails, pool) && Enabled(pool, step)
    requires step.Reject? <==> fails(items[pool.workers[step.worker].index])
    ensures Truthful(items, fails, Next(items, mapper, pool, step))
  {
  }

  lemma AwaitedEnabled<T, R>(items: seq<T>, mapper: T -> R, pool: Pool<R>, step: Step)
    requires Sound(items, mapper, pool) && step.worker < |pool.workers| && pool.workers[step.worker].Awaiting?
    ensures Enabled(pool, step)
  {
    assert pool.workers[step.worker] in pool.workers;
  }

  lemma FailureExplained<T, R>(items: seq<T>, mapper: T -> R, fails: T -> bool, pool: Pool<R>)
    requires Sound(items, mapper, pool) && Truthful(items, fails, pool)
    requires items != [] ==> pool.workers != []
    requires forall w <- pool.workers :: !w.Awaiting?
    ensures AnyFailed(pool.workers) <==> exists x <- items :: fails(x)
    ensures !AnyFailed(pool.workers) ==>
              forall i | 0 <= i < |items| :: pool.results[i] == Some(mapper(items[i]))
  {
    if AnyFailed(pool.workers) {
      var w :| w in pool.workers && w.Failed?;
      assert items[w.index] in items;
    } else {
      AllSettled(items, mapper, pool);
    }
  }

  /** Answers come in any order; calls on items that `fails` picks out are rejected. */
  method MapWithConcurrency<T, R>(items: seq<T>, concurrency: int, mapper: T -> R, fails: T -> bool)
    returns (r: Option<seq<R>>)
    ensures r.Some? <==> forall x <- items :: !fails(x)
    ensures r.Some? ==> r.value == seq(|items|, i requires 0 <= i < |items| => mapper(items[i]))
  {
    hide Sound, Left, Truthful, Next;
    var pool := Started<R>(|items|, WorkerCount(|items|, concurrency));
    StartSound(items, mapper, WorkerCount(|items|, concurrency));
    StartedPool<R>(|items|, WorkerCount(|items|, concurrency));
    StartTruthful(items, fails, pool);
    SoundLeft(items, mapper, pool);
    while exists w | 0 <= w < |pool.workers| :: pool.workers[w].Awaiting?
      invariant Sound(items, mapper, pool) && Truthful(items, fails, pool)
      invariant |pool.workers| == WorkerCount(|items|, concurrency) && |pool.results| == |items| && Left(pool) >= 0
      decreases Left(pool)
    {
      var w :| 0 <= w < |pool.workers| && pool.workers[w].Awaiting?;
      AwaitedEnabled(items, mapper, pool, Settle(w));
      var step := if fails(items[pool.workers[w].index]) then Reject(w) else Settle(w);
      AnswersCountDown(items, mapper, pool, step);
      NextTruthful(items, mapper, fails, pool, step);
      NextSound(items, mapper, pool, step);
      pool := Next(items, mapper, pool, step);
      SoundLeft(items, mapper, pool);
    }
    FailureExplained(items, mapper, fails, pool);
    if AnyFailed(pool.workers) {
      return None;
    }
    r := Some(seq(|items|, i requires 0 <= i < |items| => pool.results[i].value));
  }

  lemma StartTruthful<T, R>(items: seq<T>, fails: T -> bool, pool: Pool<R>)
    requires |pool.results| == |items| && forall i | 0 <= i < |items| :: pool.results[i].None?
    requires forall w <- pool.workers :: w.Awaiting?
    ensures Truthful(items, fails, pool)
  {
  }
}
