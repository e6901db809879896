/**
 * The score worker (apps/server/src/scoring/scoreWorker.ts) as a protocol: a run is the code between
 * the awaits of `recomputeNow`, and events may enqueue coins or call for another run in between.
 * The coins of an event are taken as extracted.
 */
module ScoreWorker {
  import opened Wrappers
  import opened Sequences
  import opened ScoreModel
  import opened ScoreEngine
  import opened ScoreRepository
  import opened ScoreHistory

  datatype Options = Options(
    enabled: bool, maxQueueDepth: nat, batchCoins: nat, thresholds: Thresholds,
    env: Env, config: Config, windowsMinutes: seq<int>)

  ghost predicate ValidOptions(o: Options) {
    ValidEnv(o.env) && ValidConfig(o.config)
  }

  /**
   * Where the one run is suspended: on the configuration, on the candidate query, or on reading rows and
   * writing scores.
   */
  datatype Phase =
    | Idle
    | Ensuring(given: Option<seq<string>>, asOf: int)
    | Selecting(asOf: int)
    | Scoring(coins: seq<string>, asOf: int)

  datatype Counters = Counters(processed: nat, written: nat, skipped: nat, failed: nat, evidence: nat)

  /** `committed` records the writes that reached the tables. */
  datatype Worker = Worker(pending: seq<string>, phase: Phase, counters: Counters, tables: Tables,
                           committed: seq<Write>)

  const INITIAL: Worker := Worker([], Idle, Counters(0, 0, 0, 0, 0), Tables(map[], map[]), [])

  datatype Step =
    | Enqueue(coins: seq<string>)
    | Recompute(given: Option<seq<string>>, to: Option<int>, now: int)
    | ConfigEnsured
    | CandidatesRead(coins: seq<string>)
    | ScoresWritten(rows: seq<SourceRow>)
    | RunFails

  predicate Admits(o: Options, pending: seq<string>, coin: string) {
    |pending| < o.maxQueueDepth || coin in pending
  }

  function AddCoin(o: Options, pending: seq<string>, coin: string): seq<string> {
    if Admits(o, pending, coin) && coin !in pending then pending + [coin] else pending
  }

  function AddCoins(o: Options, pending: seq<string>, coins: seq<string>): seq<string> {
    if coins == [] then pending else AddCoin(o, AddCoins(o, pending, coins[..|coins| - 1]), coins[|coins| - 1])
  }

  /** Some coin is pending or finds room when its turn comes. */
  predicate AnyAdmitted(o: Options, pending: seq<string>, coins: seq<string>) {
    coins != [] &&
    (AnyAdmitted(o, pending, coins[..|coins| - 1]) ||
     Admits(o, AddCoins(o, pending, coins[..|coins| - 1]), coins[|coins| - 1]))
  }

  /** The run keeps the first coins only; the others are not put back. */
  function Limited(o: Options, coins: seq<string>): seq<string> {
    var distinct := FirstOccurrences(coins);
    if |distinct| <= o.batchCoins then distinct else distinct[..o.batchCoins]
  }

  function Selected(o: Options, w: Worker, coins: seq<string>, asOf: int): Worker {
    if Limited(o, coins) == [] then w.(phase := Idle) else w.(phase := Scoring(Limited(o, coins), asOf))
  }

  function UpperAll(o: Options, coins: seq<string>): seq<string> {
    seq(|coins|, i requires 0 <= i < |coins| => o.env.upper(coins[i]))
  }

  /** The instant a run is for: the one asked for, or else when it began. */
  function AsOf(to: Option<int>, now: int): int {
    to.GetOr(now)
  }

  /** The writes of a run over the rows it read. */
  function ScoreWrites(o: Options, coins: seq<string>, asOf: int, rows: seq<SourceRow>): seq<Write>
    requires ValidOptions(o)
  {
    WritesOf(o.config.version, Scores(o.env, o.config, asOf, coins, rows, Some(o.windowsMinutes)))
  }

  function Counted(c: Counters, n: nat, written: Counts): Counters {
    c.(processed := c.processed + n, written := c.written + written.snapshotsWritten,
       skipped := c.skipped + written.skippedSnapshots, evidence := c.evidence + written.evidenceWritten)
  }

  function Committed(o: Options, w: Worker, ws: seq<Write>): Worker {
    w.(phase := Idle, tables := WrittenAll(o.thresholds, w.tables, ws),
       counters := Counted(w.counters, |ws|, WriteCounts(o.thresholds, w.tables, ws)),
       committed := w.committed + ws)
  }

  function Next(o: Options, w: Worker, step: Step): Worker
    requires ValidOptions(o)
  {
    match step
    case Enqueue(coins) => if o.enabled then w.(pending := AddCoins(o, w.pending, coins)) else w
    case Recompute(given, to, now) =>
      if o.enabled && w.phase.Idle? then w.(phase := Ensuring(given, AsOf(to, now))) else w
    case ConfigEnsured =>
      if !w.phase.Ensuring? then w
      else
        var taken := if w.phase.given.Some? then w else w.(pending := []);
        var queued := if w.phase.given.Some? then UpperAll(o, w.phase.given.value) else w.pending;
        if queued == [] then taken.(phase := Selecting(w.phase.asOf)) else Selected(o, taken, queued, w.phase.asOf)
    case CandidatesRead(coins) => if w.phase.Selecting? then Selected(o, w, coins, w.phase.asOf) else w
    case ScoresWritten(rows) =>
      if w.phase.Scoring? then Committed(o, w, ScoreWrites(o, w.phase.coins, w.phase.asOf, rows)) else w
    case RunFails =>
      if w.phase.Idle? then w else w.(phase := Idle, counters := w.counters.(failed := w.counters.failed + 1))
  }

  function Run(o: Options, steps: seq<Step>): Worker
    requires ValidOptions(o)
  {
    if steps == [] then INITIAL else Next(o, Run(o, steps[..|steps| - 1]), steps[|steps| - 1])
  }

  // ---- every interleaving -------------------------------------------------------------------

  ghost predicate Consistent(o: Options, w: Worker) {
    && w.counters.processed == w.counters.written + w.counters.skipped == |w.committed|
    && w.tables == After(o.thresholds, w.committed)
    && Distinct(w.pending) && |w.pending| <= o.maxQueueDepth
  }

  lemma {:induction false} WrittenInTwoParts(m: Thresholds, t: Tables, first: seq<Write>, second: seq<Write>)
    ensures WrittenAll(m, t, first + second) == WrittenAll(m, WrittenAll(m, t, first), second)
  {
    if second == [] {
      assert first + second == first;
    } else {
      WrittenInTwoParts(m, t, first, second[..|second| - 1]);
      assert (first + second)[..|first + second| - 1] == first + second[..|second| - 1];
    }
  }

  lemma {:induction false} PendingBounded(o: Options, pending: seq<string>, coins: seq<string>)
    requires Distinct(pending) && |pending| <= o.maxQueueDepth
    ensures Distinct(AddCoins(o, pending, coins)) && |AddCoins(o, pending, coins)| <= o.maxQueueDepth
  {
    if coins != [] {
      PendingBounded(o, pending, coins[..|coins| - 1]);
    }
  }

  lemma NextConsistent(o: Options, w: Worker, step: Step)
    requires ValidOptions(o) && Consistent(o, w)
    ensures Consistent(o, Next(o, w, step))
  {
    hide Limited, Written, EvidenceCount, AddCoins, ScoreWrites, ValidEnv, ValidConfig, UpperAll;
    match step
    case Enqueue(coins) =>
      PendingBounded(o, w.pending, coins);
    case ScoresWritten(rows) =>
      if w.phase.Scoring? {
        WrittenInTwoParts(o.thresholds, NO_TABLES, w.committed, ScoreWrites(o, w.phase.coins, w.phase.asOf, rows));
      }
    case _ =>
  }

  /**
   * In every interleaving: each processed result was either written or skipped, the tables hold
   * exactly the committed writes (a failed run adds none), and the queue stays within its bound.
   */
  lemma {:induction false} WorkerConsistent(o: Options, steps: seq<Step>)
    requires ValidOptions(o)
    ensures Consistent(o, Run(o, steps))
  {
    if steps != [] {
      hide Consistent, Next, ValidEnv, ValidConfig;
      WorkerConsistent(o, steps[..|steps| - 1]);
      NextConsistent(o, Run(o, steps[..|steps| - 1]), steps[|steps| - 1]);
    } else {
      assert Consistent(o, INITIAL);
    }
  }

  // ---- time ---------------------------------------------------------------------------------

  lemma {:induction false} WindowScoresStamped(env: Env, config: Config, windows: seq<Window>, asOf: int, coin: string,
                                               rows: seq<SourceRow>)
    requires ValidEnv(env) && ValidConfig(config)
    requires forall w <- windows :: 0.0 < w.halfLifeMinutes
    ensures forall r <- WindowScores(env, config, windows, asOf, coin, rows) :: r.ts == asOf && r.coin == coin
  {
    hide ValidEnv, ValidConfig, AllEvidence, ConfidenceScore, BullScore, BearScore;
    if windows != [] {
      WindowScoresStamped(env, config, windows[..|windows| - 1], asOf, coin, rows);
    }
  }

  /** Every result carries the instant the scores are for. */
  lemma {:induction false} ScoresStamped(env: Env, config: Config, asOf: int, coins: seq<string>, rows: seq<SourceRow>,
                                         minutes: Option<seq<int>>)
    requires ValidEnv(env) && ValidConfig(config)
    ensures forall r <- Scores(env, config, asOf, coins, rows, minutes) :: r.ts == asOf
  {
    hide WindowScores, CoinRows;
    if coins != [] {
      ScoresStamped(env, config, asOf, coins[..|coins| - 1], rows, minutes);
      var coin := env.upper(coins[|coins| - 1]);
      WindowScoresStamped(env, config, SelectedWindows(config.windows, minutes), asOf, coin, CoinRows(env, coin, rows));
    }
  }

  lemma WritesStamped(o: Options, coins: seq<string>, asOf: int, rows: seq<SourceRow>)
    requires ValidOptions(o)
    ensures forall w <- ScoreWrites(o, coins, asOf, rows) :: w.result.ts == asOf
  {
    hide Scores, ValidEnv, ValidConfig;
    ScoresStamped(o.env, o.config, asOf, coins, rows, Some(o.windowsMinutes));
  }

  /** The step calls for a run, and one begins: the worker is enabled and idle. */
  ghost predicate Begins(o: Options, w: Worker, step: Step) {
    step.Recompute? && o.enabled && w.phase.Idle?
  }

  ghost predicate BeginsAt(o: Options, steps: seq<Step>, i: nat)
    requires ValidOptions(o) && i < |steps|
  {
    Begins(o, Run(o, steps[..i]), steps[i])
  }

  /** Each run that begins is for an instant no earlier than those begun before it. */
  ghost predicate RunsAdvance(o: Options, steps: seq<Step>)
    requires ValidOptions(o)
  {
    forall i: nat, j: nat | i < j < |steps| && BeginsAt(o, steps, i) && BeginsAt(o, steps, j) ::
      AsOf(steps[i].to, steps[i].now) <= AsOf(steps[j].to, steps[j].now)
  }

  /** The clock does not run back between runs, and no run that begins is asked for an instant of its own. */
  ghost predicate ClockAdvances(o: Options, steps: seq<Step>)
    requires ValidOptions(o)
  {
    && (forall i: nat | i < |steps| && BeginsAt(o, steps, i) :: steps[i].to.None?)
    && forall i: nat, j: nat | i < j < |steps| && BeginsAt(o, steps, i) && BeginsAt(o, steps, j) ::
      steps[i].now <= steps[j].now
  }

  /** The instant of the last run begun. */
  ghost function LatestAsOf(o: Options, steps: seq<Step>): Option<int>
    requires ValidOptions(o)
  {
    if steps == [] then None
    else
      var n := |steps| - 1;
      if Begins(o, Run(o, steps[..n]), steps[n]) then Some(AsOf(steps[n].to, steps[n].now))
      else LatestAsOf(o, steps[..n])
  }

  lemma BeginsBefore(o: Options, steps: seq<Step>, n: nat, i: nat)
    requires ValidOptions(o) && i < n <= |steps|
    ensures BeginsAt(o, steps[..n], i) == BeginsAt(o, steps, i)
  {
    assert steps[..n][..i] == steps[..i];
  }

  ghost predicate BegunAt(o: Options, steps: seq<Step>, i: nat, asOf: int)
    requires ValidOptions(o) && i < |steps|
  {
    BeginsAt(o, steps, i) && AsOf(steps[i].to, steps[i].now) == asOf
  }

  lemma {:induction false} LatestBegun(o: Options, steps: seq<Step>)
    requires ValidOptions(o)
    ensures var latest := LatestAsOf(o, steps);
      latest.Some? ==> exists i: nat | i < |steps| :: BegunAt(o, steps, i, latest.value)
  {
    hide Run, ValidOptions;
    if steps != [] {
      var n := |steps| - 1;
      if Begins(o, Run(o, steps[..n]), steps[n]) {
        assert BegunAt(o, steps, n, AsOf(steps[n].to, steps[n].now));
      } else {
        LatestBegun(o, steps[..n]);
        if LatestAsOf(o, steps[..n]).Some? {
          var i: nat :| i < n && BegunAt(o, steps[..n], i, LatestAsOf(o, steps[..n]).value);
          BeginsBefore(o, steps, n, i);
          assert BegunAt(o, steps, i, LatestAsOf(o, steps).value);
        }
      }
    }
  }

  lemma AdvancedBefore(o: Options, steps: seq<Step>)
    requires ValidOptions(o) && steps != [] && RunsAdvance(o, steps)
    ensures var n := |steps| - 1;
      && RunsAdvance(o, steps[..n])
      && (Begins(o, Run(o, steps[..n]), steps[n]) && LatestAsOf(o, steps[..n]).Some? ==>
            LatestAsOf(o, steps[..n]).value <= AsOf(steps[n].to, steps[n].now))
  {
    hide Run, ValidOptions, BeginsAt;
    var n := |steps| - 1;
    forall i: nat | i < n
      ensures BeginsAt(o, steps[..n], i) == BeginsAt(o, steps, i) && steps[..n][i] == steps[i]
    {
      BeginsBefore(o, steps, n, i);
    }
    LatestBegun(o, steps[..n]);
    LastBegins(o, steps);
    if LatestAsOf(o, steps[..n]).Some? {
      var i: nat :| i < n && BegunAt(o, steps[..n], i, LatestAsOf(o, steps[..n]).value);
    }
  }

  lemma LastBegins(o: Options, steps: seq<Step>)
    requires ValidOptions(o) && steps != []
    ensures BeginsAt(o, steps, |steps| - 1) <==> Begins(o, Run(o, steps[..|steps| - 1]), steps[|steps| - 1])
  {
    hide Run;
  }

  /** The committed writes are in order of time, up to the run at hand, up to the last run begun. */
  ghost predicate Timed(w: Worker, latest: Option<int>) {
    && (forall i, j | 0 <= i < j < |w.committed| :: w.committed[i].result.ts <= w.committed[j].result.ts)
    && (forall c <- w.committed :: latest.Some? && c.result.ts <= latest.value)
    && (!w.phase.Idle? ==>
          && latest.Some? && w.phase.asOf <= latest.value
          && forall c <- w.committed :: c.result.ts <= w.phase.asOf)
  }

  lemma AppendTimed(before: seq<Write>, ws: seq<Write>, asOf: int)
    requires forall i, j | 0 <= i < j < |before| :: before[i].result.ts <= before[j].result.ts
    requires (forall c <- before :: c.result.ts <= asOf) && (forall c <- ws :: c.result.ts == asOf)
    ensures var all := before + ws;
      && (forall i, j | 0 <= i < j < |all| :: all[i].result.ts <= all[j].result.ts)
      && (forall c <- all :: c.result.ts <= asOf)
  {
    var all := before + ws;
    forall i | 0 <= i < |all|
      ensures if i < |before| then all[i] in before else all[i] in ws
    {
    }
  }

  lemma NextTimed(o: Options, w: Worker, step: Step, latest: Option<int>)
    requires ValidOptions(o) && Timed(w, latest)
    requires Begins(o, w, step) && latest.Some? ==> latest.value <= AsOf(step.to, step.now)
    ensures Timed(Next(o, w, step), if Begins(o, w, step) then Some(AsOf(step.to, step.now)) else latest)
  {
    hide AddCoins, Limited, ScoreWrites, WriteCounts, WrittenAll, ValidEnv, ValidConfig, UpperAll, AsOf;
    if step.ScoresWritten? && w.phase.Scoring? {
      var ws := ScoreWrites(o, w.phase.coins, w.phase.asOf, step.rows);
      WritesStamped(o, w.phase.coins, w.phase.asOf, step.rows);
      AppendTimed(w.committed, ws, w.phase.asOf);
    }
  }

  lemma {:induction false} RunTimed(o: Options, steps: seq<Step>)
    requires ValidOptions(o) && RunsAdvance(o, steps)
    ensures Timed(Run(o, steps), LatestAsOf(o, steps))
  {
    if steps != [] {
      var front := steps[..|steps| - 1];
      hide Timed, Next, ValidEnv, ValidConfig, Begins, RunsAdvance;
      AdvancedBefore(o, steps);
      RunTimed(o, front);
      NextTimed(o, Run(o, front), steps[|steps| - 1], LatestAsOf(o, front));
    } else {
      assert Timed(INITIAL, None);
    }
  }

  /**
   * As long as the runs that begin are for instants that do not go back, what the worker leaves in a
   * current row follows the newest snapshot.
   */
  lemma WorkerKeepsCurrentFollowing(o: Options, steps: seq<Step>, key: Key)
    requires ValidOptions(o) && RunsAdvance(o, steps) && key in Run(o, steps).tables.current
    ensures var w := Run(o, steps);
      var anchor := Anchor(o.thresholds, w.committed, key);
      && anchor.Some? && IsNewest(w.tables, key, anchor.value.ts)
      && Follows(o.thresholds, w.tables.current[key], RowOf(anchor.value), Skips(o.thresholds, w.committed, key))
  {
    hide Run, Follows, ValidOptions, RunsAdvance;
    WorkerConsistent(o, steps);
    RunTimed(o, steps);
    CurrentFollowsSnapshot(o.thresholds, Run(o, steps).committed, key);
  }

  /** A clock that does not run back is enough, unless a run is asked for an instant of its own. */
  lemma ClockKeepsCurrentFollowing(o: Options, steps: seq<Step>, key: Key)
    requires ValidOptions(o) && ClockAdvances(o, steps) && key in Run(o, steps).tables.current
    ensures var w := Run(o, steps);
      && TimeAdvances(w.committed, key)
      && var anchor := Anchor(o.thresholds, w.committed, key);
         && anchor.Some? && IsNewest(w.tables, key, anchor.value.ts)
         && Follows(o.thresholds, w.tables.current[key], RowOf(anchor.value), Skips(o.thresholds, w.committed, key))
  {
    assert RunsAdvance(o, steps) by {
      hide Run, ValidOptions, BeginsAt;
    }
    hide Run, Follows, ValidOptions, RunsAdvance;
    RunTimed(o, steps);
    WorkerKeepsCurrentFollowing(o, steps, key);
  }

  // ---- the class ----------------------------------------------------------------------------

  class ScoreWorker {
    const options: Options
    var pendingCoins: seq<string>
    var phase: Phase
    var counters: Counters
    var tables: Tables
    ghost var committed: seq<Write>

    ghost function View(): Worker
      reads this
    {
      Worker(pendingCoins, phase, counters, tables, committed)
    }

    constructor (options: Options)
      ensures this.options == options && View() == INITIAL
    {
      this.options := options;
      pendingCoins, phase, counters, tables, committed := [], Idle, Counters(0, 0, 0, 0, 0), Tables(map[], map[]), [];
    }

    method EnqueueEvents(coins: seq<string>) returns (accepted: bool)
      requires ValidOptions(options)
      modifies this
      ensures View() == Next(options, old(View()), Enqueue(coins))
      ensures accepted <==> options.enabled && AnyAdmitted(options, old(pendingCoins), coins)
    {
      accepted := false;
      if !options.enabled {
        return;
      }
      for i := 0 to |coins|
        invariant View() == old(View()).(pending := AddCoins(options, old(pendingCoins), coins[..i]))
        invariant accepted <==> AnyAdmitted(options, old(pendingCoins), coins[..i])
      {
        assert coins[..i + 1][..i] == coins[..i];
        if Admits(options, pendingCoins, coins[i]) {
          if coins[i] !in pendingCoins {
            pendingCoins := pendingCoins + [coins[i]];
          }
          accepted := true;
        }
      }
      assert coins[..|coins|] == coins;
    }

    method BeginRun(given: Option<seq<string>>, to: Option<int>, now: int) returns (begun: bool)
      requires ValidOptions(options)
      modifies this
      ensures View() == Next(options, old(View()), Recompute(given, to, now))
      ensures begun <==> options.enabled && old(phase).Idle?
    {
      begun := options.enabled && phase.Idle?;
      if begun {
        phase := Ensuring(given, AsOf(to, now));
      }
    }

    method OnConfigEnsured()
      requires ValidOptions(options) && phase.Ensuring?
      modifies this
      ensures View() == Next(options, old(View()), ConfigEnsured)
    {
      var queued, asOf := [], phase.asOf;
      if phase.given.Some? {
        queued := UpperAll(options, phase.given.value);
      } else {
        queued := pendingCoins;
        pendingCoins := [];
      }
      if queued == [] {
        phase := Selecting(asOf);
      } else {
        SelectCoins(queued, asOf);
      }
    }

    method SelectCoins(coins: seq<string>, asOf: int)
      modifies `phase
      ensures View() == Selected(options, old(View()), coins, asOf)
    {
      var limited := Limited(options, coins);
      phase := if limited == [] then Idle else Scoring(limited, asOf);
    }

    /** The rows have been read; the scores are computed and written. */
    method OnScoresWritten(rows: seq<SourceRow>)
      requires ValidOptions(options) && phase.Scoring?
      modifies this
      ensures View() == Next(options, old(View()), ScoresWritten(rows))
    {
      hide Scores, ValidEnv, ValidConfig, WriteCounts, WrittenAll;
      var results :=
        CalculateScores(options.env, options.config, phase.asOf, phase.coins, rows, Some(options.windowsMinutes));
      var ws := WritesOf(options.config.version, results);
      counters := Counted(counters, |results|, WriteCounts(options.thresholds, tables, ws));
      tables := WrittenAll(options.thresholds, tables, ws);
      committed := committed + ws;
      phase := Idle;
    }

    method OnRunFailed()
      requires ValidOptions(options) && !phase.Idle?
      modifies this
      ensures View() == Next(options, old(View()), RunFails)
    {
      counters := counters.(failed := counters.failed + 1);
      phase := Idle;
    }
  }
}
