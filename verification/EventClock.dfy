/**
 * The duplicate index against the plain rule it stands for, for clocks that advance and for clocks
 * that may step back (apps/server/src/events/eventStore.ts).
 */
module EventClock {
  import opened Wrappers
  import opened Decimals
  import opened EventStore
  import opened EventLog

  // ---- the rule -----------------------------------------------------------------------------

  /** An event with this id was stored less than the TTL ago. */
  ghost predicate Recent(o: Options, log: seq<Arrival>, id: string, now: int) {
    exists a <- log :: a.event.id == id && now < a.at + o.dedupeTtlMs
  }

  /** The plain log: an arrival is stored unless its id was stored less than the TTL ago. */
  ghost function Log(o: Options, arrivals: seq<Arrival>): seq<Arrival> {
    if arrivals == [] then []
    else
      var last := arrivals[|arrivals| - 1];
      var log := Log(o, arrivals[..|arrivals| - 1]);
      if Recent(o, log, last.event.id, last.at) then log else log + [last]
  }

  ghost predicate ClockAdvances(arrivals: seq<Arrival>) {
    forall i, j | 0 <= i < j < |arrivals| :: arrivals[i].at <= arrivals[j].at
  }

  /** Events with one id are at least the TTL apart. */
  ghost predicate Apart(log: seq<Arrival>, ttl: nat) {
    forall i, j | 0 <= i < j < |log| && log[i].event.id == log[j].event.id :: log[i].at + ttl <= log[j].at
  }

  function LastOf(log: seq<Arrival>, id: string): Option<Arrival> {
    if log == [] then None
    else if log[|log| - 1].event.id == id then Some(log[|log| - 1])
    else LastOf(log[..|log| - 1], id)
  }

  // ---- what happened during a run -----------------------------------------------------------

  /** The store after the first arrivals of a run. */
  function Before(o: Options, arrivals: seq<Arrival>, k: nat, cleaning: bool): Store
    requires k <= |arrivals|
  {
    Run(o, Empty(), arrivals[..k], cleaning)
  }

  /** The arrival at this place was stored. */
  predicate KeptAt(o: Options, arrivals: seq<Arrival>, k: nat, cleaning: bool)
    requires k < |arrivals|
  {
    Stores(o, Before(o, arrivals, k, cleaning), arrivals[k].event, arrivals[k].at, cleaning)
  }

  /** The arrival at this place found the index large enough to be cleaned. */
  predicate CleansAt(o: Options, arrivals: seq<Arrival>, k: nat, cleaning: bool)
    requires k < |arrivals|
  {
    cleaning && |Before(o, arrivals, k, cleaning).dedupe| > o.bufferSize * 20
  }

  /** The last time an arrival with this id was stored. */
  ghost predicate LastKeptAt(o: Options, arrivals: seq<Arrival>, j: nat, id: string, cleaning: bool)
    requires j < |arrivals|
  {
    && KeptAt(o, arrivals, j, cleaning) && arrivals[j].event.id == id
    && forall i: nat | j < i < |arrivals| && arrivals[i].event.id == id :: !KeptAt(o, arrivals, i, cleaning)
  }

  /** Since the id was last stored, a cleaning pass has run at or after its expiry. */
  ghost predicate Swept(o: Options, arrivals: seq<Arrival>, id: string, cleaning: bool) {
    exists j: nat, m: nat | j < m < |arrivals| ::
      LastKeptAt(o, arrivals, j, id, cleaning) && CleansAt(o, arrivals, m, cleaning) &&
      arrivals[j].at + o.dedupeTtlMs <= arrivals[m].at
  }

  /**
   * The arrival at this place comes while the clock reads less than the stored expiry of its id,
   * but a cleaning pass has already run at or after that expiry.
   */
  ghost predicate Forgets(o: Options, arrivals: seq<Arrival>, k: nat, cleaning: bool)
    requires k < |arrivals|
  {
    exists j: nat, m: nat | j < m < k ::
      LastKeptAt(o, arrivals[..k], j, arrivals[k].event.id, cleaning) && CleansAt(o, arrivals, m, cleaning) &&
      arrivals[k].at < arrivals[j].at + o.dedupeTtlMs <= arrivals[m].at
  }

  ghost predicate NeverForgets(o: Options, arrivals: seq<Arrival>, cleaning: bool) {
    forall k: nat | k < |arrivals| :: !Forgets(o, arrivals, k, cleaning)
  }

  // ---- prefixes of a run --------------------------------------------------------------------

  lemma SamePast(o: Options, arrivals: seq<Arrival>, n: nat, k: nat, cleaning: bool)
    requires k < n <= |arrivals|
    ensures KeptAt(o, arrivals[..n], k, cleaning) == KeptAt(o, arrivals, k, cleaning)
    ensures CleansAt(o, arrivals[..n], k, cleaning) == CleansAt(o, arrivals, k, cleaning)
  {
    assert arrivals[..n][..k] == arrivals[..k];
  }

  /** A later arrival leaves the last storing of an id in place unless it is stored under that id itself. */
  lemma LastKeptStep(o: Options, arrivals: seq<Arrival>, j: nat, id: string, cleaning: bool)
    requires j + 1 < |arrivals|
    ensures var n := |arrivals| - 1;
      LastKeptAt(o, arrivals, j, id, cleaning) <==>
      LastKeptAt(o, arrivals[..n], j, id, cleaning) && !(arrivals[n].event.id == id && KeptAt(o, arrivals, n, cleaning))
  {
    hide KeptAt;
    var n := |arrivals| - 1;
    forall i: nat | i < n
      ensures KeptAt(o, arrivals[..n], i, cleaning) == KeptAt(o, arrivals, i, cleaning) &&
              arrivals[..n][i] == arrivals[i]
    {
      SamePast(o, arrivals, n, i, cleaning);
    }
  }

  ghost predicate LastIs(o: Options, arrivals: seq<Arrival>, id: string, cleaning: bool, last: Option<Arrival>) {
    && (last.Some? ==> exists j: nat | j < |arrivals| :: LastKeptAt(o, arrivals, j, id, cleaning))
    && (forall j: nat | j < |arrivals| && LastKeptAt(o, arrivals, j, id, cleaning) :: last == Some(arrivals[j]))
  }

  lemma LastIsStep(o: Options, arrivals: seq<Arrival>, id: string, cleaning: bool, last: Option<Arrival>)
    requires arrivals != [] && LastIs(o, arrivals[..|arrivals| - 1], id, cleaning, last)
    ensures var n := |arrivals| - 1;
      LastIs(o, arrivals, id, cleaning,
             if arrivals[n].event.id == id && KeptAt(o, arrivals, n, cleaning) then Some(arrivals[n]) else last)
  {
    hide LastKeptAt, KeptAt;
    var n := |arrivals| - 1;
    var front := arrivals[..n];
    LastKeptHere(o, arrivals, id, cleaning);
    forall j: nat | j < n
      ensures LastKeptAt(o, arrivals, j, id, cleaning) <==>
              LastKeptAt(o, front, j, id, cleaning) && !(arrivals[n].event.id == id && KeptAt(o, arrivals, n, cleaning))
      ensures front[j] == arrivals[j]
    {
      LastKeptStep(o, arrivals, j, id, cleaning);
    }
    if last.Some? {
      var j: nat :| j < n && LastKeptAt(o, front, j, id, cleaning);
      assert LastKeptAt(o, arrivals, j, id, cleaning) <==>
             !(arrivals[n].event.id == id && KeptAt(o, arrivals, n, cleaning));
    }
  }

  /** The last storing of an id, read from the run or from what it kept. */
  lemma {:induction false} LastKeptIsLast(o: Options, arrivals: seq<Arrival>, id: string, cleaning: bool)
    ensures LastIs(o, arrivals, id, cleaning, LastOf(Kept(o, Empty(), arrivals, cleaning), id))
  {
    if arrivals != [] {
      hide LastIs, Empty, Stores, Run, Kept;
      var n := |arrivals| - 1;
      LastKeptIsLast(o, arrivals[..n], id, cleaning);
      LastIsStep(o, arrivals, id, cleaning, LastOf(Kept(o, Empty(), arrivals[..n], cleaning), id));
      RunUnfolds(o, Empty(), arrivals, cleaning);
      LastOfPush(Kept(o, Empty(), arrivals[..n], cleaning), arrivals[n], id);
    }
  }

  lemma LastKeptHere(o: Options, arrivals: seq<Arrival>, id: string, cleaning: bool)
    requires arrivals != []
    ensures var n := |arrivals| - 1;
      LastKeptAt(o, arrivals, n, id, cleaning) <==> arrivals[n].event.id == id && KeptAt(o, arrivals, n, cleaning)
  {
    hide KeptAt;
  }

  lemma LastOfPush(log: seq<Arrival>, a: Arrival, id: string)
    ensures LastOf(log + [a], id) == if a.event.id == id then Some(a) else LastOf(log, id)
  {
    assert (log + [a])[..|log|] == log;
  }

  lemma SweptStep(o: Options, arrivals: seq<Arrival>, id: string, cleaning: bool)
    requires arrivals != []
    ensures var n := |arrivals| - 1;
      var last := LastOf(Kept(o, Empty(), arrivals[..n], cleaning), id);
      Swept(o, arrivals, id, cleaning) <==>
      && !(arrivals[n].event.id == id && KeptAt(o, arrivals, n, cleaning))
      && (Swept(o, arrivals[..n], id, cleaning) ||
          (CleansAt(o, arrivals, n, cleaning) && last.Some? && last.value.at + o.dedupeTtlMs <= arrivals[n].at))
  {
    hide LastKeptAt, KeptAt, CleansAt, Kept, Empty;
    var n := |arrivals| - 1;
    var front := arrivals[..n];
    LastKeptIsLast(o, front, id, cleaning);
    forall j: nat | j < n
      ensures LastKeptAt(o, arrivals, j, id, cleaning) <==>
              LastKeptAt(o, front, j, id, cleaning) && !(arrivals[n].event.id == id && KeptAt(o, arrivals, n, cleaning))
      ensures front[j] == arrivals[j] && CleansAt(o, front, j, cleaning) == CleansAt(o, arrivals, j, cleaning)
    {
      LastKeptStep(o, arrivals, j, id, cleaning);
      SamePast(o, arrivals, n, j, cleaning);
    }
  }

  // ---- the index ----------------------------------------------------------------------------

  /** The index holds the expiry of each stored id, except those a cleaning pass has swept. */
  ghost predicate IndexHolds(o: Options, dedupe: map<string, int>, last: Option<Arrival>, swept: bool, id: string) {
    match last
    case None => id !in dedupe
    case Some(a) => (id in dedupe <==> !swept) && (id in dedupe ==> dedupe[id] == a.at + o.dedupeTtlMs)
  }

  lemma IndexStep(o: Options, s: Store, last: Option<Arrival>, swept: bool, id: string, a: Arrival, cleaning: bool)
    requires IndexHolds(o, s.dedupe, last, swept, id)
    ensures var stored := a.event.id == id && Stores(o, s, a.event, a.at, cleaning);
      var cleans := cleaning && |s.dedupe| > o.bufferSize * 20;
      IndexHolds(o, Added(o, s, a.event, a.at, cleaning).dedupe, if stored then Some(a) else last,
                 !stored && (swept || (cleans && last.Some? && last.value.at + o.dedupeTtlMs <= a.at)), id)
  {
  }

  lemma {:induction false} IndexTracks(o: Options, arrivals: seq<Arrival>, id: string, cleaning: bool)
    ensures IndexHolds(o, Run(o, Empty(), arrivals, cleaning).dedupe, LastOf(Kept(o, Empty(), arrivals, cleaning), id),
                       Swept(o, arrivals, id, cleaning), id)
  {
    if arrivals != [] {
      hide IndexHolds, Swept, Empty, Stores, Run, Kept, Added, LastOf;
      var n := |arrivals| - 1;
      var front, a := arrivals[..n], arrivals[n];
      IndexTracks(o, front, id, cleaning);
      IndexStep(o, Run(o, Empty(), front, cleaning), LastOf(Kept(o, Empty(), front, cleaning), id),
                Swept(o, front, id, cleaning), id, a, cleaning);
      SweptStep(o, arrivals, id, cleaning);
      RunUnfolds(o, Empty(), arrivals, cleaning);
      LastOfPush(Kept(o, Empty(), front, cleaning), a, id);
    }
  }

  /**
   * Whatever the clock did, the next arrival is stored exactly when its id was never stored, or has
   * been swept since, or the clock has reached its expiry.
   */
  lemma StoredExactly(o: Options, arrivals: seq<Arrival>, a: Arrival, cleaning: bool)
    ensures var last := LastOf(Kept(o, Empty(), arrivals, cleaning), a.event.id);
      Stores(o, Run(o, Empty(), arrivals, cleaning), a.event, a.at, cleaning) <==>
      last.None? || Swept(o, arrivals, a.event.id, cleaning) || last.value.at + o.dedupeTtlMs <= a.at
  {
    hide Empty, Run, Kept, Swept, LastOf;
    IndexTracks(o, arrivals, a.event.id, cleaning);
  }

  // ---- stored too early ---------------------------------------------------------------------

  lemma ForgetsMeans(o: Options, arrivals: seq<Arrival>, k: nat, cleaning: bool)
    requires k < |arrivals|
    ensures var front, id := arrivals[..k], arrivals[k].event.id;
      var last := LastOf(Kept(o, Empty(), front, cleaning), id);
      Forgets(o, arrivals, k, cleaning) <==>
      last.Some? && Swept(o, front, id, cleaning) && arrivals[k].at < last.value.at + o.dedupeTtlMs
  {
    hide LastKeptAt, KeptAt, CleansAt, Kept, Empty, LastOf;
    var front, id := arrivals[..k], arrivals[k].event.id;
    LastKeptIsLast(o, front, id, cleaning);
    forall m: nat | m < k
      ensures CleansAt(o, front, m, cleaning) == CleansAt(o, arrivals, m, cleaning) && front[m] == arrivals[m]
    {
      SamePast(o, arrivals, k, m, cleaning);
    }
  }

  lemma NeverForgetsStep(o: Options, arrivals: seq<Arrival>, cleaning: bool)
    requires arrivals != []
    ensures var n := |arrivals| - 1;
      NeverForgets(o, arrivals, cleaning) <==>
      NeverForgets(o, arrivals[..n], cleaning) && !Forgets(o, arrivals, n, cleaning)
  {
    hide Swept, Forgets, Kept, LastOf;
    var n := |arrivals| - 1;
    forall k: nat | k < n
      ensures Forgets(o, arrivals[..n], k, cleaning) == Forgets(o, arrivals, k, cleaning)
    {
      ForgetsMeans(o, arrivals[..n], k, cleaning);
      ForgetsMeans(o, arrivals, k, cleaning);
      assert arrivals[..n][..k] == arrivals[..k];
    }
  }

  lemma {:induction false} LastOfLatest(log: seq<Arrival>, ttl: nat, id: string)
    requires Apart(log, ttl)
    ensures var last := LastOf(log, id);
      && (last.Some? ==> last.value in log && last.value.event.id == id)
      && (forall a <- log | a.event.id == id :: last.Some? && a.at <= last.value.at)
  {
    if log != [] {
      var n := |log| - 1;
      LastOfLatest(log[..n], ttl, id);
      assert log == log[..n] + [log[n]];
      forall a <- log | a.event.id == id
        ensures a.at <= LastOf(log, id).value.at
      {
        if a in log[..n] {
          var i :| 0 <= i < n && log[..n][i] == a;
          assert log[i] == a;
        }
      }
    }
  }

  /** Among events the TTL apart, only the last of an id can be recent. */
  lemma RecentIsLast(o: Options, log: seq<Arrival>, id: string, now: int)
    requires Apart(log, o.dedupeTtlMs)
    ensures var last := LastOf(log, id);
      Recent(o, log, id, now) <==> last.Some? && now < last.value.at + o.dedupeTtlMs
  {
    hide Apart;
    LastOfLatest(log, o.dedupeTtlMs, id);
  }

  lemma ApartPush(o: Options, log: seq<Arrival>, a: Arrival)
    ensures Apart(log + [a], o.dedupeTtlMs) <==>
            Apart(log, o.dedupeTtlMs) && !Recent(o, log, a.event.id, a.at)
  {
    var longer := log + [a];
    if Apart(longer, o.dedupeTtlMs) {
      forall i, j | 0 <= i < j < |log| && log[i].event.id == log[j].event.id
        ensures log[i].at + o.dedupeTtlMs <= log[j].at
      {
        assert longer[i] == log[i] && longer[j] == log[j];
      }
      forall b <- log | b.event.id == a.event.id
        ensures b.at + o.dedupeTtlMs <= a.at
      {
        var i :| 0 <= i < |log| && log[i] == b;
        assert longer[i] == b && longer[|log|] == a;
      }
    }
    if Apart(log, o.dedupeTtlMs) && !Recent(o, log, a.event.id, a.at) {
      forall i, j | 0 <= i < j < |longer| && longer[i].event.id == longer[j].event.id
        ensures longer[i].at + o.dedupeTtlMs <= longer[j].at
      {
        assert longer[i] == log[i] && log[i] in log;
        assert j < |log| ==> longer[j] == log[j];
      }
    }
  }

  /** Two stored events with one id are the TTL apart exactly when no arrival was forgotten. */
  lemma {:induction false} StoredIdsApart(o: Options, arrivals: seq<Arrival>, cleaning: bool)
    ensures Apart(Kept(o, Empty(), arrivals, cleaning), o.dedupeTtlMs) <==> NeverForgets(o, arrivals, cleaning)
  {
    if arrivals != [] {
      hide Apart, NeverForgets, Forgets, Recent, Swept, Empty, Run, Kept, Stores, LastOf;
      var n := |arrivals| - 1;
      var front, a := arrivals[..n], arrivals[n];
      var kept := Kept(o, Empty(), front, cleaning);
      StoredIdsApart(o, front, cleaning);
      RunUnfolds(o, Empty(), arrivals, cleaning);
      NeverForgetsStep(o, arrivals, cleaning);
      ForgetsMeans(o, arrivals, n, cleaning);
      StoredExactly(o, front, a, cleaning);
      ApartPush(o, kept, a);
      if Apart(kept, o.dedupeTtlMs) {
        RecentIsLast(o, kept, a.event.id, a.at);
      }
    } else {
      assert NeverForgets(o, arrivals, cleaning);
    }
  }

  lemma {:induction false} LogApart(o: Options, arrivals: seq<Arrival>)
    ensures Apart(Log(o, arrivals), o.dedupeTtlMs)
  {
    if arrivals != [] {
      hide Apart, Recent;
      var n := |arrivals| - 1;
      LogApart(o, arrivals[..n]);
      ApartPush(o, Log(o, arrivals[..n]), arrivals[n]);
    }
  }

  lemma {:induction false} RememberingKeepsLog(o: Options, arrivals: seq<Arrival>, cleaning: bool)
    requires NeverForgets(o, arrivals, cleaning)
    ensures Kept(o, Empty(), arrivals, cleaning) == Log(o, arrivals)
  {
    if arrivals != [] {
      hide Apart, NeverForgets, Forgets, Recent, Swept, Empty, Run, Kept, Stores, LastOf;
      var n := |arrivals| - 1;
      var front, a := arrivals[..n], arrivals[n];
      NeverForgetsStep(o, arrivals, cleaning);
      RememberingKeepsLog(o, front, cleaning);
      RunUnfolds(o, Empty(), arrivals, cleaning);
      ForgetsMeans(o, arrivals, n, cleaning);
      StoredExactly(o, front, a, cleaning);
      LogApart(o, front);
      RecentIsLast(o, Log(o, front), a.event.id, a.at);
    }
  }

  /** The store keeps exactly what the plain rule keeps when, and only when, no arrival was forgotten. */
  lemma KeptIsLog(o: Options, arrivals: seq<Arrival>, cleaning: bool)
    ensures Kept(o, Empty(), arrivals, cleaning) == Log(o, arrivals) <==> NeverForgets(o, arrivals, cleaning)
  {
    hide Kept, Log, Apart, NeverForgets;
    StoredIdsApart(o, arrivals, cleaning);
    LogApart(o, arrivals);
    if NeverForgets(o, arrivals, cleaning) {
      RememberingKeepsLog(o, arrivals, cleaning);
    }
  }

  // ---- with and without cleaning ------------------------------------------------------------

  /** A store that never cleans follows the plain rule under any clock. */
  lemma UncleanedNeverForgets(o: Options, arrivals: seq<Arrival>)
    ensures NeverForgets(o, arrivals, false)
  {
  }

  /** Under a clock that does not run back no arrival is forgotten. */
  lemma AdvancingNeverForgets(o: Options, arrivals: seq<Arrival>, cleaning: bool)
    requires ClockAdvances(arrivals)
    ensures NeverForgets(o, arrivals, cleaning)
  {
    hide CleansAt, LastKeptAt;
  }

  /** Cleaning shows in what is stored exactly when some arrival is forgotten. */
  lemma CleanupShowsExactly(o: Options, arrivals: seq<Arrival>)
    ensures Kept(o, Empty(), arrivals, true) == Kept(o, Empty(), arrivals, false) <==> NeverForgets(o, arrivals, true)
  {
    hide Kept, Log, NeverForgets;
    KeptIsLog(o, arrivals, true);
    KeptIsLog(o, arrivals, false);
    UncleanedNeverForgets(o, arrivals);
  }

  /**
   * As long as cleaning has not shown, the next arrival is treated differently exactly when a
   * cleaning pass has run at or after the stored expiry of its id and the clock now reads less.
   */
  lemma FirstDifference(o: Options, arrivals: seq<Arrival>, a: Arrival)
    requires Kept(o, Empty(), arrivals, true) == Kept(o, Empty(), arrivals, false)
    ensures Stores(o, Run(o, Empty(), arrivals, true), a.event, a.at, true) !=
            Stores(o, Run(o, Empty(), arrivals, false), a.event, a.at, false)
            <==> Forgets(o, arrivals + [a], |arrivals|, true)
  {
    hide Kept, NeverForgets, Forgets, Run, Stores, LastOf, Empty;
    CleanupShowsExactly(o, arrivals);
    StoredExactly(o, arrivals, a, true);
    StoredExactly(o, arrivals, a, false);
    assert (arrivals + [a])[..|arrivals|] == arrivals;
    ForgetsMeans(o, arrivals + [a], |arrivals|, true);
    NothingSwept(o, arrivals, a.event.id);
  }

  lemma NothingSwept(o: Options, arrivals: seq<Arrival>, id: string)
    ensures !Swept(o, arrivals, id, false)
  {
  }

  /** The same store but for the index. */
  ghost predicate SameVisible(s: Store, t: Store) {
    s.(dedupe := map[]) == t.(dedupe := map[])
  }

  lemma SameStep(o: Options, s: Store, t: Store, a: Arrival)
    requires SameVisible(s, t)
    requires Stores(o, s, a.event, a.at, true) <==> Stores(o, t, a.event, a.at, false)
    ensures SameVisible(Added(o, s, a.event, a.at, true), Added(o, t, a.event, a.at, false))
  {
    hide Cleaned, Duplicate, Sampled, Take;
  }

  lemma SameAfter(o: Options, front: seq<Arrival>, a: Arrival)
    requires Kept(o, Empty(), front, true) == Kept(o, Empty(), front, false)
    requires !Forgets(o, front + [a], |front|, true)
    requires SameVisible(Run(o, Empty(), front, true), Run(o, Empty(), front, false))
    ensures SameVisible(Run(o, Empty(), front + [a], true), Run(o, Empty(), front + [a], false))
  {
    hide Empty, Added, Stores, Forgets, Run, Kept, SameVisible;
    assert (front + [a])[..|front|] == front;
    FirstDifference(o, front, a);
    SameStep(o, Run(o, Empty(), front, true), Run(o, Empty(), front, false), a);
    RunUnfolds(o, Empty(), front + [a], true);
    RunUnfolds(o, Empty(), front + [a], false);
  }

  /** While no arrival is forgotten, runs with and without cleaning leave the same store but for the index. */
  lemma {:induction false} SameViews(o: Options, arrivals: seq<Arrival>)
    requires NeverForgets(o, arrivals, true)
    ensures SameVisible(Run(o, Empty(), arrivals, true), Run(o, Empty(), arrivals, false))
  {
    if arrivals != [] {
      hide Empty, NeverForgets, Forgets, Run, Kept, SameVisible;
      var n := |arrivals| - 1;
      NeverForgetsStep(o, arrivals, true);
      SameViews(o, arrivals[..n]);
      CleanupShowsExactly(o, arrivals[..n]);
      assert arrivals[..n] + [arrivals[n]] == arrivals;
      SameAfter(o, arrivals[..n], arrivals[n]);
    }
  }

  /**
   * Under a clock that does not run back lazy cleanup is invisible: the next event is stored exactly
   * when a store that never cleans would store it, which is exactly when its id was not stored less
   * than the TTL ago; what is stored is the TTL apart.
   */
  lemma CleanupInvisible(o: Options, arrivals: seq<Arrival>, a: Arrival)
    requires ClockAdvances(arrivals + [a])
    ensures Stores(o, Run(o, Empty(), arrivals, true), a.event, a.at, true) <==>
            Stores(o, Run(o, Empty(), arrivals, false), a.event, a.at, false)
    ensures Stores(o, Run(o, Empty(), arrivals, true), a.event, a.at, true) <==>
            !Recent(o, Kept(o, Empty(), arrivals, true), a.event.id, a.at)
    ensures SameVisible(Run(o, Empty(), arrivals, true), Run(o, Empty(), arrivals, false))
    ensures Kept(o, Empty(), arrivals, true) == Kept(o, Empty(), arrivals, false) == Log(o, arrivals)
    ensures Apart(Kept(o, Empty(), arrivals, true), o.dedupeTtlMs)
  {
    var all := arrivals + [a];
    AdvancingNeverForgets(o, all, true);
    hide Kept, Log, Apart, NeverForgets, Forgets, Run, Stores, LastOf, Empty, ClockAdvances, Recent, Swept;
    assert all[..|arrivals|] == arrivals;
    NeverForgetsStep(o, all, true);
    ForgetsMeans(o, all, |arrivals|, true);
    CleanupShowsExactly(o, arrivals);
    FirstDifference(o, arrivals, a);
    SameViews(o, arrivals);
    KeptIsLog(o, arrivals, true);
    LogApart(o, arrivals);
    StoredExactly(o, arrivals, a, true);
    RecentIsLast(o, Kept(o, Empty(), arrivals, true), a.event.id, a.at);
  }

  // ---- a clock that steps back --------------------------------------------------------------

  function Copies(event: Event, n: nat): seq<Arrival> {
    seq(n, i requires 0 <= i < n => Arrival(event.(id := Digits(i)), 0))
  }

  /** The ids stored so far, each with the same expiry. */
  ghost predicate Filled(dedupe: map<string, int>, n: nat, expiry: int) {
    && |dedupe| == n
    && (forall id <- dedupe :: dedupe[id] == expiry && exists i: nat | i < n :: id == Digits(i))
    && (forall i: nat | i < n :: Digits(i) in dedupe)
  }

  lemma NextUnused(dedupe: map<string, int>, n: nat, expiry: int)
    requires Filled(dedupe, n, expiry)
    ensures Digits(n) !in dedupe
  {
    hide Digits;
    if Digits(n) in dedupe {
      var i: nat :| i < n && Digits(n) == Digits(i);
      ValueOfDigits(n);
      ValueOfDigits(i);
      assert false;
    }
  }

  lemma FillNext(dedupe: map<string, int>, n: nat, expiry: int)
    requires Filled(dedupe, n, expiry)
    ensures Filled(dedupe[Digits(n) := expiry], n + 1, expiry)
  {
    hide Digits;
    NextUnused(dedupe, n, expiry);
    var filled := dedupe[Digits(n) := expiry];
    forall id <- filled
      ensures filled[id] == expiry && exists i: nat | i < n + 1 :: id == Digits(i)
    {
      if id != Digits(n) {
        var i: nat :| i < n && id == Digits(i);
        assert i < n + 1;
      }
    }
  }

  lemma NewIdAdded(o: Options, s: Store, event: Event, now: int, cleaning: bool)
    requires event.id !in s.dedupe && |s.dedupe| <= o.bufferSize * 20
    ensures Added(o, s, event, now, cleaning).dedupe == s.dedupe[event.id := now + o.dedupeTtlMs]
  {
    hide Sampled, Take, Get;
  }

  lemma FillOne(o: Options, s: Store, event: Event, n: nat, cleaning: bool)
    requires Filled(s.dedupe, n, o.dedupeTtlMs) && n <= o.bufferSize * 20
    ensures Filled(Added(o, s, event.(id := Digits(n)), 0, cleaning).dedupe, n + 1, o.dedupeTtlMs)
  {
    assert |s.dedupe| == n;
    hide Digits, Filled, Added;
    NextUnused(s.dedupe, n, o.dedupeTtlMs);
    NewIdAdded(o, s, event.(id := Digits(n)), 0, cleaning);
    FillNext(s.dedupe, n, o.dedupeTtlMs);
  }

  lemma {:induction false} CopiesFill(o: Options, event: Event, n: nat, cleaning: bool)
    requires n <= o.bufferSize * 20 + 1
    ensures Filled(Run(o, Empty(), Copies(event, n), cleaning).dedupe, n, o.dedupeTtlMs)
  {
    hide Filled, Added;
    if n == 0 {
      NothingFilled(o);
    } else {
      CopiesFill(o, event, n - 1, cleaning);
      var copies := Copies(event, n);
      assert copies[..n - 1] == Copies(event, n - 1);
      RunUnfolds(o, Empty(), copies, cleaning);
      FillOne(o, Run(o, Empty(), copies[..n - 1], cleaning), event, n - 1, cleaning);
    }
  }

  lemma NothingFilled(o: Options)
    ensures Filled(Empty().dedupe, 0, o.dedupeTtlMs)
  {
  }

  /** Enough ids to make the index large, and one more event when they expire. */
  function Flood(o: Options, event: Event, other: Event): seq<Arrival> {
    Copies(event, o.bufferSize * 20 + 1) + [Arrival(other, o.dedupeTtlMs)]
  }

  lemma AfterFlood(o: Options, s: Store, other: Event, n: nat, cleaning: bool)
    requires Filled(s.dedupe, n, o.dedupeTtlMs) && n > o.bufferSize * 20 && other.id != Digits(0)
    ensures var dedupe := Added(o, s, other, o.dedupeTtlMs, cleaning).dedupe;
      (Digits(0) in dedupe <==> !cleaning) && (!cleaning ==> dedupe[Digits(0)] == o.dedupeTtlMs)
  {
    hide Digits, Sampled, Take;
    assert Digits(0) in s.dedupe;
  }

  /**
   * For every buffer size: once more ids are stored than the index may hold and cleaned at their
   * expiry, a step back of the clock lets one of them be stored a second time before it.
   */
  lemma CleanupShowsAfterClockStepsBack(o: Options, event: Event, other: Event)
    requires o.dedupeTtlMs > 0 && other.id != Digits(0)
    ensures var arrivals, again := Flood(o, event, other), event.(id := Digits(0));
      && Stores(o, Run(o, Empty(), arrivals, true), again, 0, true)
      && !Stores(o, Run(o, Empty(), arrivals, false), again, 0, false)
  {
    var n := o.bufferSize * 20 + 1;
    var copies, arrivals := Copies(event, n), Flood(o, event, other);
    assert arrivals[..n] == copies;
    forall cleaning: bool
      ensures var s := Run(o, Empty(), arrivals, cleaning);
        (Digits(0) in s.dedupe <==> !cleaning) && (!cleaning ==> s.dedupe[Digits(0)] == o.dedupeTtlMs)
    {
      hide Digits, Filled, Added, Copies;
      CopiesFill(o, event, n, cleaning);
      RunUnfolds(o, Empty(), arrivals, cleaning);
      AfterFlood(o, Run(o, Empty(), copies, cleaning), other, n, cleaning);
    }
    hide Digits, Run, Flood, Copies;
    assert Digits(0) !in Run(o, Empty(), arrivals, true).dedupe;
    assert Run(o, Empty(), arrivals, false).dedupe[Digits(0)] == o.dedupeTtlMs;
  }
}
