/** What ingestion guarantees: repeating an input changes nothing, and over whole runs every key owns one row. */
module IngestionHistory {
  import opened Wrappers
  import opened Decimals
  import opened CanonicalJson
  import opened EventRepository

  // ---- one upsert against another -----------------------------------------------------------

  ghost predicate Resolved(db: Database, u: Upsert) {
    u.event.id in db.eventKeys && (u.EntryUpsert? ==> EntryKey(u.event.id, u.index) in db.entryKeys)
  }

  /** An entry is only upserted after its event. */
  ghost predicate Ready(db: Database, u: Upsert) {
    u.EntryUpsert? ==> u.event.id in db.eventKeys
  }

  /** No two entry keys share a generated id. */
  ghost predicate IdsApart(db: Database) {
    && (forall k <- db.entryKeys :: db.entryKeys[k].id < db.nextId)
    && (forall k, l | k in db.entryKeys && l in db.entryKeys && k != l :: db.entryKeys[k].id != db.entryKeys[l].id)
  }

  predicate SameTarget(u: Upsert, v: Upsert) {
    match u
    case EventUpsert(e) => v.EventUpsert? && v.event.id == e.id
    case EntryUpsert(e, i) => v.EntryUpsert? && EntryKey(e.id, i) == EntryKey(v.event.id, v.index)
  }

  lemma Progress(db: Database, raw: RawKey, u: Upsert)
    requires Indexed(u) && Ready(db, u) && IdsApart(db)
    ensures Resolved(Applied(db, raw, u), u) && IdsApart(Applied(db, raw, u))
    ensures forall v | Resolved(db, v) :: Resolved(Applied(db, raw, u), v)
    ensures forall v | Ready(db, v) :: Ready(Applied(db, raw, u), v)
  {
    hide EntryKey;
  }

  lemma Swap<K, V>(m: map<K, V>, k: K, v: V, l: K, w: V)
    requires k != l
    ensures m[k := v][l := w] == m[l := w][k := v]
  {
  }

  lemma EventAfterEvent(db: Database, raw: RawKey, e: NormalizedEvent, f: NormalizedEvent)
    requires e.id in db.eventKeys
    ensures UpsertEvent(UpsertEvent(db, raw, e), raw, f) ==
            if e.id == f.id then UpsertEvent(db, raw, f) else UpsertEvent(UpsertEvent(db, raw, f), raw, e)
  {
    var result := UpsertEvent(UpsertEvent(db, raw, e), raw, f);
    var at, bt := FiledAt(db, e), FiledAt(db, f);
    if e.id != f.id {
      Swap(db.eventKeys, e.id, EventKey(at, raw), f.id, EventKey(bt, raw));
      Swap(db.eventRows, (e.id, at),
           EventRow(raw, e.feedKey, e.chapter, e.category, e.timestamp, e.parserStatus, e.rest),
           (f.id, bt), EventRow(raw, f.feedKey, f.chapter, f.category, f.timestamp, f.parserStatus, f.rest));
    } else {
      var only := UpsertEvent(db, raw, f);
      assert result.eventKeys == only.eventKeys && result.eventRows == only.eventRows;
    }
  }

  /** An event already filed and an entry do not touch each other's rows. */
  lemma EntryBesideEvent(db: Database, raw: RawKey, e: NormalizedEvent, f: NormalizedEvent, i: nat)
    requires i < |f.entries| && (e.id == f.id ==> e.id in db.eventKeys)
    ensures UpsertEntry(UpsertEvent(db, raw, e), f, i, FiledAt(UpsertEvent(db, raw, e), f)) ==
            UpsertEvent(UpsertEntry(db, f, i, FiledAt(db, f)), raw, e)
  {
    hide EntryKey;
    assert FiledAt(UpsertEvent(db, raw, e), f) == FiledAt(db, f);
  }

  lemma SameEntryAgain(db: Database, e: NormalizedEvent, i: nat, at: int, f: NormalizedEvent, j: nat, bt: int)
    requires i < |e.entries| && j < |f.entries| && EntryKey(e.id, i) in db.entryKeys
    requires EntryKey(e.id, i) == EntryKey(f.id, j)
    ensures UpsertEntry(UpsertEntry(db, e, i, at), f, j, bt) == UpsertEntry(db, f, j, bt)
  {
    hide EntryKey;
    assert UpsertEntry(UpsertEntry(db, e, i, at), f, j, bt).entryRows == UpsertEntry(db, f, j, bt).entryRows;
  }

  lemma EntriesApart(db: Database, e: NormalizedEvent, i: nat, at: int, f: NormalizedEvent, j: nat, bt: int)
    requires i < |e.entries| && j < |f.entries| && IdsApart(db) && EntryKey(e.id, i) in db.entryKeys
    requires EntryKey(e.id, i) != EntryKey(f.id, j)
    ensures UpsertEntry(UpsertEntry(db, e, i, at), f, j, bt) == UpsertEntry(UpsertEntry(db, f, j, bt), e, i, at)
  {
    hide EntryKey;
    var x, y := EntryKey(e.id, i), EntryKey(f.id, j);
    var k, l := db.entryKeys[x], if y in db.entryKeys then db.entryKeys[y] else EntryKeyRow(db.nextId, bt, f.id);
    assert k.id != l.id;
    Swap(db.entryRows, (k.id, k.receivedAt), EntryRow(e.id, at, e.feedKey, e.entries[i]),
         (l.id, l.receivedAt), EntryRow(f.id, bt, f.feedKey, f.entries[j]));
  }

  /** Of two upserts of one row the later wins; upserts of different rows commute. */
  lemma CommuteOrAbsorb(db: Database, raw: RawKey, v: Upsert, w: Upsert)
    requires Indexed(v) && Indexed(w) && IdsApart(db) && Resolved(db, v) && Ready(db, w)
    ensures var wv := Applied(Applied(db, raw, v), raw, w);
      if SameTarget(v, w) then wv == Applied(db, raw, w) else wv == Applied(Applied(db, raw, w), raw, v)
  {
    hide UpsertEvent, UpsertEntry, IdsApart, EntryKey;
    match (v, w)
    case (EventUpsert(e), EventUpsert(f)) =>
      EventAfterEvent(db, raw, e, f);
    case (EventUpsert(e), EntryUpsert(f, j)) =>
      EntryBesideEvent(db, raw, e, f, j);
    case (EntryUpsert(e, i), EventUpsert(f)) =>
      EntryBesideEvent(db, raw, f, e, i);
    case (EntryUpsert(e, i), EntryUpsert(f, j)) =>
      FilingUnmoved(db, e, i, f);
      FilingUnmoved(db, f, j, e);
      if EntryKey(e.id, i) == EntryKey(f.id, j) {
        SameEntryAgain(db, e, i, FiledAt(db, e), f, j, FiledAt(db, f));
      } else {
        EntriesApart(db, e, i, FiledAt(db, e), f, j, FiledAt(db, f));
      }
  }

  lemma FilingUnmoved(db: Database, e: NormalizedEvent, i: nat, f: NormalizedEvent)
    requires i < |e.entries|
    ensures FiledAt(UpsertEntry(db, e, i, FiledAt(db, e)), f) == FiledAt(db, f)
  {
    hide EntryKey;
  }

  lemma AppliedTwice(db: Database, raw: RawKey, u: Upsert)
    requires Indexed(u)
    ensures Applied(Applied(db, raw, u), raw, u) == Applied(db, raw, u)
  {
    hide UpsertEvent, UpsertEntry, FiledAt;
    match u
    case EventUpsert(e) =>
      EventTwice(db, raw, e);
    case EntryUpsert(e, i) =>
      FilingUnmoved(db, e, i, e);
      EntryTwice(db, e, i, FiledAt(db, e));
  }

  lemma EventTwice(db: Database, raw: RawKey, e: NormalizedEvent)
    ensures UpsertEvent(UpsertEvent(db, raw, e), raw, e) == UpsertEvent(db, raw, e)
  {
    var once := UpsertEvent(db, raw, e);
    var twice := UpsertEvent(once, raw, e);
    assert twice.eventKeys == once.eventKeys && twice.eventRows == once.eventRows;
  }

  lemma EntryTwice(db: Database, e: NormalizedEvent, i: nat, at: int)
    requires i < |e.entries|
    ensures UpsertEntry(UpsertEntry(db, e, i, at), e, i, at) == UpsertEntry(db, e, i, at)
  {
    hide EntryKey;
    var once := UpsertEntry(db, e, i, at);
    var twice := UpsertEntry(once, e, i, at);
    assert twice.entryKeys == once.entryKeys && twice.entryRows == once.entryRows;
  }

  // ---- lists of upserts ---------------------------------------------------------------------

  ghost predicate AllIndexed(us: seq<Upsert>) {
    forall u <- us :: Indexed(u)
  }

  /** Each entry comes after its event. */
  ghost predicate Ordered(db: Database, raw: RawKey, us: seq<Upsert>)
    requires AllIndexed(us)
  {
    us == [] ||
    (Ordered(db, raw, us[..|us| - 1]) && Ready(AppliedAll(db, raw, us[..|us| - 1]), us[|us| - 1]))
  }

  lemma {:induction false} AllProgress(db: Database, raw: RawKey, us: seq<Upsert>)
    requires AllIndexed(us) && IdsApart(db) && Ordered(db, raw, us)
    ensures IdsApart(AppliedAll(db, raw, us))
    ensures forall u <- us :: Resolved(AppliedAll(db, raw, us), u)
    ensures forall v | Resolved(db, v) :: Resolved(AppliedAll(db, raw, us), v)
    ensures forall v | Ready(db, v) :: Ready(AppliedAll(db, raw, us), v)
  {
    hide IdsApart, Resolved, Ready, Applied, Indexed;
    if us != [] {
      var front := us[..|us| - 1];
      AllProgress(db, raw, front);
      Progress(AppliedAll(db, raw, front), raw, us[|us| - 1]);
      assert us == front + [us[|us| - 1]];
    }
  }

  /** Doing an upsert both before and after resolved ones is doing it after them. */
  lemma {:induction false} LastOneWins(db: Database, raw: RawKey, w: Upsert, vs: seq<Upsert>)
    requires AllIndexed(vs) && Indexed(w) && Ready(db, w) && IdsApart(db)
    requires forall v <- vs :: Resolved(db, v)
    ensures Applied(AppliedAll(Applied(db, raw, w), raw, vs), raw, w) == Applied(AppliedAll(db, raw, vs), raw, w)
  {
    hide IdsApart, Resolved, Applied, Indexed, Ready, SameTarget;
    if vs == [] {
      AppliedTwice(db, raw, w);
    } else {
      var front, v := vs[..|vs| - 1], vs[|vs| - 1];
      LastOneWins(db, raw, w, front);
      Progress(db, raw, w);
      ResolvedOrdered(db, raw, front);
      ResolvedOrdered(Applied(db, raw, w), raw, front);
      AllProgress(db, raw, front);
      AllProgress(Applied(db, raw, w), raw, front);
      CommuteOrAbsorb(AppliedAll(Applied(db, raw, w), raw, front), raw, v, w);
      CommuteOrAbsorb(AppliedAll(db, raw, front), raw, v, w);
    }
  }

  lemma {:induction false} ResolvedOrdered(db: Database, raw: RawKey, us: seq<Upsert>)
    requires AllIndexed(us) && IdsApart(db) && forall u <- us :: Resolved(db, u)
    ensures Ordered(db, raw, us)
  {
    if us != [] {
      var front, u := us[..|us| - 1], us[|us| - 1];
      ResolvedOrdered(db, raw, front);
      AllProgress(db, raw, front);
      hide Applied, IdsApart;
      assert Resolved(AppliedAll(db, raw, front), u);
    }
  }

  /** Repeating a list of upserts changes nothing, even where the list writes one row several times. */
  lemma {:induction false} AllTwice(db: Database, raw: RawKey, us: seq<Upsert>)
    requires AllIndexed(us) && IdsApart(db) && Ordered(db, raw, us)
    ensures AppliedAll(AppliedAll(db, raw, us), raw, us) == AppliedAll(db, raw, us)
  {
    hide IdsApart, Resolved, Ready, Applied, Indexed;
    if us != [] {
      var front, w := us[..|us| - 1], us[|us| - 1];
      AllTwice(db, raw, front);
      AllProgress(db, raw, front);
      LastOneWins(AppliedAll(db, raw, front), raw, w, front);
    }
  }

  // ---- repeating an input -------------------------------------------------------------------

  lemma {:induction false} RawTablesUntouched(db: Database, raw: RawKey, us: seq<Upsert>)
    requires AllIndexed(us)
    ensures AppliedAll(db, raw, us).rawKeys == db.rawKeys && AppliedAll(db, raw, us).rawRows == db.rawRows
    ensures db.nextId <= AppliedAll(db, raw, us).nextId
  {
    hide EntryKey, FiledAt;
    if us != [] {
      RawTablesUntouched(db, raw, us[..|us| - 1]);
    }
  }

  lemma {:induction false} EntryUpsertsOrdered(db: Database, raw: RawKey, us: seq<Upsert>, e: NormalizedEvent, n: nat)
    requires AllIndexed(us) && Ordered(db, raw, us) && IdsApart(db)
    requires e.id in AppliedAll(db, raw, us).eventKeys && n <= |e.entries|
    ensures Ordered(db, raw, us + EntryUpserts(e, n)) && e.id in AppliedAll(db, raw, us + EntryUpserts(e, n)).eventKeys
  {
    hide IdsApart, Applied;
    if n == 0 {
      assert us + EntryUpserts(e, 0) == us;
    } else {
      var front, u := us + EntryUpserts(e, n - 1), EntryUpsert(e, n - 1);
      EntryUpsertsOrdered(db, raw, us, e, n - 1);
      AllProgress(db, raw, front);
      Progress(AppliedAll(db, raw, front), raw, u);
      assert us + EntryUpserts(e, n) == front + [u];
      AppliedMore(db, raw, front, u);
      assert (front + [u])[..|front|] == front;
    }
  }

  lemma {:induction false} UpsertsOrdered(db: Database, raw: RawKey, events: seq<NormalizedEvent>)
    requires IdsApart(db)
    ensures Ordered(db, raw, Upserts(events))
  {
    if events != [] {
      hide IdsApart, Applied, EntryUpserts;
      var front, e := events[..|events| - 1], events[|events| - 1];
      var us, u := Upserts(front), EventUpsert(e);
      UpsertsOrdered(db, raw, front);
      assert (us + [u])[..|us|] == us;
      AllProgress(db, raw, us);
      Progress(AppliedAll(db, raw, us), raw, u);
      EntryUpsertsOrdered(db, raw, us + [u], e, |e.entries|);
    }
  }

  /** Ingesting an input again, right after, is accepted and leaves every table as it is. */
  lemma IngestedTwice(p: Platform, db: Database, input: Input)
    requires IdsApart(db) && !Rejected(p, db, input)
    ensures var once := Ingested(p, db, input);
      && !Rejected(p, once, input)
      && RawKeyOf(p, once, input) == RawKeyOf(p, db, input)
      && Ingested(p, once, input) == once
  {
    hide RawIdempotencyKey, RawRowFor, AppliedAll, Upserts;
    var raw, us := RawKeyOf(p, db, input), Upserts(input.events);
    var start, once := WithRaw(p, db, input), Ingested(p, db, input);
    RawTablesUntouched(start, raw, us);
    assert WithRawKey(p, once, input) == once && RawKeyOf(p, once, input) == raw;
    assert RawRowOf(p, once, input) == RawRowOf(p, db, input);
    assert once.rawRows[raw := RawRowOf(p, once, input)] == once.rawRows;
    assert WithRaw(p, once, input) == once;
    UpsertsOrdered(start, raw, input.events);
    AllTwice(start, raw, us);
  }

  function IngestedTimes(p: Platform, db: Database, input: Input, n: nat): Database {
    if n == 0 then db else Ingested(p, IngestedTimes(p, db, input, n - 1), input)
  }

  /**
   * However often a write is retried because its outcome was not known, the database is as after
   * writing it once.
   */
  lemma {:induction false} RetryIsHarmless(p: Platform, db: Database, input: Input, n: nat)
    requires IdsApart(db) && !Rejected(p, db, input) && n > 0
    ensures IngestedTimes(p, db, input, n) == Ingested(p, db, input)
  {
    hide Ingested, Rejected, IdsApart;
    if n > 1 {
      RetryIsHarmless(p, db, input, n - 1);
      IngestedTwice(p, db, input);
    } else {
      assert IngestedTimes(p, db, input, 0) == db;
    }
  }

  // ---- one row for each key -----------------------------------------------------------------

  ghost predicate RawKeysApart(keys: map<string, RawKey>, nextId: nat) {
    && (forall k <- keys :: keys[k].id < nextId)
    && (forall k, l | k in keys && l in keys && k != l :: keys[k].id != keys[l].id)
  }

  ghost predicate RawRowsClaimed(keys: map<string, RawKey>, rows: map<RawKey, RawRow>) {
    && (forall k <- keys :: keys[k] in rows)
    && (forall r <- rows :: exists k :: k in keys && keys[k] == r)
  }

  ghost predicate RawRowsOwned(db: Database) {
    RawKeysApart(db.rawKeys, db.nextId) && RawRowsClaimed(db.rawKeys, db.rawRows)
  }

  ghost predicate EventRowsOwned(db: Database) {
    && (forall id <- db.eventKeys :: (id, db.eventKeys[id].receivedAt) in db.eventRows)
    && (forall r <- db.eventRows :: r.0 in db.eventKeys && db.eventKeys[r.0].receivedAt == r.1)
  }

  /** An entry key, the row it owns, and the event it belongs to. */
  ghost predicate EntryFits(db: Database, k: string) {
    k in db.entryKeys &&
    var r := db.entryKeys[k];
    && (exists i: nat :: k == EntryKey(r.eventId, i))
    && r.eventId in db.eventKeys && r.receivedAt == db.eventKeys[r.eventId].receivedAt
    && (r.id, r.receivedAt) in db.entryRows
    && db.entryRows[(r.id, r.receivedAt)].eventId == r.eventId
    && db.entryRows[(r.id, r.receivedAt)].eventReceivedAt == r.receivedAt
  }

  ghost predicate EntryRowsOwned(db: Database) {
    && (forall k <- db.entryKeys :: EntryFits(db, k))
    && (forall r <- db.entryRows :: exists k ::
        k in db.entryKeys && (db.entryKeys[k].id, db.entryKeys[k].receivedAt) == r)
  }

  /** Each key owns exactly one data row, each data row has a key, and an entry is filed with its event. */
  ghost predicate Owned(db: Database) {
    RawRowsOwned(db) && EventRowsOwned(db) && EntryRowsOwned(db) && IdsApart(db)
  }

  /** Entries stay as they are filed while no event is filed anew. */
  lemma EntryTablesStay(db: Database, d: Database)
    requires EntryRowsOwned(db) && IdsApart(db)
    requires d.entryKeys == db.entryKeys && d.entryRows == db.entryRows && db.nextId <= d.nextId
    requires forall id <- db.eventKeys :: id in d.eventKeys && d.eventKeys[id].receivedAt == db.eventKeys[id].receivedAt
    ensures EntryRowsOwned(d) && IdsApart(d)
  {
    hide EntryKey;
    forall k <- d.entryKeys
      ensures EntryFits(d, k)
    {
      assert EntryFits(db, k);
    }
  }

  lemma EventOwned(db: Database, raw: RawKey, e: NormalizedEvent)
    requires Owned(db)
    ensures Owned(UpsertEvent(db, raw, e))
  {
    hide EntryRowsOwned, IdsApart;
    EntryTablesStay(db, UpsertEvent(db, raw, e));
  }

  lemma EntryKeyReadsBack(a: string, i: nat, b: string, j: nat)
    requires EntryKey(a, i) == EntryKey(b, j)
    ensures a == b && i == j
  {
    SplitAtNumber(a, i, b, j, ':');
  }

  lemma EntryUpdated(db: Database, e: NormalizedEvent, i: nat)
    requires EntryRowsOwned(db) && IdsApart(db) && i < |e.entries| && EntryKey(e.id, i) in db.entryKeys
    ensures EntryRowsOwned(UpsertEntry(db, e, i, FiledAt(db, e)))
  {
    var d, key := UpsertEntry(db, e, i, FiledAt(db, e)), EntryKey(e.id, i);
    assert EntryFits(db, key);
    var j: nat :| key == EntryKey(db.entryKeys[key].eventId, j);
    EntryKeyReadsBack(e.id, i, db.entryKeys[key].eventId, j);
    hide EntryKey;
    forall k <- d.entryKeys
      ensures EntryFits(d, k)
    {
      assert EntryFits(db, k);
    }
  }

  lemma InsertedFits(db: Database, e: NormalizedEvent, i: nat)
    requires EntryRowsOwned(db) && IdsApart(db) && i < |e.entries| && EntryKey(e.id, i) !in db.entryKeys
    requires e.id in db.eventKeys
    ensures var d := UpsertEntry(db, e, i, FiledAt(db, e));
      forall k <- d.entryKeys :: EntryFits(d, k)
  {
    hide EntryKey;
    var d, key := UpsertEntry(db, e, i, FiledAt(db, e)), EntryKey(e.id, i);
    forall k <- d.entryKeys
      ensures EntryFits(d, k)
    {
      assert k != key ==> EntryFits(db, k);
    }
  }

  lemma EntryInserted(db: Database, e: NormalizedEvent, i: nat)
    requires EntryRowsOwned(db) && IdsApart(db) && i < |e.entries| && EntryKey(e.id, i) !in db.entryKeys
    requires e.id in db.eventKeys
    ensures EntryRowsOwned(UpsertEntry(db, e, i, FiledAt(db, e)))
  {
    hide EntryKey, EntryFits;
    var d, key := UpsertEntry(db, e, i, FiledAt(db, e)), EntryKey(e.id, i);
    var r := d.entryKeys[key];
    InsertedFits(db, e, i);
    forall row <- d.entryRows
      ensures exists k :: k in d.entryKeys && (d.entryKeys[k].id, d.entryKeys[k].receivedAt) == row
    {
      if row == (r.id, r.receivedAt) {
        assert key in d.entryKeys;
      } else {
        var k :| k in db.entryKeys && (db.entryKeys[k].id, db.entryKeys[k].receivedAt) == row;
        assert k in d.entryKeys && d.entryKeys[k] == db.entryKeys[k];
      }
    }
  }

  lemma EntryOwned(db: Database, raw: RawKey, e: NormalizedEvent, i: nat)
    requires Owned(db) && i < |e.entries| && e.id in db.eventKeys
    ensures Owned(UpsertEntry(db, e, i, FiledAt(db, e)))
  {
    hide EntryKey, EntryRowsOwned, IdsApart, FiledAt;
    Progress(db, raw, EntryUpsert(e, i));
    if EntryKey(e.id, i) in db.entryKeys {
      EntryUpdated(db, e, i);
    } else {
      EntryInserted(db, e, i);
    }
  }

  lemma {:induction false} AllOwned(db: Database, raw: RawKey, us: seq<Upsert>)
    requires AllIndexed(us) && Ordered(db, raw, us) && Owned(db)
    ensures Owned(AppliedAll(db, raw, us))
  {
    hide Owned, UpsertEvent, UpsertEntry;
    if us != [] {
      var front, u := us[..|us| - 1], us[|us| - 1];
      AllOwned(db, raw, front);
      assert u in us;
      match u
      case EventUpsert(e) => EventOwned(AppliedAll(db, raw, front), raw, e);
      case EntryUpsert(e, i) => EntryOwned(AppliedAll(db, raw, front), raw, e, i);
    }
  }

  lemma RawRowClaimed(keys: map<string, RawKey>, rows: map<RawKey, RawRow>, key: string, raw: RawKey, row: RawRow)
    requires RawRowsClaimed(keys, rows) && (key in keys ==> keys[key] == raw)
    ensures RawRowsClaimed(keys[key := raw], rows[raw := row])
  {
    var more, written := keys[key := raw], rows[raw := row];
    forall r | r in written
      ensures exists k :: k in more && more[k] == r
    {
      if r == raw {
        assert key in more;
      } else {
        var k :| k in keys && keys[k] == r;
        assert k in more;
      }
    }
  }

  lemma NewRawKeyApart(keys: map<string, RawKey>, nextId: nat, key: string, receivedAt: int)
    requires RawKeysApart(keys, nextId) && key !in keys
    ensures RawKeysApart(keys[key := RawKey(nextId, receivedAt)], nextId + 1)
  {
  }

  lemma RawOwned(p: Platform, db: Database, input: Input)
    requires Owned(db)
    ensures Owned(WithRaw(p, db, input))
  {
    hide RawIdempotencyKey, RawRowOf, RawKeysApart, RawRowsClaimed, EntryRowsOwned, IdsApart;
    var key, row := RawIdempotencyKey(p, input.raw, input.provider), RawRowOf(p, db, input);
    EntryTablesStay(db, WithRaw(p, db, input));
    RawRowClaimed(db.rawKeys, db.rawRows, key, RawKeyOf(p, db, input), row);
    if key in db.rawKeys {
      assert db.rawKeys[key := db.rawKeys[key]] == db.rawKeys;
    } else {
      NewRawKeyApart(db.rawKeys, db.nextId, key, input.receivedAt);
    }
  }

  lemma IngestedOwned(p: Platform, db: Database, input: Input)
    requires Owned(db)
    ensures Owned(Ingested(p, db, input))
  {
    hide Owned, AppliedAll, Ordered, WithRaw, RawKeyOf;
    RawOwned(p, db, input);
    assert IdsApart(WithRaw(p, db, input)) by {
      OwnedApart(WithRaw(p, db, input));
    }
    UpsertsOrdered(WithRaw(p, db, input), RawKeyOf(p, db, input), input.events);
    AllOwned(WithRaw(p, db, input), RawKeyOf(p, db, input), Upserts(input.events));
  }

  lemma OwnedApart(db: Database)
    requires Owned(db)
    ensures IdsApart(db)
  {
  }

  // ---- the raw key ignores key order --------------------------------------------------------

  lemma {:induction false} FieldLookup(fields: seq<Field>, j: nat)
    requires DistinctKeys(fields) && j < |fields|
    ensures FieldNamed(fields, fields[j].key) == Some(fields[j].value)
  {
    if j > 0 {
      FieldLookup(fields[1..], j - 1);
    }
  }

  lemma Symmetric(a: Json, b: Json)
    requires WellFormed(a) && WellFormed(b) && SameButForKeyOrder(a, b)
    ensures SameButForKeyOrder(b, a)
  {
    SameForm(a, b);
    SameForm(b, a);
  }

  lemma FieldFound(a: Json, b: Json, i: nat)
    requires WellFormed(a) && WellFormed(b) && SameButForKeyOrder(a, b) && a.Object? && i < |a.fields|
    ensures b.Object?
    ensures FieldNamed(a.fields, a.fields[i].key) == Some(a.fields[i].value)
    ensures FieldNamed(b.fields, a.fields[i].key).Some? &&
            SameButForKeyOrder(a.fields[i].value, FieldNamed(b.fields, a.fields[i].key).value)
  {
    hide FieldNamed;
    assert HasCounterpart(a.fields[i], b.fields);
    var j :| 0 <= j < |b.fields| && b.fields[j].key == a.fields[i].key &&
      SameButForKeyOrder(a.fields[i].value, b.fields[j].value);
    FieldLookup(a.fields, i);
    FieldLookup(b.fields, j);
  }

  lemma {:induction false} FieldIndex(fields: seq<Field>, key: string)
    requires FieldNamed(fields, key).Some?
    ensures exists i | 0 <= i < |fields| :: fields[i].key == key
  {
    if fields[0].key != key {
      FieldIndex(fields[1..], key);
      var i :| 0 <= i < |fields[1..]| && fields[1..][i].key == key;
      assert fields[i + 1].key == key;
    } else {
      assert fields[0].key == key;
    }
  }

  /** Looking a key up succeeds in both or in neither, with values that differ in key order alone. */
  lemma SameLookup(a: Json, b: Json, key: string)
    requires WellFormed(a) && WellFormed(b) && SameButForKeyOrder(a, b) && a.Object? && b.Object?
    ensures FieldNamed(a.fields, key).Some? <==> FieldNamed(b.fields, key).Some?
    ensures FieldNamed(a.fields, key).Some? ==>
              SameButForKeyOrder(FieldNamed(a.fields, key).value, FieldNamed(b.fields, key).value)
  {
    hide FieldNamed, WellFormed, SameButForKeyOrder;
    if FieldNamed(a.fields, key).Some? {
      FieldIndex(a.fields, key);
      var i :| 0 <= i < |a.fields| && a.fields[i].key == key;
      FieldFound(a, b, i);
    } else if FieldNamed(b.fields, key).Some? {
      Symmetric(a, b);
      FieldIndex(b.fields, key);
      var i :| 0 <= i < |b.fields| && b.fields[i].key == key;
      FieldFound(b, a, i);
    }
  }

  lemma SameText(a: Json, b: Json)
    requires SameButForKeyOrder(a, b)
    ensures a.Text? || b.Text? ==> a == b
    ensures a.Object? <==> b.Object?
  {
  }

  /** Key order does not change what a text field reads as. */
  lemma SameTextField(p: Platform, a: Json, b: Json, field: string)
    requires WellFormed(a) && WellFormed(b) && SameButForKeyOrder(a, b)
    ensures GetStringField(p, a, field) == GetStringField(p, b, field)
  {
    hide FieldNamed, WellFormed, SameButForKeyOrder;
    SameText(a, b);
    if a.Object? {
      SameLookup(a, b, field);
      if FieldNamed(a.fields, field).Some? {
        SameText(FieldNamed(a.fields, field).value, FieldNamed(b.fields, field).value);
      }
    }
  }

  /** A payload delivered again with its keys in another order is the same raw event, with the same hash. */
  lemma KeyOrderIgnored(p: Platform, a: Json, b: Json, provider: string)
    requires WellFormed(a) && WellFormed(b) && SameButForKeyOrder(a, b)
    ensures RawIdempotencyKey(p, a, provider) == RawIdempotencyKey(p, b, provider)
    ensures p.hash(Stabilize(a)) == p.hash(Stabilize(b))
  {
    SameForm(a, b);
    SameTextField(p, a, b, "id");
    SameTextField(p, a, b, "chapter");
    SameTextField(p, a, b, "category");
  }

  /** Without an id, and unless their hashes collide, payloads share a key only if they differ in key order alone. */
  lemma HashedKeysTellPayloadsApart(p: Platform, a: Json, b: Json, provider: string)
    requires WellFormed(a) && WellFormed(b)
    requires GetStringField(p, a, "id").None? && GetStringField(p, b, "id").None?
    requires p.hash(Stabilize(a)) == p.hash(Stabilize(b)) ==> Stabilize(a) == Stabilize(b)
    ensures RawIdempotencyKey(p, a, provider) == RawIdempotencyKey(p, b, provider) <==> SameButForKeyOrder(a, b)
  {
    SameForm(a, b);
    var x, y := p.hash(Stabilize(a)), p.hash(Stabilize(b));
    var prefix := provider + ":hash:";
    assert (prefix + x)[|prefix|..] == x && (prefix + y)[|prefix|..] == y;
  }
}
