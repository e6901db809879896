/** What the database holds after whole runs of ingestion attempts, failed ones included. */
module IngestionRuns {
  import opened Wrappers
  import opened EventRepository
  import opened IngestionHistory

  /** An input, and how many queries its connection answers. */
  datatype Attempt = Attempt(input: Input, lasting: nat)

  predicate Commits(p: Platform, db: Database, a: Attempt) {
    Queries(a.input) <= a.lasting && !Rejected(p, db, a.input)
  }

  function After(p: Platform, attempts: seq<Attempt>): Database {
    if attempts == [] then EmptyDatabase()
    else
      var db, last := After(p, attempts[..|attempts| - 1]), attempts[|attempts| - 1];
      if Commits(p, db, last) then Ingested(p, db, last.input) else db
  }

  /** The inputs whose transactions committed, oldest first. */
  function Committed(p: Platform, attempts: seq<Attempt>): seq<Input> {
    if attempts == [] then []
    else
      var front, last := attempts[..|attempts| - 1], attempts[|attempts| - 1];
      Committed(p, front) + if Commits(p, After(p, front), last) then [last.input] else []
  }

  function EventsOf(inputs: seq<Input>): seq<NormalizedEvent> {
    if inputs == [] then [] else EventsOf(inputs[..|inputs| - 1]) + inputs[|inputs| - 1].events
  }

  /** The first version of an event ever committed. */
  function FirstSeen(events: seq<NormalizedEvent>, id: string): Option<NormalizedEvent> {
    if events == [] then None
    else
      var earlier := FirstSeen(events[..|events| - 1], id);
      if earlier.None? && events[|events| - 1].id == id then Some(events[|events| - 1]) else earlier
  }

  function LastSeen(events: seq<NormalizedEvent>, id: string): Option<NormalizedEvent> {
    if events == [] then None
    else if events[|events| - 1].id == id then Some(events[|events| - 1])
    else LastSeen(events[..|events| - 1], id)
  }

  function FirstWithKey(p: Platform, inputs: seq<Input>, key: string): Option<Input> {
    if inputs == [] then None
    else
      var earlier, last := FirstWithKey(p, inputs[..|inputs| - 1], key), inputs[|inputs| - 1];
      if earlier.None? && RawIdempotencyKey(p, last.raw, last.provider) == key then Some(last) else earlier
  }

  /** An event is filed under the time it was first seen, and its row shows its latest version. */
  ghost predicate EventFollows(db: Database, events: seq<NormalizedEvent>, id: string) {
    var first, last := FirstSeen(events, id), LastSeen(events, id);
    if id !in db.eventKeys then first.None? && last.None?
    else
      var at := db.eventKeys[id].receivedAt;
      && first.Some? && last.Some? && first.value.receivedAt == at && (id, at) in db.eventRows
      && var row, e := db.eventRows[(id, at)], last.value;
         row == EventRow(row.raw, e.feedKey, e.chapter, e.category, e.timestamp, e.parserStatus, e.rest)
  }

  ghost predicate EventsFollow(db: Database, events: seq<NormalizedEvent>) {
    forall id :: EventFollows(db, events, id)
  }

  lemma EventUpsertFollows(db: Database, raw: RawKey, events: seq<NormalizedEvent>, e: NormalizedEvent)
    requires EventsFollow(db, events)
    ensures EventsFollow(UpsertEvent(db, raw, e), events + [e])
  {
    assert (events + [e])[..|events|] == events;
    forall id
      ensures EventFollows(UpsertEvent(db, raw, e), events + [e], id)
    {
      assert EventFollows(db, events, id);
    }
  }

  lemma {:induction false} EntriesFollow(db: Database, raw: RawKey, us: seq<Upsert>, e: NormalizedEvent, n: nat)
    requires AllIndexed(us) && n <= |e.entries|
    ensures var d, before := AppliedAll(db, raw, us + EntryUpserts(e, n)), AppliedAll(db, raw, us);
      d.eventKeys == before.eventKeys && d.eventRows == before.eventRows
  {
    hide FiledAt, UpsertEntry;
    if n == 0 {
      assert us + EntryUpserts(e, 0) == us;
    } else {
      EntriesFollow(db, raw, us, e, n - 1);
      EntryUpsertsGrow(db, raw, us, e, n - 1);
      var d := AppliedAll(db, raw, us + EntryUpserts(e, n - 1));
      EntryLeavesEvents(d, e, n - 1, FiledAt(d, e));
    }
  }

  lemma EntryLeavesEvents(db: Database, e: NormalizedEvent, i: nat, at: int)
    requires i < |e.entries|
    ensures UpsertEntry(db, e, i, at).eventKeys == db.eventKeys && UpsertEntry(db, e, i, at).eventRows == db.eventRows
  {
    hide EntryKey;
  }

  lemma {:induction false} UpsertsFollow(db: Database, raw: RawKey, seen: seq<NormalizedEvent>,
                                         events: seq<NormalizedEvent>)
    requires EventsFollow(db, seen)
    ensures EventsFollow(AppliedAll(db, raw, Upserts(events)), seen + events)
  {
    if events == [] {
      assert seen + [] == seen;
    } else {
      hide EntryUpserts, UpsertEvent, UpsertEntry, EventFollows;
      var front, e := events[..|events| - 1], events[|events| - 1];
      UpsertsFollow(db, raw, seen, front);
      EventUpsertFollows(AppliedAll(db, raw, Upserts(front)), raw, seen + front, e);
      assert seen + front + [e] == seen + events;
      AppliedMore(db, raw, Upserts(front), EventUpsert(e));
      EntriesFollow(db, raw, Upserts(front) + [EventUpsert(e)], e, |e.entries|);
      SameEventTables(AppliedAll(db, raw, Upserts(front) + [EventUpsert(e)]), AppliedAll(db, raw, Upserts(events)),
                      seen + events);
    }
  }

  lemma SameEventTables(db: Database, d: Database, events: seq<NormalizedEvent>)
    requires d.eventKeys == db.eventKeys && d.eventRows == db.eventRows && EventsFollow(db, events)
    ensures EventsFollow(d, events)
  {
    forall id
      ensures EventFollows(d, events, id)
    {
      assert EventFollows(db, events, id);
    }
  }

  /** A raw key keeps the time of the first committed input that carried it. */
  ghost predicate RawKeysFollow(p: Platform, db: Database, inputs: seq<Input>) {
    forall key: string :: var first := FirstWithKey(p, inputs, key);
      if key in db.rawKeys then first.Some? && first.value.receivedAt == db.rawKeys[key].receivedAt else first.None?
  }

  lemma RawKeyFollows(p: Platform, db: Database, inputs: seq<Input>, input: Input)
    requires RawKeysFollow(p, db, inputs)
    ensures RawKeysFollow(p, WithRaw(p, db, input), inputs + [input])
  {
    hide RawIdempotencyKey, RawRowFor, MergedRawRow;
    assert (inputs + [input])[..|inputs|] == inputs;
  }

  lemma IngestedFollows(p: Platform, db: Database, inputs: seq<Input>, input: Input)
    requires RawKeysFollow(p, db, inputs) && EventsFollow(db, EventsOf(inputs))
    ensures RawKeysFollow(p, Ingested(p, db, input), inputs + [input])
    ensures EventsFollow(Ingested(p, db, input), EventsOf(inputs + [input]))
  {
    hide RawIdempotencyKey, RawRowOf, RawKeysFollow, EventFollows, AppliedAll;
    var raw, d := RawKeyOf(p, db, input), WithRaw(p, db, input);
    assert (inputs + [input])[..|inputs|] == inputs;
    RawKeyFollows(p, db, inputs, input);
    SameEventTables(db, d, EventsOf(inputs));
    UpsertsFollow(d, raw, EventsOf(inputs), input.events);
    RawTablesUntouched(d, raw, Upserts(input.events));
    SameRawKeys(p, d, Ingested(p, db, input), inputs + [input]);
  }

  lemma SameRawKeys(p: Platform, db: Database, d: Database, inputs: seq<Input>)
    requires d.rawKeys == db.rawKeys && RawKeysFollow(p, db, inputs)
    ensures RawKeysFollow(p, d, inputs)
  {
  }

  // ---- raw links ----------------------------------------------------------------------------

  predicate Carries(events: seq<NormalizedEvent>, id: string) {
    exists e <- events :: e.id == id
  }

  function LastCarrying(inputs: seq<Input>, id: string): Option<Input> {
    if inputs == [] then None
    else if Carries(inputs[|inputs| - 1].events, id) then Some(inputs[|inputs| - 1])
    else LastCarrying(inputs[..|inputs| - 1], id)
  }

  /** Both the key and the row of the event point at this raw event. */
  ghost predicate Linked(db: Database, id: string, raw: RawKey) {
    && id in db.eventKeys && db.eventKeys[id].raw == raw
    && (id, db.eventKeys[id].receivedAt) in db.eventRows
    && db.eventRows[(id, db.eventKeys[id].receivedAt)].raw == raw
  }

  /** An event points at the raw event of the last committed input that carried it. */
  ghost predicate LinksFollow(p: Platform, db: Database, inputs: seq<Input>) {
    forall id: string :: LinkFollows(p, db, LastCarrying(inputs, id), id)
  }

  ghost predicate LinkFollows(p: Platform, db: Database, last: Option<Input>, id: string) {
    match last
    case None => id !in db.eventKeys
    case Some(input) =>
      var key := RawIdempotencyKey(p, input.raw, input.provider);
      key in db.rawKeys && Linked(db, id, db.rawKeys[key])
  }

  lemma {:induction false} UpsertsLink(db: Database, raw: RawKey, events: seq<NormalizedEvent>, id: string,
                                       before: RawKey)
    ensures var d := AppliedAll(db, raw, Upserts(events));
      if Carries(events, id) then Linked(d, id, raw)
      else (id in d.eventKeys <==> id in db.eventKeys) && (Linked(db, id, before) ==> Linked(d, id, before))
  {
    if events != [] {
      hide EntryUpserts, UpsertEvent, UpsertEntry, Linked;
      var front, e := events[..|events| - 1], events[|events| - 1];
      assert events == front + [e];
      var d := AppliedAll(db, raw, Upserts(front));
      UpsertsLink(db, raw, front, id, before);
      AppliedMore(db, raw, Upserts(front), EventUpsert(e));
      EntriesFollow(db, raw, Upserts(front) + [EventUpsert(e)], e, |e.entries|);
      UpsertLinks(d, raw, e, id, if Carries(front, id) then raw else before);
      LinkedAlike(UpsertEvent(d, raw, e), AppliedAll(db, raw, Upserts(events)), id);
    }
  }

  lemma LinkedAlike(db: Database, d: Database, id: string)
    requires d.eventKeys == db.eventKeys && d.eventRows == db.eventRows
    ensures forall raw :: Linked(db, id, raw) <==> Linked(d, id, raw)
  {
  }

  lemma UpsertLinks(db: Database, raw: RawKey, e: NormalizedEvent, id: string, before: RawKey)
    ensures var d := UpsertEvent(db, raw, e);
      if e.id == id then Linked(d, id, raw)
      else (id in d.eventKeys <==> id in db.eventKeys) && (Linked(db, id, before) ==> Linked(d, id, before))
  {
  }

  lemma RawKeysKept(p: Platform, db: Database, input: Input)
    ensures var d, key := WithRaw(p, db, input), RawIdempotencyKey(p, input.raw, input.provider);
      && d.eventKeys == db.eventKeys && d.eventRows == db.eventRows
      && key in d.rawKeys && d.rawKeys[key] == RawKeyOf(p, db, input)
      && forall k <- db.rawKeys :: k in d.rawKeys && d.rawKeys[k] == db.rawKeys[k]
  {
    hide RawIdempotencyKey, RawRowOf;
  }

  lemma IngestedLink(p: Platform, db: Database, last: Option<Input>, input: Input, id: string)
    requires LinkFollows(p, db, last, id)
    ensures LinkFollows(p, Ingested(p, db, input), if Carries(input.events, id) then Some(input) else last, id)
  {
    hide RawIdempotencyKey, AppliedAll, Upserts, Carries, Linked, WithRaw, RawKeyOf;
    var raw, d := RawKeyOf(p, db, input), WithRaw(p, db, input);
    RawKeysKept(p, db, input);
    RawTablesUntouched(d, raw, Upserts(input.events));
    var before := if last.Some? then db.rawKeys[RawIdempotencyKey(p, last.value.raw, last.value.provider)] else raw;
    LinkedAlike(db, d, id);
    UpsertsLink(d, raw, input.events, id, before);
  }

  lemma IngestedLinks(p: Platform, db: Database, inputs: seq<Input>, input: Input)
    requires LinksFollow(p, db, inputs)
    ensures LinksFollow(p, Ingested(p, db, input), inputs + [input])
  {
    hide LinkFollows, Carries, Ingested;
    assert (inputs + [input])[..|inputs|] == inputs;
    forall id: string
      ensures LinkFollows(p, Ingested(p, db, input), LastCarrying(inputs + [input], id), id)
    {
      assert LinkFollows(p, db, LastCarrying(inputs, id), id);
      IngestedLink(p, db, LastCarrying(inputs, id), input, id);
    }
  }

  // ---- raw rows -----------------------------------------------------------------------------

  function KeyOfInput(p: Platform, input: Input): string {
    RawIdempotencyKey(p, input.raw, input.provider)
  }

  function LastWithKey(p: Platform, inputs: seq<Input>, key: string): Option<Input> {
    if inputs == [] then None
    else if KeyOfInput(p, inputs[|inputs| - 1]) == key then Some(inputs[|inputs| - 1])
    else LastWithKey(p, inputs[..|inputs| - 1], key)
  }

  /** A raw key exists exactly if some input had it; its row is that of the last, but for the first one's provider. */
  ghost predicate RawRowFollows(p: Platform, db: Database, first: Option<Input>, last: Option<Input>, key: string) {
    if key !in db.rawKeys then first.None? && last.None?
    else
      && first.Some? && last.Some? && db.rawKeys[key] in db.rawRows
      && db.rawRows[db.rawKeys[key]] == RawRowFor(p, last.value).(provider := first.value.provider)
  }

  ghost predicate RawRowsFollow(p: Platform, db: Database, inputs: seq<Input>) {
    forall key: string :: RawRowFollows(p, db, FirstWithKey(p, inputs, key), LastWithKey(p, inputs, key), key)
  }

  lemma InputWithKey(p: Platform, inputs: seq<Input>, input: Input, key: string)
    ensures FirstWithKey(p, inputs + [input], key) ==
            if FirstWithKey(p, inputs, key).None? && KeyOfInput(p, input) == key then Some(input)
            else FirstWithKey(p, inputs, key)
    ensures LastWithKey(p, inputs + [input], key) ==
            if KeyOfInput(p, input) == key then Some(input) else LastWithKey(p, inputs, key)
  {
    hide RawIdempotencyKey;
    assert (inputs + [input])[..|inputs|] == inputs;
  }

  lemma OtherRawRow(p: Platform, db: Database, input: Input, first: Option<Input>, last: Option<Input>, key: string)
    requires RawRowsOwned(db) && RawRowFollows(p, db, first, last, key) && KeyOfInput(p, input) != key
    ensures RawRowFollows(p, WithRaw(p, db, input), first, last, key)
  {
    hide RawIdempotencyKey, RawRowFor, MergedRawRow;
  }

  lemma ThisRawRow(p: Platform, db: Database, input: Input, first: Option<Input>, last: Option<Input>)
    requires RawRowsOwned(db) && RawRowFollows(p, db, first, last, KeyOfInput(p, input))
    ensures RawRowFollows(p, WithRaw(p, db, input), if first.None? then Some(input) else first, Some(input),
                          KeyOfInput(p, input))
  {
    hide RawIdempotencyKey;
    var key := KeyOfInput(p, input);
    assert RawRowFor(p, input).provider == input.provider;
    hide RawRowFor;
    if key !in db.rawKeys {
      NewRawKeyUnclaimed(db, RawKey(db.nextId, input.receivedAt));
    }
  }

  lemma NewRawKeyUnclaimed(db: Database, raw: RawKey)
    requires RawRowsOwned(db) && raw.id == db.nextId
    ensures raw !in db.rawRows
  {
  }

  lemma IngestedRawRows(p: Platform, db: Database, inputs: seq<Input>, input: Input)
    requires Owned(db) && RawRowsFollow(p, db, inputs)
    ensures RawRowsFollow(p, Ingested(p, db, input), inputs + [input])
  {
    hide RawRowFollows, AppliedAll, Upserts, RawKeyOf, WithRaw, KeyOfInput, FirstWithKey, LastWithKey;
    hide RawRowsOwned, EventRowsOwned, EntryRowsOwned, IdsApart;
    var d, r := WithRaw(p, db, input), Ingested(p, db, input);
    RawTablesUntouched(d, RawKeyOf(p, db, input), Upserts(input.events));
    forall key: string
      ensures RawRowFollows(p, r, FirstWithKey(p, inputs + [input], key), LastWithKey(p, inputs + [input], key), key)
    {
      var first, last := FirstWithKey(p, inputs, key), LastWithKey(p, inputs, key);
      assert RawRowFollows(p, db, first, last, key);
      InputWithKey(p, inputs, input, key);
      if KeyOfInput(p, input) == key {
        ThisRawRow(p, db, input, first, last);
        SameRawRow(p, d, r, if first.None? then Some(input) else first, Some(input), key);
      } else {
        OtherRawRow(p, db, input, first, last, key);
        SameRawRow(p, d, r, first, last, key);
      }
    }
  }

  lemma SameRawRow(p: Platform, db: Database, d: Database, first: Option<Input>, last: Option<Input>, key: string)
    requires d.rawKeys == db.rawKeys && d.rawRows == db.rawRows && RawRowFollows(p, db, first, last, key)
    ensures RawRowFollows(p, d, first, last, key)
  {
    hide RawRowFor;
  }

  // ---- entries ------------------------------------------------------------------------------

  /** The last version of an event that has an entry at this index. */
  function LastHaving(events: seq<NormalizedEvent>, id: string, i: nat): (r: Option<NormalizedEvent>)
    ensures r.Some? ==> r.value.id == id && i < |r.value.entries|
  {
    if events == [] then None
    else
      var last := events[|events| - 1];
      if last.id == id && i < |last.entries| then Some(last) else LastHaving(events[..|events| - 1], id, i)
  }

  /** An entry has a key exactly if some version of its event had it; its row shows the last of them. */
  ghost predicate EntryFollows(db: Database, last: Option<NormalizedEvent>, id: string, i: nat)
    requires last.Some? ==> i < |last.value.entries|
  {
    var key := EntryKey(id, i);
    match last
    case None => key !in db.entryKeys
    case Some(e) =>
      && id in db.eventKeys && key in db.entryKeys
      && var k, at := db.entryKeys[key], db.eventKeys[id].receivedAt;
         && k.eventId == id && k.receivedAt == at && (k.id, at) in db.entryRows
         && db.entryRows[(k.id, at)] == EntryRow(id, at, e.feedKey, e.entries[i])
  }

  ghost predicate EntryRowsFollow(db: Database, events: seq<NormalizedEvent>) {
    forall id: string, i: nat :: EntryFollows(db, LastHaving(events, id, i), id, i)
  }

  /** An event of which only the first entries have been seen. */
  function Partial(e: NormalizedEvent, n: nat): NormalizedEvent
    requires n <= |e.entries|
  {
    e.(entries := e.entries[..n])
  }

  lemma LastHavingMore(events: seq<NormalizedEvent>, e: NormalizedEvent, id: string, i: nat)
    ensures LastHaving(events + [e], id, i) ==
            if e.id == id && i < |e.entries| then Some(e) else LastHaving(events, id, i)
  {
    assert (events + [e])[..|events|] == events;
  }

  lemma EventKeepsEntries(db: Database, raw: RawKey, events: seq<NormalizedEvent>, e: NormalizedEvent)
    requires EntryRowsFollow(db, events)
    ensures EntryRowsFollow(UpsertEvent(db, raw, e), events + [Partial(e, 0)])
  {
    hide EntryKey, LastHaving;
    forall id: string, i: nat
      ensures EntryFollows(UpsertEvent(db, raw, e), LastHaving(events + [Partial(e, 0)], id, i), id, i)
    {
      LastHavingMore(events, Partial(e, 0), id, i);
      assert EntryFollows(db, LastHaving(events, id, i), id, i);
    }
  }

  /** Writing one entry leaves the other entries alone. */
  lemma OtherEntryFollows(db: Database, e: NormalizedEvent, n: nat, last: Option<NormalizedEvent>, id: string, i: nat)
    requires n < |e.entries| && IdsApart(db) && EntryKey(e.id, n) != EntryKey(id, i)
    requires last.Some? ==> i < |last.value.entries|
    requires EntryFollows(db, last, id, i)
    ensures EntryFollows(UpsertEntry(db, e, n, FiledAt(db, e)), last, id, i)
  {
    hide EntryKey;
  }

  lemma ThisEntryFollows(db: Database, e: NormalizedEvent, n: nat, last: Option<NormalizedEvent>)
    requires n < |e.entries| && e.id in db.eventKeys
    requires last.Some? ==> n < |last.value.entries|
    requires EntryFollows(db, last, e.id, n)
    ensures EntryFollows(UpsertEntry(db, e, n, FiledAt(db, e)), Some(Partial(e, n + 1)), e.id, n)
  {
    hide EntryKey;
  }

  lemma EntryUpsertFollows(db: Database, events: seq<NormalizedEvent>, e: NormalizedEvent, n: nat)
    requires n < |e.entries| && IdsApart(db) && e.id in db.eventKeys
    requires EntryRowsFollow(db, events + [Partial(e, n)])
    ensures EntryRowsFollow(UpsertEntry(db, e, n, FiledAt(db, e)), events + [Partial(e, n + 1)])
  {
    hide EntryKey, LastHaving, UpsertEntry, FiledAt, IdsApart;
    var d, more := UpsertEntry(db, e, n, FiledAt(db, e)), events + [Partial(e, n + 1)];
    forall id: string, i: nat
      ensures EntryFollows(d, LastHaving(more, id, i), id, i)
    {
      LastHavingMore(events, Partial(e, n), id, i);
      LastHavingMore(events, Partial(e, n + 1), id, i);
      var last := LastHaving(events + [Partial(e, n)], id, i);
      assert EntryFollows(db, last, id, i);
      if id == e.id && i == n {
        ThisEntryFollows(db, e, n, last);
      } else {
        if EntryKey(e.id, n) == EntryKey(id, i) {
          EntryKeyReadsBack(e.id, n, id, i);
          assert false;
        }
        OtherEntryFollows(db, e, n, last, id, i);
        SameEntryText(d, e, n, last, events, id, i);
      }
    }
  }

  /** One entry more does not change the others an event has. */
  lemma SameEntryText(d: Database, e: NormalizedEvent, n: nat, last: Option<NormalizedEvent>,
                      events: seq<NormalizedEvent>, id: string, i: nat)
    requires n < |e.entries| && !(id == e.id && i == n)
    requires last == LastHaving(events + [Partial(e, n)], id, i) && EntryFollows(d, last, id, i)
    ensures EntryFollows(d, LastHaving(events + [Partial(e, n + 1)], id, i), id, i)
  {
    hide EntryKey, LastHaving;
    LastHavingMore(events, Partial(e, n), id, i);
    LastHavingMore(events, Partial(e, n + 1), id, i);
  }

  lemma {:induction false} EntriesUpserted(db: Database, raw: RawKey, us: seq<Upsert>, events: seq<NormalizedEvent>,
                                           e: NormalizedEvent, n: nat)
    requires AllIndexed(us) && Ordered(db, raw, us) && IdsApart(db) && n <= |e.entries|
    requires e.id in AppliedAll(db, raw, us).eventKeys
    requires EntryRowsFollow(AppliedAll(db, raw, us), events + [Partial(e, 0)])
    ensures EntryRowsFollow(AppliedAll(db, raw, us + EntryUpserts(e, n)), events + [Partial(e, n)])
  {
    hide EntryRowsFollow, IdsApart, UpsertEntry, Ordered, FiledAt;
    if n == 0 {
      assert us + EntryUpserts(e, 0) == us;
    } else {
      EntriesUpserted(db, raw, us, events, e, n - 1);
      var d := AppliedAll(db, raw, us + EntryUpserts(e, n - 1));
      EntryUpsertsOrdered(db, raw, us, e, n - 1);
      AllProgress(db, raw, us + EntryUpserts(e, n - 1));
      EntryUpsertsGrow(db, raw, us, e, n - 1);
      EntryUpsertFollows(d, events, e, n - 1);
    }
  }

  lemma OneEventKeeps(db: Database, raw: RawKey, seen: seq<NormalizedEvent>, front: seq<NormalizedEvent>,
                      e: NormalizedEvent)
    requires IdsApart(db) && EntryRowsFollow(AppliedAll(db, raw, Upserts(front)), seen)
    ensures EntryRowsFollow(AppliedAll(db, raw, Upserts(front) + [EventUpsert(e)] + EntryUpserts(e, |e.entries|)),
                            seen + [e])
  {
    hide EntryUpserts, UpsertEvent, UpsertEntry, EntryRowsFollow, IdsApart, Upserts, AppliedAll, Ordered;
    var us := Upserts(front);
    EventKeepsEntries(AppliedAll(db, raw, us), raw, seen, e);
    AppliedMore(db, raw, us, EventUpsert(e));
    EventOrdered(db, raw, front, e);
    EntriesUpserted(db, raw, us + [EventUpsert(e)], seen, e, |e.entries|);
    assert Partial(e, |e.entries|) == e;
  }

  lemma {:induction false} UpsertsKeepEntries(db: Database, raw: RawKey, seen: seq<NormalizedEvent>,
                                              events: seq<NormalizedEvent>)
    requires EntryRowsFollow(db, seen) && IdsApart(db)
    ensures EntryRowsFollow(AppliedAll(db, raw, Upserts(events)), seen + events)
  {
    if events == [] {
      assert seen + [] == seen;
    } else {
      hide EntryUpserts, EntryRowsFollow, IdsApart, AppliedAll;
      var front, e := events[..|events| - 1], events[|events| - 1];
      UpsertsKeepEntries(db, raw, seen, front);
      OneEventKeeps(db, raw, seen + front, front, e);
      assert seen + front + [e] == seen + events;
    }
  }

  lemma EventOrdered(db: Database, raw: RawKey, front: seq<NormalizedEvent>, e: NormalizedEvent)
    requires IdsApart(db)
    ensures var us := Upserts(front) + [EventUpsert(e)];
      Ordered(db, raw, us) && e.id in AppliedAll(db, raw, us).eventKeys
  {
    hide IdsApart, EntryUpserts;
    var us, u := Upserts(front), EventUpsert(e);
    UpsertsOrdered(db, raw, front);
    assert (us + [u])[..|us|] == us;
    AppliedMore(db, raw, us, u);
  }

  lemma IngestedEntries(p: Platform, db: Database, inputs: seq<Input>, input: Input)
    requires EntryRowsFollow(db, EventsOf(inputs)) && Owned(db)
    ensures EntryRowsFollow(Ingested(p, db, input), EventsOf(inputs + [input]))
  {
    hide RawIdempotencyKey, RawRowOf, Owned, EntryFollows, AppliedAll;
    var raw, d := RawKeyOf(p, db, input), WithRaw(p, db, input);
    assert (inputs + [input])[..|inputs|] == inputs;
    RawOwned(p, db, input);
    OwnedApart(d);
    SameEntryTables(db, d, EventsOf(inputs));
    UpsertsKeepEntries(d, raw, EventsOf(inputs), input.events);
  }

  lemma SameEntryTables(db: Database, d: Database, events: seq<NormalizedEvent>)
    requires d.eventKeys == db.eventKeys && d.entryKeys == db.entryKeys && d.entryRows == db.entryRows
    requires EntryRowsFollow(db, events)
    ensures EntryRowsFollow(d, events)
  {
    hide LastHaving, EntryKey;
    forall id: string, i: nat
      ensures EntryFollows(d, LastHaving(events, id, i), id, i)
    {
      assert EntryFollows(db, LastHaving(events, id, i), id, i);
    }
  }

  // ---- every run ----------------------------------------------------------------------------

  /**
   * After any run of attempts, failed ones included: every key owns exactly one data row, filed under
   * the time first seen among what was committed; a raw row is that of the last committed input with
   * its key, but for the provider of the first; an event row shows the last committed version and
   * points at the raw event it came with; an entry row shows the last committed text; and a failed
   * attempt has left no trace.
   */
  lemma {:induction false} DatabaseFollowsCommits(p: Platform, attempts: seq<Attempt>)
    ensures var db, inputs := After(p, attempts), Committed(p, attempts);
      && Owned(db) && RawKeysFollow(p, db, inputs) && EventsFollow(db, EventsOf(inputs))
      && RawRowsFollow(p, db, inputs) && LinksFollow(p, db, inputs) && EntryRowsFollow(db, EventsOf(inputs))
  {
    if attempts == [] {
      NothingCommitted(p);
    } else {
      hide Owned, RawKeysFollow, EventsFollow, RawRowsFollow, LinksFollow, EntryRowsFollow, Commits, Ingested, EventsOf;
      var front, last := attempts[..|attempts| - 1], attempts[|attempts| - 1];
      DatabaseFollowsCommits(p, front);
      if Commits(p, After(p, front), last) {
        IngestedOwned(p, After(p, front), last.input);
        IngestedFollows(p, After(p, front), Committed(p, front), last.input);
        IngestedRawRows(p, After(p, front), Committed(p, front), last.input);
        IngestedLinks(p, After(p, front), Committed(p, front), last.input);
        IngestedEntries(p, After(p, front), Committed(p, front), last.input);
      } else {
        assert Committed(p, attempts) == Committed(p, front);
      }
    }
  }

  lemma NothingCommitted(p: Platform)
    ensures var db := EmptyDatabase();
      && Owned(db) && RawKeysFollow(p, db, []) && EventsFollow(db, [])
      && RawRowsFollow(p, db, []) && LinksFollow(p, db, []) && EntryRowsFollow(db, [])
  {
  }
}
