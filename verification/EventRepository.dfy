/**
 * Idempotent ingestion of raw events: apps/server/src/db/eventRepository.ts. Tables are maps from
 * primary key to row, a transaction is a working copy that replaces the database on commit.
 */
module EventRepository {
  import opened Wrappers
  import opened Decimals
  import opened CanonicalJson

  /** String and hash primitives the code takes from its platform. */
  datatype Platform = Platform(
    trim: string -> string,
    lower: string -> string,
    hash: Json -> string,
    timestamp: Json -> Option<string>)

  datatype ParserStatus = Parsed | NeedsSample | NotApplicable

  /** `rest` stands for the columns that are copied unread. */
  datatype NormalizedEvent = NormalizedEvent(
    id: string, receivedAt: int, feedKey: string, chapter: string, category: string, timestamp: string,
    parserStatus: ParserStatus, rest: string, entries: seq<string>)

  datatype Input = Input(raw: Json, provider: string, endpoint: string, receivedAt: int, events: seq<NormalizedEvent>)

  // ---- tables -------------------------------------------------------------------------------

  datatype RawKey = RawKey(id: nat, receivedAt: int)

  datatype RawRow = RawRow(
    provider: string, endpoint: string, providerEventId: Option<string>, chapter: string, category: string,
    timestamp: Option<string>, payload: Json, payloadHash: string, eventIds: seq<string>, feedKeys: set<string>,
    parserStatus: ParserStatus)

  datatype EventKey = EventKey(receivedAt: int, raw: RawKey)

  datatype EventRow = EventRow(
    raw: RawKey, feedKey: string, chapter: string, category: string, timestamp: string, parserStatus: ParserStatus,
    rest: string)

  datatype EntryKeyRow = EntryKeyRow(id: nat, receivedAt: int, eventId: string)

  datatype EntryRow = EntryRow(eventId: string, eventReceivedAt: int, feedKey: string, entry: string)

  /** `nextId` is the supply of generated ids; only ids that are kept are counted. */
  datatype Database = Database(
    rawKeys: map<string, RawKey>,
    rawRows: map<RawKey, RawRow>,
    eventKeys: map<string, EventKey>,
    eventRows: map<(string, int), EventRow>,
    entryKeys: map<string, EntryKeyRow>,
    entryRows: map<(nat, int), EntryRow>,
    nextId: nat)

  function EmptyDatabase(): Database {
    Database(map[], map[], map[], map[], map[], map[], 0)
  }

  // ---- the raw event ------------------------------------------------------------------------

  function FieldNamed(fields: seq<Field>, key: string): Option<Json> {
    if fields == [] then None
    else if fields[0].key == key then Some(fields[0].value)
    else FieldNamed(fields[1..], key)
  }

  function GetStringField(p: Platform, value: Json, field: string): Option<string> {
    if !value.Object? then None
    else
      match FieldNamed(value.fields, field)
      case Some(Text(s)) => if p.trim(s) != "" then Some(p.trim(s)) else None
      case _ => None
  }

  function NormalizeTextField(p: Platform, value: Option<string>, fallback: string): string {
    if value.None? || p.lower(p.trim(value.value)) == "" then fallback else p.lower(p.trim(value.value))
  }

  function RawIdempotencyKey(p: Platform, raw: Json, provider: string): string {
    match GetStringField(p, raw, "id")
    case Some(id) =>
      provider + ":id:" + NormalizeTextField(p, GetStringField(p, raw, "chapter"), "unknown") + ":" +
      NormalizeTextField(p, GetStringField(p, raw, "category"), "unknown") + ":" + id
    case None => provider + ":hash:" + p.hash(Stabilize(raw))
  }

  function AggregateParserStatus(events: seq<NormalizedEvent>): ParserStatus {
    if exists e <- events :: e.parserStatus == NeedsSample then NeedsSample
    else if exists e <- events :: e.parserStatus == Parsed then Parsed
    else NotApplicable
  }

  function RawRowFor(p: Platform, input: Input): RawRow {
    var first := if input.events == [] then None else Some(input.events[0]);
    RawRow(
      input.provider, input.endpoint, GetStringField(p, input.raw, "id"),
      if first.Some? then first.value.chapter
      else NormalizeTextField(p, GetStringField(p, input.raw, "chapter"), "unknown"),
      if first.Some? then first.value.category
      else NormalizeTextField(p, GetStringField(p, input.raw, "category"), "unknown"),
      if first.Some? then Some(first.value.timestamp) else p.timestamp(input.raw),
      input.raw, p.hash(Stabilize(input.raw)),
      seq(|input.events|, i requires 0 <= i < |input.events| => input.events[i].id),
      set e <- input.events :: e.feedKey,
      AggregateParserStatus(input.events))
  }

  function UpsertRawKey(db: Database, key: string, receivedAt: int): Database {
    if key in db.rawKeys then db
    else db.(rawKeys := db.rawKeys[key := RawKey(db.nextId, receivedAt)], nextId := db.nextId + 1)
  }

  /** An update leaves the provider of the stored row alone. */
  function MergedRawRow(rows: map<RawKey, RawRow>, key: RawKey, row: RawRow): RawRow {
    if key in rows then row.(provider := rows[key].provider) else row
  }

  /** One of the two unique indexes of `raw_events` is taken by another row of the same instant. */
  predicate Clashes(rows: map<RawKey, RawRow>, key: RawKey, row: RawRow) {
    exists other <- rows ::
      && other != key && other.receivedAt == key.receivedAt && rows[other].provider == row.provider
      && (rows[other].payloadHash == row.payloadHash ||
          (row.providerEventId.Some? && rows[other].providerEventId == row.providerEventId))
  }

  // ---- events and entries -------------------------------------------------------------------

  function EntryKey(eventId: string, index: nat): string {
    eventId + [':'] + Digits(index)
  }

  datatype Upsert = EventUpsert(event: NormalizedEvent) | EntryUpsert(event: NormalizedEvent, index: nat)

  /** The time an event is filed under: that of its first arrival. */
  function FiledAt(db: Database, event: NormalizedEvent): int {
    if event.id in db.eventKeys then db.eventKeys[event.id].receivedAt else event.receivedAt
  }

  function UpsertEvent(db: Database, raw: RawKey, e: NormalizedEvent): Database {
    var at := FiledAt(db, e);
    db.(eventKeys := db.eventKeys[e.id := EventKey(at, raw)],
        eventRows := db.eventRows[(e.id, at) := EventRow(raw, e.feedKey, e.chapter, e.category, e.timestamp,
                                                         e.parserStatus, e.rest)])
  }

  function UpsertEntry(db: Database, e: NormalizedEvent, index: nat, eventReceivedAt: int): Database
    requires index < |e.entries|
  {
    var key := EntryKey(e.id, index);
    var d := if key in db.entryKeys then db
             else db.(entryKeys := db.entryKeys[key := EntryKeyRow(db.nextId, eventReceivedAt, e.id)],
                      nextId := db.nextId + 1);
    var k := d.entryKeys[key];
    d.(entryRows := d.entryRows[(k.id, k.receivedAt) := EntryRow(e.id, eventReceivedAt, e.feedKey, e.entries[index])])
  }

  predicate Indexed(u: Upsert) {
    u.EntryUpsert? ==> u.index < |u.event.entries|
  }

  function Applied(db: Database, raw: RawKey, u: Upsert): Database
    requires Indexed(u)
  {
    match u
    case EventUpsert(e) => UpsertEvent(db, raw, e)
    case EntryUpsert(e, index) => UpsertEntry(db, e, index, FiledAt(db, e))
  }

  function AppliedAll(db: Database, raw: RawKey, us: seq<Upsert>): Database
    requires forall u <- us :: Indexed(u)
  {
    if us == [] then db else Applied(AppliedAll(db, raw, us[..|us| - 1]), raw, us[|us| - 1])
  }

  function EntryUpserts(e: NormalizedEvent, n: nat): (us: seq<Upsert>)
    requires n <= |e.entries|
    ensures |us| == n && forall u <- us :: Indexed(u)
  {
    seq(n, i requires 0 <= i < n => EntryUpsert(e, i))
  }

  /** What one input upserts, in order. */
  function Upserts(events: seq<NormalizedEvent>): (us: seq<Upsert>)
    ensures forall u <- us :: Indexed(u)
  {
    if events == [] then []
    else
      var e := events[|events| - 1];
      Upserts(events[..|events| - 1]) + [EventUpsert(e)] + EntryUpserts(e, |e.entries|)
  }

  // ---- one ingestion ------------------------------------------------------------------------

  function WithRawKey(p: Platform, db: Database, input: Input): (d: Database)
    ensures RawIdempotencyKey(p, input.raw, input.provider) in d.rawKeys
  {
    UpsertRawKey(db, RawIdempotencyKey(p, input.raw, input.provider), input.receivedAt)
  }

  function RawKeyOf(p: Platform, db: Database, input: Input): RawKey {
    WithRawKey(p, db, input).rawKeys[RawIdempotencyKey(p, input.raw, input.provider)]
  }

  function RawRowOf(p: Platform, db: Database, input: Input): RawRow {
    MergedRawRow(db.rawRows, RawKeyOf(p, db, input), RawRowFor(p, input))
  }

  function WithRaw(p: Platform, db: Database, input: Input): Database {
    var d := WithRawKey(p, db, input);
    d.(rawRows := d.rawRows[RawKeyOf(p, db, input) := RawRowOf(p, db, input)])
  }

  predicate Rejected(p: Platform, db: Database, input: Input) {
    Clashes(db.rawRows, RawKeyOf(p, db, input), RawRowOf(p, db, input))
  }

  /** The database after a transaction that commits. */
  function Ingested(p: Platform, db: Database, input: Input): Database {
    AppliedAll(WithRaw(p, db, input), RawKeyOf(p, db, input), Upserts(input.events))
  }

  /** Queries of a whole transaction: begin, two for the raw event, two for each upsert, commit. */
  function Queries(input: Input): nat {
    4 + 2 * |Upserts(input.events)|
  }

  datatype Receipt = Receipt(raw: RawKey, eventCount: nat, entryCount: nat)

  datatype Failure = ConnectionLost | UniqueViolation

  function EntryTotal(events: seq<NormalizedEvent>): nat {
    if events == [] then 0 else EntryTotal(events[..|events| - 1]) + |events[|events| - 1].entries|
  }

  class Repository {
    const platform: Platform
    var db: Database

    constructor (platform: Platform)
      ensures db == EmptyDatabase() && this.platform == platform
    {
      this.platform := platform;
      db := EmptyDatabase();
    }

    /** The connection answers `lasting` queries and fails on the next one. */
    method IngestRawEvent(input: Input, lasting: nat) returns (r: Result<Receipt, Failure>)
      modifies this
      ensures r.Ok? <==> Queries(input) <= lasting && !Rejected(platform, old(db), input)
      ensures r.Err? ==> db == old(db)
      ensures r.Ok? ==> db == Ingested(platform, old(db), input)
      ensures r.Ok? ==> r.value == Receipt(RawKeyOf(platform, old(db), input), |input.events|, EntryTotal(input.events))
    {
      hide RawIdempotencyKey, RawRowFor, Applied;
      if lasting < 3 {
        return Err(ConnectionLost);
      }
      var left := lasting - 3;
      var key := RawIdempotencyKey(platform, input.raw, input.provider);
      var work := UpsertRawKey(db, key, input.receivedAt);
      var raw := work.rawKeys[key];
      var row := MergedRawRow(work.rawRows, raw, RawRowFor(platform, input));
      if Clashes(work.rawRows, raw, row) {
        return Err(UniqueViolation);
      }
      work := work.(rawRows := work.rawRows[raw := row]);
      ghost var start := work;
      assert start == WithRaw(platform, db, input) && raw == RawKeyOf(platform, db, input);

      var done := UpsertEvents(work, raw, input.events, left);
      if done.Err? {
        return Err(done.error);
      }
      if lasting < Queries(input) {
        return Err(ConnectionLost);
      }
      db := done.value.0;
      r := Ok(Receipt(raw, |input.events|, done.value.1));
    }
  }

  /** The loop over events and their entries, each upsert costing two queries. */
  method UpsertEvents(start: Database, raw: RawKey, events: seq<NormalizedEvent>, lasting: nat)
    returns (r: Result<(Database, nat), Failure>)
    ensures r.Ok? <==> 2 * |Upserts(events)| <= lasting
    ensures r.Ok? ==> r.value == (AppliedAll(start, raw, Upserts(events)), EntryTotal(events))
  {
    hide UpsertEvent, UpsertEntry, FiledAt;
    var work, left, entryCount := start, lasting, 0;
    for i := 0 to |events|
      invariant work == AppliedAll(start, raw, Upserts(events[..i]))
      invariant 0 <= left == lasting - 2 * |Upserts(events[..i])|
      invariant entryCount == EntryTotal(events[..i])
    {
      var event := events[i];
      ghost var before := Upserts(events[..i]) + [EventUpsert(event)];
      UpsertsGrow(events, i);
      if left < 2 {
        return Err(ConnectionLost);
      }
      left := left - 2;
      var at := FiledAt(work, event);
      AppliedMore(start, raw, Upserts(events[..i]), EventUpsert(event));
      FilingStays(work, raw, event);
      work := UpsertEvent(work, raw, event);
      assert before + EntryUpserts(event, 0) == before;
      for index := 0 to |event.entries|
        invariant work == AppliedAll(start, raw, before + EntryUpserts(event, index))
        invariant FiledAt(work, event) == at
        invariant 0 <= left == lasting - 2 * (|before| + index)
        invariant entryCount == EntryTotal(events[..i]) + index
      {
        if left < 2 {
          return Err(ConnectionLost);
        }
        left := left - 2;
        EntryUpsertsGrow(start, raw, before, event, index);
        EntryFilingStays(work, event, index);
        work := UpsertEntry(work, event, index, at);
        entryCount := entryCount + 1;
      }
    }
    assert events[..|events|] == events;
    r := Ok((work, entryCount));
  }

  lemma FilingStays(db: Database, raw: RawKey, e: NormalizedEvent)
    ensures FiledAt(UpsertEvent(db, raw, e), e) == FiledAt(db, e)
  {
  }

  lemma EntryFilingStays(db: Database, e: NormalizedEvent, index: nat)
    requires index < |e.entries|
    ensures FiledAt(UpsertEntry(db, e, index, FiledAt(db, e)), e) == FiledAt(db, e)
  {
    hide EntryKey;
  }

  // ---- growing lists of upserts -------------------------------------------------------------

  lemma AppliedMore(db: Database, raw: RawKey, us: seq<Upsert>, u: Upsert)
    requires Indexed(u) && forall v <- us :: Indexed(v)
    ensures AppliedAll(db, raw, us + [u]) == Applied(AppliedAll(db, raw, us), raw, u)
  {
    assert (us + [u])[..|us|] == us;
  }

  lemma EntryUpsertsGrow(db: Database, raw: RawKey, us: seq<Upsert>, e: NormalizedEvent, index: nat)
    requires index < |e.entries| && forall v <- us :: Indexed(v)
    ensures AppliedAll(db, raw, us + EntryUpserts(e, index + 1)) ==
            Applied(AppliedAll(db, raw, us + EntryUpserts(e, index)), raw, EntryUpsert(e, index))
  {
    AppliedMore(db, raw, us + EntryUpserts(e, index), EntryUpsert(e, index));
    assert us + EntryUpserts(e, index + 1) == us + EntryUpserts(e, index) + [EntryUpsert(e, index)];
  }

  lemma {:induction false} UpsertsGrow(events: seq<NormalizedEvent>, i: nat)
    requires i < |events|
    ensures var e := events[i];
      Upserts(events[..i + 1]) == Upserts(events[..i]) + [EventUpsert(e)] + EntryUpserts(e, |e.entries|)
    ensures |Upserts(events[..i + 1])| <= |Upserts(events)|
    ensures EntryTotal(events[..i + 1]) == EntryTotal(events[..i]) + |events[i].entries|
  {
    assert events[..i + 1][..i] == events[..i];
    if i + 1 < |events| {
      UpsertsGrow(events[..|events| - 1], i);
      assert events[..|events| - 1][..i + 1] == events[..i + 1];
      assert events[..|events| - 1][..i] == events[..i];
    } else {
      assert events[..i + 1] == events;
    }
  }
}
