/**
 * Persisting scores: `writeScores` of apps/server/src/db/scoreRepository.ts. A snapshot is stored
 * only for a material change against the current row; the current row is always brought up to date.
 */
module ScoreRepository {
  import opened Wrappers
  import opened Numbers
  import opened ScoreModel

  datatype Thresholds = Thresholds(minNetDelta: real, minSideDelta: real, minConfidenceDelta: real)

  datatype Key = Key(version: string, windowMinutes: int, coin: string)

  datatype ScoreRow = ScoreRow(
    ts: int, bull: real, bear: real, net: real, confidence: real, dominantSignal: Option<string>, marketRegime: Regime)

  /** `current` is `coin_score_current`; `snapshots` is `score_snapshots`, unique by key and instant. */
  datatype Tables = Tables(current: map<Key, ScoreRow>, snapshots: map<(Key, int), ScoreRow>)

  /** One result written under a configuration version. */
  datatype Write = Write(version: string, result: ScoreResult)

  function KeyOf(w: Write): Key {
    Key(w.version, w.result.windowMinutes, w.result.coin)
  }

  function RowOf(r: ScoreResult): ScoreRow {
    ScoreRow(r.ts, r.bullScore, r.bearScore, r.netScore, r.confidenceScore, r.dominantSignal, r.marketRegime)
  }

  function Labels(row: ScoreRow): (Option<string>, Regime) {
    (row.dominantSignal, row.marketRegime)
  }

  predicate IsMaterialChange(m: Thresholds, current: Option<ScoreRow>, r: ScoreResult) {
    current.None? ||
    var row := current.value;
    || Abs(r.netScore - row.net) >= m.minNetDelta
    || Abs(r.bullScore - row.bull) >= m.minSideDelta
    || Abs(r.bearScore - row.bear) >= m.minSideDelta
    || Abs(r.confidenceScore - row.confidence) >= m.minConfidenceDelta
    || r.dominantSignal != row.dominantSignal
    || r.marketRegime != row.marketRegime
  }

  function CurrentRow(t: Tables, key: Key): Option<ScoreRow> {
    if key in t.current then Some(t.current[key]) else None
  }

  predicate Material(m: Thresholds, t: Tables, w: Write) {
    IsMaterialChange(m, CurrentRow(t, KeyOf(w)), w.result)
  }

  function UpsertSnapshot(t: Tables, w: Write): Tables {
    t.(snapshots := t.snapshots[(KeyOf(w), w.result.ts) := RowOf(w.result)])
  }

  /** The update is conditional: an older result does not replace a newer current row. */
  function UpsertCurrent(t: Tables, w: Write): Tables {
    var key := KeyOf(w);
    if key in t.current && w.result.ts < t.current[key].ts then t
    else t.(current := t.current[key := RowOf(w.result)])
  }

  function Written(m: Thresholds, t: Tables, w: Write): Tables {
    UpsertCurrent(if Material(m, t, w) then UpsertSnapshot(t, w) else t, w)
  }

  function WrittenAll(m: Thresholds, t: Tables, ws: seq<Write>): Tables {
    if ws == [] then t else Written(m, WrittenAll(m, t, ws[..|ws| - 1]), ws[|ws| - 1])
  }

  /** How many of these writes store a snapshot. */
  function SnapshotCount(m: Thresholds, t: Tables, ws: seq<Write>): (n: nat)
    ensures n <= |ws|
  {
    if ws == [] then 0
    else
      var front := ws[..|ws| - 1];
      SnapshotCount(m, t, front) + if Material(m, WrittenAll(m, t, front), ws[|ws| - 1]) then 1 else 0
  }

  /** How many evidence rows they store with them. */
  function EvidenceCount(m: Thresholds, t: Tables, ws: seq<Write>): nat {
    if ws == [] then 0
    else
      var front, last := ws[..|ws| - 1], ws[|ws| - 1];
      EvidenceCount(m, t, front) + if Material(m, WrittenAll(m, t, front), last) then |last.result.evidence| else 0
  }

  datatype Counts = Counts(snapshotsWritten: nat, evidenceWritten: nat, currentWritten: nat, skippedSnapshots: nat)

  function WriteCounts(m: Thresholds, t: Tables, ws: seq<Write>): Counts {
    var snapshots := SnapshotCount(m, t, ws);
    Counts(snapshots, EvidenceCount(m, t, ws), |ws|, |ws| - snapshots)
  }

  function WritesOf(version: string, results: seq<ScoreResult>): seq<Write> {
    seq(|results|, i requires 0 <= i < |results| => Write(version, results[i]))
  }

  /** Where the database fails: opening or beginning the transaction, on a result, or committing. */
  datatype Failure = AtBegin | AtResult(index: nat) | AtCommit

  class Repository {
    const thresholds: Thresholds
    var tables: Tables

    constructor (thresholds: Thresholds)
      ensures tables == Tables(map[], map[]) && this.thresholds == thresholds
    {
      this.thresholds := thresholds;
      tables := Tables(map[], map[]);
    }

    /** Writing nothing does not touch the database, so it cannot fail. */
    method WriteScores(results: seq<ScoreResult>, version: string, failure: Option<Failure>) returns (r: Option<Counts>)
      modifies this
      ensures r.None? <==>
              results != [] && failure.Some? && (failure.value.AtResult? ==> failure.value.index < |results|)
      ensures r.None? ==> tables == old(tables)
      ensures r.Some? ==> tables == WrittenAll(thresholds, old(tables), WritesOf(version, results))
      ensures r.Some? ==> r.value == WriteCounts(thresholds, old(tables), WritesOf(version, results))
    {
      hide Material, Written, RowOf;
      if results == [] {
        return Some(Counts(0, 0, 0, 0));
      }
      if failure == Some(AtBegin) {
        return None;
      }
      var work := tables;
      var snapshots, evidence, current, skipped := 0, 0, 0, 0;
      ghost var ws := WritesOf(version, results);
      for i := 0 to |results|
        invariant work == WrittenAll(thresholds, old(tables), ws[..i])
        invariant snapshots == SnapshotCount(thresholds, old(tables), ws[..i])
        invariant evidence == EvidenceCount(thresholds, old(tables), ws[..i])
        invariant current == i && skipped == i - snapshots
        invariant tables == old(tables)
        invariant failure.Some? && failure.value.AtResult? ==> i <= failure.value.index
      {
        if failure == Some(AtResult(i)) {
          return None;
        }
        assert ws[..i + 1][..i] == ws[..i];
        var w := Write(version, results[i]);
        if Material(thresholds, work, w) {
          snapshots := snapshots + 1;
          evidence := evidence + |results[i].evidence|;
        } else {
          skipped := skipped + 1;
        }
        work := Written(thresholds, work, w);
        current := current + 1;
      }
      assert ws[..|results|] == ws;
      if failure == Some(AtCommit) {
        return None;
      }
      tables := work;
      r := Some(Counts(snapshots, evidence, current, skipped));
    }
  }
}
