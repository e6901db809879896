/** The current row against the stored snapshots, over whole runs of writes. */
module ScoreHistory {
  import opened Wrappers
  import opened Numbers
  import opened ScoreModel
  import opened ScoreRepository

  const NO_TABLES: Tables := Tables(map[], map[])

  function After(m: Thresholds, ws: seq<Write>): Tables {
    WrittenAll(m, NO_TABLES, ws)
  }

  /** The last write of a key that stored a snapshot. */
  function Anchor(m: Thresholds, ws: seq<Write>, key: Key): Option<ScoreResult> {
    if ws == [] then None
    else
      var front, last := ws[..|ws| - 1], ws[|ws| - 1];
      if KeyOf(last) == key && Material(m, After(m, front), last) then Some(last.result) else Anchor(m, front, key)
  }

  /** The writes of a key that stored none since. */
  function Skips(m: Thresholds, ws: seq<Write>, key: Key): nat {
    if ws == [] then 0
    else
      var front, last := ws[..|ws| - 1], ws[|ws| - 1];
      if KeyOf(last) != key then Skips(m, front, key)
      else if Material(m, After(m, front), last) then 0
      else Skips(m, front, key) + 1
  }

  ghost predicate TimeAdvances(ws: seq<Write>, key: Key) {
    forall i, j | 0 <= i < j < |ws| && KeyOf(ws[i]) == key && KeyOf(ws[j]) == key :: ws[i].result.ts <= ws[j].result.ts
  }

  ghost predicate IsNewest(t: Tables, key: Key, ts: int) {
    (key, ts) in t.snapshots && forall other: int | (key, other) in t.snapshots :: other <= ts
  }

  /** Within so many steps of a size. */
  predicate Within(a: real, b: real, steps: nat, size: real) {
    Abs(a - b) <= steps as real * size
  }

  /** The row is the anchor up to the changes too small to count, and carries the same labels. */
  ghost predicate Follows(m: Thresholds, row: ScoreRow, anchor: ScoreRow, skips: nat) {
    && Labels(row) == Labels(anchor)
    && Within(row.net, anchor.net, skips, m.minNetDelta)
    && Within(row.bull, anchor.bull, skips, m.minSideDelta)
    && Within(row.bear, anchor.bear, skips, m.minSideDelta)
    && Within(row.confidence, anchor.confidence, skips, m.minConfidenceDelta)
  }

  lemma OneStepMore(a: real, b: real, c: real, steps: nat, size: real)
    requires Within(b, c, steps, size) && Abs(a - b) < size
    ensures Within(a, c, steps + 1, size)
  {
    assert (steps + 1) as real * size == steps as real * size + size;
  }

  lemma SkipFollows(m: Thresholds, row: ScoreRow, r: ScoreResult, anchor: ScoreRow, skips: nat)
    requires Follows(m, row, anchor, skips) && !IsMaterialChange(m, Some(row), r)
    ensures Follows(m, RowOf(r), anchor, skips + 1)
  {
    hide Within, Abs;
    OneStepMore(r.netScore, row.net, anchor.net, skips, m.minNetDelta);
    OneStepMore(r.bullScore, row.bull, anchor.bull, skips, m.minSideDelta);
    OneStepMore(r.bearScore, row.bear, anchor.bear, skips, m.minSideDelta);
    OneStepMore(r.confidenceScore, row.confidence, anchor.confidence, skips, m.minConfidenceDelta);
  }

  ghost predicate Tracked(m: Thresholds, t: Tables, key: Key, anchor: Option<ScoreResult>, skips: nat,
                          latest: Option<int>)
  {
    if key !in t.current then anchor.None? && latest.None? && (forall ts: int :: (key, ts) !in t.snapshots)
    else
      && anchor.Some? && latest == Some(t.current[key].ts)
      && IsNewest(t, key, anchor.value.ts) && anchor.value.ts <= t.current[key].ts
      && t.snapshots[(key, anchor.value.ts)] == RowOf(anchor.value)
      && Follows(m, t.current[key], RowOf(anchor.value), skips)
  }

  function LatestTime(ws: seq<Write>, key: Key): Option<int> {
    if ws == [] then None
    else if KeyOf(ws[|ws| - 1]) == key then Some(ws[|ws| - 1].result.ts)
    else LatestTime(ws[..|ws| - 1], key)
  }

  lemma WriteTracked(m: Thresholds, t: Tables, w: Write, anchor: Option<ScoreResult>, skips: nat, latest: Option<int>)
    requires Tracked(m, t, KeyOf(w), anchor, skips, latest)
    requires latest.Some? ==> latest.value <= w.result.ts
    ensures var material := Material(m, t, w);
      Tracked(m, Written(m, t, w), KeyOf(w), if material then Some(w.result) else anchor,
              if material then 0 else skips + 1,
              Some(w.result.ts))
  {
    hide Within, IsMaterialChange;
    if Material(m, t, w) {
      NothingSkipped(m, RowOf(w.result));
    } else {
      MissingIsMaterial(m, t, w);
      SkipFollows(m, t.current[KeyOf(w)], w.result, RowOf(anchor.value), skips);
    }
  }

  lemma MissingIsMaterial(m: Thresholds, t: Tables, w: Write)
    requires !Material(m, t, w)
    ensures KeyOf(w) in t.current
  {
  }

  lemma NothingSkipped(m: Thresholds, row: ScoreRow)
    ensures Follows(m, row, row, 0)
  {
  }

  lemma OtherTracked(m: Thresholds, t: Tables, w: Write, key: Key, anchor: Option<ScoreResult>, skips: nat,
                     latest: Option<int>)
    requires Tracked(m, t, key, anchor, skips, latest) && KeyOf(w) != key
    ensures Tracked(m, Written(m, t, w), key, anchor, skips, latest)
  {
    hide Follows, IsMaterialChange;
  }

  lemma {:induction false} RunTracked(m: Thresholds, ws: seq<Write>, key: Key)
    requires TimeAdvances(ws, key)
    ensures Tracked(m, After(m, ws), key, Anchor(m, ws, key), Skips(m, ws, key), LatestTime(ws, key))
    ensures LatestTime(ws, key).Some? ==>
            exists i | 0 <= i < |ws| :: KeyOf(ws[i]) == key && Some(ws[i].result.ts) == LatestTime(ws, key)
  {
    if ws != [] {
      hide Tracked, Written, Material, KeyOf;
      var front, last := ws[..|ws| - 1], ws[|ws| - 1];
      RunTracked(m, front, key);
      if KeyOf(last) == key {
        WriteTracked(m, After(m, front), last, Anchor(m, front, key), Skips(m, front, key), LatestTime(front, key));
      } else {
        OtherTracked(m, After(m, front), last, key, Anchor(m, front, key), Skips(m, front, key),
                     LatestTime(front, key));
      }
    } else {
      assert Tracked(m, NO_TABLES, key, None, 0, None);
    }
  }

  /**
   * As long as a key's results arrive in order of time, its current row carries the labels of its
   * newest snapshot, and its scores are within one threshold of it for every write skipped since.
   */
  lemma CurrentFollowsSnapshot(m: Thresholds, ws: seq<Write>, key: Key)
    requires TimeAdvances(ws, key) && key in After(m, ws).current
    ensures var t, anchor := After(m, ws), Anchor(m, ws, key);
      && anchor.Some? && IsNewest(t, key, anchor.value.ts)
      && t.snapshots[(key, anchor.value.ts)] == RowOf(anchor.value)
      && Follows(m, t.current[key], RowOf(anchor.value), Skips(m, ws, key))
  {
    hide Follows;
    RunTracked(m, ws, key);
  }

  // ---- results out of order -----------------------------------------------------------------

  ghost predicate LabelsAgree(t: Tables, key: Key) {
    key in t.current && forall ts: int | IsNewest(t, key, ts) ::
      Labels(t.snapshots[(key, ts)]) == Labels(t.current[key])
  }

  /**
   * A write breaks the agreement exactly when it is older than the current row but not than the
   * newest snapshot, and carries other labels.
   */
  lemma OutOfOrderWrite(m: Thresholds, t: Tables, w: Write, newest: int)
    requires LabelsAgree(t, KeyOf(w)) && IsNewest(t, KeyOf(w), newest) && newest <= t.current[KeyOf(w)].ts
    ensures LabelsAgree(Written(m, t, w), KeyOf(w)) <==>
            !(newest <= w.result.ts < t.current[KeyOf(w)].ts && Labels(RowOf(w.result)) != Labels(t.current[KeyOf(w)]))
  {
    var key, ts := KeyOf(w), w.result.ts;
    var t' := Written(m, t, w);
    if Material(m, t, w) {
      var top := if newest <= ts then ts else newest;
      assert IsNewest(t', key, top);
      assert forall other: int | IsNewest(t', key, other) :: other == top;
    } else {
      assert IsNewest(t', key, newest);
      assert forall other: int | IsNewest(t', key, other) :: other == newest;
    }
  }

  /** After any run a key with a current row has a newest snapshot, no later than that row. */
  ghost predicate Settled(t: Tables, key: Key, newest: Option<int>) {
    if key !in t.current then newest.None? && forall ts: int :: (key, ts) !in t.snapshots
    else newest.Some? && IsNewest(t, key, newest.value) && newest.value <= t.current[key].ts
  }

  /** The write stores the newest snapshot of its key. */
  predicate Renews(m: Thresholds, t: Tables, w: Write, newest: Option<int>) {
    Material(m, t, w) && (newest.Some? ==> newest.value <= w.result.ts)
  }

  function NewestAfter(m: Thresholds, t: Tables, w: Write, newest: Option<int>): Option<int> {
    if Renews(m, t, w, newest) then Some(w.result.ts) else newest
  }

  /** The time of a key's newest snapshot. */
  function Newest(m: Thresholds, ws: seq<Write>, key: Key): Option<int> {
    if ws == [] then None
    else
      var front, last := ws[..|ws| - 1], ws[|ws| - 1];
      if KeyOf(last) == key then NewestAfter(m, After(m, front), last, Newest(m, front, key)) else Newest(m, front, key)
  }

  lemma WriteSettles(m: Thresholds, t: Tables, w: Write, key: Key, newest: Option<int>)
    requires Settled(t, key, newest)
    ensures Settled(Written(m, t, w), key, if KeyOf(w) == key then NewestAfter(m, t, w, newest) else newest)
  {
    hide IsMaterialChange, KeyOf;
    var r := Written(m, t, w);
    if KeyOf(w) != key {
      assert forall ts: int :: (key, ts) in r.snapshots <==> (key, ts) in t.snapshots;
      assert newest.Some? ==> IsNewest(r, key, newest.value);
    } else if !Material(m, t, w) {
      if key !in t.current {
        FirstIsMaterial(m, t, w);
        assert false;
      }
      assert r.snapshots == t.snapshots;
      assert IsNewest(r, key, newest.value);
    } else {
      assert r.snapshots == t.snapshots[(key, w.result.ts) := RowOf(w.result)];
      assert forall ts: int :: (key, ts) in r.snapshots <==> ts == w.result.ts || (key, ts) in t.snapshots;
      assert IsNewest(r, key, NewestAfter(m, t, w, newest).value);
    }
  }

  lemma FirstIsMaterial(m: Thresholds, t: Tables, w: Write)
    requires KeyOf(w) !in t.current
    ensures Material(m, t, w)
  {
  }

  /** Reachable tables: what `OutOfOrderWrite` asks of them holds after every run of writes. */
  lemma {:induction false} RunSettles(m: Thresholds, ws: seq<Write>, key: Key)
    ensures Settled(After(m, ws), key, Newest(m, ws, key))
  {
    if ws != [] {
      hide Settled, Written, NewestAfter;
      var front, last := ws[..|ws| - 1], ws[|ws| - 1];
      RunSettles(m, front, key);
      WriteSettles(m, After(m, front), last, key, Newest(m, front, key));
    } else {
      assert Settled(NO_TABLES, key, None);
    }
  }

  /** The write comes before the current row in time and carries other labels. */
  predicate Overtaken(t: Tables, w: Write) {
    var key := KeyOf(w);
    key in t.current && w.result.ts < t.current[key].ts && Labels(RowOf(w.result)) != Labels(t.current[key])
  }

  /** Where a key's newest snapshot was last stored. */
  function LastRenewal(m: Thresholds, ws: seq<Write>, key: Key): (i: Option<nat>)
    ensures i.Some? ==> i.value < |ws| && KeyOf(ws[i.value]) == key
  {
    if ws == [] then None
    else
      var n := |ws| - 1;
      if KeyOf(ws[n]) == key && Renews(m, After(m, ws[..n]), ws[n], Newest(m, ws[..n], key)) then Some(n)
      else LastRenewal(m, ws[..n], key)
  }

  ghost predicate Agreement(t: Tables, key: Key, renewed: bool, overtaken: bool) {
    key in t.current ==> renewed && (LabelsAgree(t, key) <==> !overtaken)
  }

  lemma OneNewest(t: Tables, key: Key, newest: int)
    requires key in t.current && IsNewest(t, key, newest)
    ensures LabelsAgree(t, key) <==> Labels(t.snapshots[(key, newest)]) == Labels(t.current[key])
  {
    forall ts: int | IsNewest(t, key, ts)
      ensures ts == newest
    {
    }
  }

  /** A write renews the agreement or breaks it; a write that stores no newest snapshot leaves it. */
  lemma WriteAgreement(m: Thresholds, t: Tables, w: Write, key: Key, newest: Option<int>, renewed: bool,
                       overtaken: bool)
    requires Settled(t, key, newest) && Agreement(t, key, renewed, overtaken)
    ensures var renews := KeyOf(w) == key && Renews(m, t, w, newest);
      Agreement(Written(m, t, w), key, renewed || renews, if renews then Overtaken(t, w) else overtaken)
  {
    hide IsMaterialChange, LabelsAgree, IsNewest, RowOf;
    WriteSettles(m, t, w, key, newest);
    var r := Written(m, t, w);
    if KeyOf(w) == key {
      WriteShows(m, t, w, newest);
    } else if key in t.current {
      OneNewest(t, key, newest.value);
      OneNewest(r, key, newest.value);
    }
  }

  lemma WriteShows(m: Thresholds, t: Tables, w: Write, newest: Option<int>)
    requires Settled(t, KeyOf(w), newest) && Settled(Written(m, t, w), KeyOf(w), NewestAfter(m, t, w, newest))
    ensures var key, r := KeyOf(w), Written(m, t, w);
      && key in r.current
      && (if Renews(m, t, w, newest) then LabelsAgree(r, key) <==> !Overtaken(t, w)
          else key in t.current && (LabelsAgree(r, key) <==> LabelsAgree(t, key)))
  {
    hide LabelsAgree, IsNewest;
    var key, r := KeyOf(w), Written(m, t, w);
    if key !in t.current {
      FirstIsMaterial(m, t, w);
    } else {
      OneNewest(t, key, newest.value);
      if !Material(m, t, w) {
        IfNotMaterialSameLabels(m, t, w);
      }
    }
    OneNewest(r, key, NewestAfter(m, t, w, newest).value);
  }

  lemma IfNotMaterialSameLabels(m: Thresholds, t: Tables, w: Write)
    requires KeyOf(w) in t.current && !Material(m, t, w)
    ensures Labels(RowOf(w.result)) == Labels(t.current[KeyOf(w)])
  {
  }

  lemma {:induction false} RunAgreement(m: Thresholds, ws: seq<Write>, key: Key)
    ensures var i := LastRenewal(m, ws, key);
      Agreement(After(m, ws), key, i.Some?, i.Some? && Overtaken(After(m, ws[..i.value]), ws[i.value]))
  {
    if ws != [] {
      hide Agreement, Written, Overtaken, Renews;
      var n := |ws| - 1;
      var front, i := ws[..n], LastRenewal(m, ws[..n], key);
      RunAgreement(m, front, key);
      RunSettles(m, front, key);
      WriteAgreement(m, After(m, front), ws[n], key, Newest(m, front, key), i.Some?,
                     i.Some? && Overtaken(After(m, front[..i.value]), front[i.value]));
      if i.Some? {
        assert front[..i.value] == ws[..i.value];
      }
    } else {
      assert Agreement(NO_TABLES, key, false, false);
    }
  }

  /**
   * After any run of writes the labels of a key's current row are those of its newest snapshot exactly
   * when the write that stored that snapshot had the labels of the current row of that moment, or came
   * no earlier in time.
   */
  lemma LabelsAgreeExactly(m: Thresholds, ws: seq<Write>, key: Key)
    requires key in After(m, ws).current
    ensures var i := LastRenewal(m, ws, key);
      i.Some? && (LabelsAgree(After(m, ws), key) <==> !Overtaken(After(m, ws[..i.value]), ws[i.value]))
  {
    hide After, LastRenewal, Overtaken, LabelsAgree;
    RunAgreement(m, ws, key);
  }

  /** A result, the same one later, and one of another regime for an instant between the two. */
  function LateArrival(version: string, r: ScoreResult, later: int, between: int, regime: Regime): seq<Write> {
    [Write(version, r), Write(version, r.(ts := later)), Write(version, r.(ts := between, marketRegime := regime))]
  }

  /**
   * Three writes that break the agreement: the middle one changes nothing but the time, and the last
   * stores a snapshot newer than the first but leaves the current row alone.
   */
  lemma LateArrivalBreaksLabels(m: Thresholds, version: string, r: ScoreResult, later: int, between: int,
                                regime: Regime)
    requires m.minNetDelta > 0.0 && m.minSideDelta > 0.0 && m.minConfidenceDelta > 0.0
    requires r.ts < between < later && regime != r.marketRegime
    ensures var ws := LateArrival(version, r, later, between, regime);
      var key := KeyOf(ws[0]);
      && LabelsAgree(After(m, ws[..2]), key) && !LabelsAgree(After(m, ws), key)
  {
    var ws := LateArrival(version, r, later, between, regime);
    var key := KeyOf(ws[0]);
    assert ws[..1][..0] == [] && ws[..2][..1] == ws[..1];
    var first, second := After(m, ws[..1]), After(m, ws[..2]);
    LastWrite(m, ws[..1]);
    LastWrite(m, ws[..2]);
    assert first == Written(m, NO_TABLES, ws[0]) && second == Written(m, first, ws[1]);
    assert first.current == map[key := RowOf(r)] && first.snapshots == map[(key, r.ts) := RowOf(r)];
    assert !Material(m, first, ws[1]);
    assert second.current == map[key := RowOf(ws[1].result)] && second.snapshots == first.snapshots;
    assert IsNewest(second, key, r.ts) && forall ts: int | IsNewest(second, key, ts) :: ts == r.ts;
    hide WrittenAll, RowOf, KeyOf;
    OutOfOrderWrite(m, second, ws[2], r.ts);
    assert After(m, ws) == Written(m, second, ws[2]) by {
      LastWrite(m, ws);
    }
  }

  lemma LastWrite(m: Thresholds, ws: seq<Write>)
    requires ws != []
    ensures After(m, ws) == Written(m, After(m, ws[..|ws| - 1]), ws[|ws| - 1])
  {
  }
}
