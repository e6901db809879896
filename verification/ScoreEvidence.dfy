/** How the evidence of a coin decomposes: row by row, and burst group by burst group. */
module ScoreEvidence {
  import opened Wrappers
  import opened Numbers
  import opened Sequences
  import opened ScoreModel

  /** What is scored: the fixed inputs of one coin in one window at one instant. */
  datatype Context = Context(env: Env, config: Config, window: Window, asOf: int, coin: string)

  ghost predicate Valid(c: Context) {
    ValidEnv(c.env) && ValidConfig(c.config) && 0.0 < c.window.halfLifeMinutes
  }

  /** The coin's fresh rows among all source rows. */
  ghost function Selected(c: Context, rows: seq<SourceRow>): seq<SourceRow> {
    FreshRows(c.window, c.asOf, CoinRows(c.env, c.coin, rows))
  }

  ghost function SelectedOne(c: Context, row: SourceRow): seq<SourceRow> {
    if c.env.upper(row.coin) == c.coin && Fresh(c.window, c.asOf, row) then [row.(coin := c.coin)] else []
  }

  ghost function Base(c: Context, rows: seq<SourceRow>): seq<Evidence>
    requires Valid(c)
  {
    EvidenceOfRows(c.env, c.config.rules, c.window, c.asOf, c.coin, Selected(c, rows))
  }

  ghost function RowBase(c: Context, row: SourceRow): seq<Evidence>
    requires Valid(c)
  {
    EvidenceOfRow(c.env, c.config.rules, c.window, c.asOf, c.coin, row)
  }

  ghost function BaseOne(c: Context, row: SourceRow): seq<Evidence>
    requires Valid(c)
  {
    if c.env.upper(row.coin) == c.coin && Fresh(c.window, c.asOf, row) then RowBase(c, row.(coin := c.coin)) else []
  }

  ghost function All(c: Context, rows: seq<SourceRow>): seq<Evidence>
    requires Valid(c)
  {
    AllEvidence(c.env, c.config, c.window, c.asOf, c.coin, CoinRows(c.env, c.coin, rows))
  }

  ghost function Bursts(c: Context, evidence: seq<Evidence>): seq<Evidence>
    requires Valid(c)
  {
    BurstEvidence(c.env, c.config, c.asOf, c.coin, evidence)
  }

  lemma NoRows(c: Context)
    requires Valid(c)
    ensures Base(c, []) == []
  {
  }

  lemma AllIsBaseAndBursts(c: Context, rows: seq<SourceRow>)
    requires Valid(c)
    ensures All(c, rows) == Base(c, rows) + Bursts(c, Base(c, rows))
  {
  }

  lemma {:induction false} FreshRowsConcat(window: Window, asOf: int, a: seq<SourceRow>, b: seq<SourceRow>)
    ensures FreshRows(window, asOf, a + b) == FreshRows(window, asOf, a) + FreshRows(window, asOf, b)
  {
    if b == [] {
      assert a + b == a;
    } else {
      assert (a + b)[..|a + b| - 1] == a + b[..|b| - 1];
      FreshRowsConcat(window, asOf, a, b[..|b| - 1]);
    }
  }

  lemma {:induction false} EvidenceConcat(c: Context, a: seq<SourceRow>, b: seq<SourceRow>)
    requires Valid(c)
    ensures EvidenceOfRows(c.env, c.config.rules, c.window, c.asOf, c.coin, a + b) ==
            EvidenceOfRows(c.env, c.config.rules, c.window, c.asOf, c.coin, a) +
            EvidenceOfRows(c.env, c.config.rules, c.window, c.asOf, c.coin, b)
  {
    if b == [] {
      assert a + b == a;
    } else {
      assert (a + b)[..|a + b| - 1] == a + b[..|b| - 1];
      EvidenceConcat(c, a, b[..|b| - 1]);
    }
  }

  lemma SelectedSnoc(c: Context, rows: seq<SourceRow>)
    requires rows != []
    ensures Selected(c, rows) == Selected(c, rows[..|rows| - 1]) + SelectedOne(c, rows[|rows| - 1])
  {
    var row := rows[|rows| - 1];
    if c.env.upper(row.coin) == c.coin {
      var one := [row.(coin := c.coin)];
      FreshRowsConcat(c.window, c.asOf, CoinRows(c.env, c.coin, rows[..|rows| - 1]), one);
      assert one[..0] == [];
      assert FreshRows(c.window, c.asOf, one) == SelectedOne(c, row);
    } else {
      var before := CoinRows(c.env, c.coin, rows[..|rows| - 1]);
      assert before + [] == before;
    }
  }

  lemma BaseSnoc(c: Context, rows: seq<SourceRow>)
    requires Valid(c) && rows != []
    ensures Base(c, rows) == Base(c, rows[..|rows| - 1]) + BaseOne(c, rows[|rows| - 1])
  {
    var row := rows[|rows| - 1];
    var one := SelectedOne(c, row);
    SelectedSnoc(c, rows);
    EvidenceConcat(c, Selected(c, rows[..|rows| - 1]), one);
    if one != [] {
      assert one[..0] == [];
      assert EvidenceOfRows(c.env, c.config.rules, c.window, c.asOf, c.coin, one) == [] + RowBase(c, one[0]);
    }
  }

  /** Row evidence is gathered row by row. */
  lemma {:induction false} BaseIsFlatMap(c: Context, rows: seq<SourceRow>, one: SourceRow -> seq<Evidence>)
    requires Valid(c)
    requires forall row :: one(row) == BaseOne(c, row)
    ensures Base(c, rows) == FlatMap(rows, one)
  {
    if rows != [] {
      BaseSnoc(c, rows);
      BaseIsFlatMap(c, rows[..|rows| - 1], one);
    }
  }

  lemma {:induction false} SelectedIsFlatMap(c: Context, rows: seq<SourceRow>, one: SourceRow -> seq<SourceRow>)
    requires forall row :: one(row) == SelectedOne(c, row)
    ensures Selected(c, rows) == FlatMap(rows, one)
  {
    if rows != [] {
      SelectedSnoc(c, rows);
      SelectedIsFlatMap(c, rows[..|rows| - 1], one);
    }
  }

  lemma BaseMember(c: Context, rows: seq<SourceRow>, e: Evidence)
    requires Valid(c)
    ensures e in Base(c, rows) <==> exists row <- rows :: e in BaseOne(c, row)
  {
    var one := (row: SourceRow) => if Valid(c) then BaseOne(c, row) else [];
    BaseIsFlatMap(c, rows, one);
    FlatMapMember(rows, one, e);
  }

  // ---- side sums ----------------------------------------------------------------------------

  lemma {:induction false} SideRawConcat(a: seq<Evidence>, b: seq<Evidence>, side: Side)
    ensures SideRaw(a + b, side) == SideRaw(a, side) + SideRaw(b, side)
  {
    if b == [] {
      assert a + b == a;
    } else {
      assert (a + b)[..|a + b| - 1] == a + b[..|b| - 1];
      SideRawConcat(a, b[..|b| - 1], side);
    }
  }

  /** The row part of a side sum is a sum over source rows. */
  lemma {:induction false} BaseSideRaw(c: Context, rows: seq<SourceRow>, side: Side, weight: SourceRow -> real)
    requires Valid(c)
    requires forall row :: weight(row) == SideRaw(BaseOne(c, row), side)
    ensures SideRaw(Base(c, rows), side) == SumBy(rows, weight)
  {
    if rows != [] {
      BaseSnoc(c, rows);
      BaseSideRaw(c, rows[..|rows| - 1], side, weight);
      SideRawConcat(Base(c, rows[..|rows| - 1]), BaseOne(c, rows[|rows| - 1]), side);
    }
  }

  // ---- burst groups -------------------------------------------------------------------------

  ghost predicate InGroup(item: Evidence, key: string) {
    Grouped(item) && GroupKey(item) == key
  }

  ghost predicate Names(item: Evidence, key: string, id: string) {
    InGroup(item, key) && item.eventId == Some(id) && id != ""
  }

  ghost function GroupEvents(evidence: seq<Evidence>, key: string): seq<string> {
    UniqueEvents(GroupItems(evidence, key))
  }

  lemma {:induction false} GroupKeysMember(evidence: seq<Evidence>, key: string)
    ensures key in GroupKeys(evidence) <==> exists e <- evidence :: InGroup(e, key)
  {
    if evidence != [] {
      var n := |evidence| - 1;
      assert evidence == evidence[..n] + [evidence[n]];
      GroupKeysMember(evidence[..n], key);
      if key in GroupKeys(evidence) && key !in GroupKeys(evidence[..n]) {
        assert InGroup(evidence[n], key);
      }
      if e :| e in evidence && InGroup(e, key) {
        assert e == evidence[n] || e in evidence[..n];
      }
    }
  }

  lemma {:induction false} GroupItemsMember(evidence: seq<Evidence>, key: string, e: Evidence)
    ensures e in GroupItems(evidence, key) <==> e in evidence && InGroup(e, key)
  {
    if evidence != [] {
      var n := |evidence| - 1;
      assert evidence == evidence[..n] + [evidence[n]];
      GroupItemsMember(evidence[..n], key, e);
    }
  }

  lemma {:induction false} EventIdsMember(items: seq<Evidence>, id: string)
    ensures id in EventIds(items) <==> exists e <- items :: e.eventId == Some(id) && id != ""
  {
    if items != [] {
      var n := |items| - 1;
      assert items == items[..n] + [items[n]];
      EventIdsMember(items[..n], id);
    }
  }

  /** The events of a group are the distinct non-empty event ids of the evidence with its key. */
  lemma GroupEventsMember(evidence: seq<Evidence>, key: string, id: string)
    ensures id in GroupEvents(evidence, key) <==> exists e <- evidence :: Names(e, key, id)
  {
    var items := GroupItems(evidence, key);
    EventIdsMember(items, id);
    if e :| e in items && e.eventId == Some(id) && id != "" {
      GroupItemsMember(evidence, key, e);
      assert Names(e, key, id);
    }
    if e :| e in evidence && Names(e, key, id) {
      GroupItemsMember(evidence, key, e);
    }
  }

  ghost predicate Bursting(config: Config, evidence: seq<Evidence>, key: string) {
    |GroupEvents(evidence, key)| >= config.burst.threshold
  }

  /** What the group of a key adds to a side. */
  ghost function BurstWeight(c: Context, evidence: seq<Evidence>, side: Side, key: string): real {
    if Bursting(c.config, evidence, key) && SideNamed(Part(key, 0)) == side
    then Round4(BurstBonus(c.env, c.config, |GroupEvents(evidence, key)|))
    else 0.0
  }

  /** The burst items of one group: at most one. */
  ghost function BurstOf(c: Context, evidence: seq<Evidence>, key: string): seq<Evidence> {
    if Bursting(c.config, evidence, key)
    then [BurstItem(c.env, c.config, c.asOf, c.coin, key, GroupEvents(evidence, key))]
    else []
  }

  lemma BurstOfSideRaw(c: Context, evidence: seq<Evidence>, side: Side, key: string)
    ensures SideRaw(BurstOf(c, evidence, key), side) == BurstWeight(c, evidence, side, key)
  {
    var items := BurstOf(c, evidence, key);
    if items != [] {
      assert items[..0] == [];
    }
  }

  lemma BurstsSnoc(c: Context, evidence: seq<Evidence>, keys: seq<string>)
    requires keys != []
    ensures BurstsFor(c.env, c.config, c.asOf, c.coin, evidence, keys) ==
            BurstsFor(c.env, c.config, c.asOf, c.coin, evidence, keys[..|keys| - 1]) +
              BurstOf(c, evidence, keys[|keys| - 1])
  {
  }

  lemma {:induction false} BurstSideRaw(c: Context, evidence: seq<Evidence>, keys: seq<string>, side: Side,
                                        weight: string -> real)
    requires forall key :: weight(key) == BurstWeight(c, evidence, side, key)
    ensures SideRaw(BurstsFor(c.env, c.config, c.asOf, c.coin, evidence, keys), side) == SumBy(keys, weight)
  {
    if keys != [] {
      var n := |keys| - 1;
      BurstSideRaw(c, evidence, keys[..n], side, weight);
      BurstsSnoc(c, evidence, keys);
      BurstOfSideRaw(c, evidence, side, keys[n]);
      SideRawConcat(BurstsFor(c.env, c.config, c.asOf, c.coin, evidence, keys[..n]),
                    BurstOf(c, evidence, keys[n]), side);
    }
  }

  ghost predicate IsBurst(c: Context, evidence: seq<Evidence>, key: string, e: Evidence) {
    Bursting(c.config, evidence, key) &&
    e == BurstItem(c.env, c.config, c.asOf, c.coin, key, GroupEvents(evidence, key))
  }

  /** Burst evidence is one item per group that reaches the threshold. */
  lemma {:induction false} BurstsForMember(c: Context, evidence: seq<Evidence>, keys: seq<string>, e: Evidence)
    ensures e in BurstsFor(c.env, c.config, c.asOf, c.coin, evidence, keys) <==>
            exists key <- keys :: IsBurst(c, evidence, key, e)
  {
    if keys != [] {
      var n := |keys| - 1;
      assert keys == keys[..n] + [keys[n]];
      BurstsForMember(c, evidence, keys[..n], e);
      if e in BurstsFor(c.env, c.config, c.asOf, c.coin, evidence, keys) {
        assert IsBurst(c, evidence, keys[n], e) || exists key <- keys[..n] :: IsBurst(c, evidence, key, e);
      }
      if key :| key in keys && IsBurst(c, evidence, key, e) {
        assert key == keys[n] || key in keys[..n];
      }
    }
  }

  /** The side a burst is filed under, read back from its group key, is the side of the evidence grouped. */
  lemma BurstKeepsSide(item: Evidence)
    ensures SideNamed(Part(GroupKey(item), 0)) == item.side
  {
    var name := SideName(item.side);
    var key := GroupKey(item);
    assert key == name + ([':'] + item.ruleKey + ":" + item.feedKey);
    assert key[..|name|] == name && key[|name|] == ':';
    assert forall j | 0 <= j < |name| :: key[j] == name[j] != ':';
    assert FirstColon(key) == |name|;
    assert SplitColon(key)[0] == name;
  }
}
