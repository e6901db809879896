/** When the dominant signal depends on the order of the source rows. */
module ScoreDominant {
  import opened Wrappers
  import opened Numbers
  import opened Sequences
  import opened ScoreModel
  import opened ScoreEvidence
  import opened ScoreMonotone
  import opened ScoreOrder
  import opened PriceAlerts

  /**
   * What the first of several equally strong signals is looked for among: row evidence of the largest
   * contribution, or evidence of the burst groups with the largest bonus.
   */
  datatype Lead = ByContribution(top: real) | ByBurst(keys: set<string>)

  ghost predicate Leads(l: Lead, e: Evidence) {
    match l
    case ByContribution(top) => e.contribution == top
    case ByBurst(keys) => Grouped(e) && GroupKey(e) in keys
  }

  /** The signal named when this evidence leads. */
  ghost function Signal(l: Lead, e: Evidence): string {
    match l
    case ByContribution(_) => e.ruleKey
    case ByBurst(_) => Part(GroupKey(e), 1) + "_burst"
  }

  ghost function FirstWhere(xs: seq<Evidence>, l: Lead): Option<Evidence> {
    if xs == [] then None
    else
      var earlier, last := FirstWhere(xs[..|xs| - 1], l), xs[|xs| - 1];
      if earlier.Some? then earlier else if Leads(l, last) then Some(last) else None
  }

  lemma {:induction false} FirstWhereConcat(a: seq<Evidence>, b: seq<Evidence>, l: Lead)
    ensures FirstWhere(a + b, l) == if FirstWhere(a, l).Some? then FirstWhere(a, l) else FirstWhere(b, l)
  {
    if b == [] {
      assert a + b == a;
    } else {
      assert (a + b)[..|a + b| - 1] == a + b[..|b| - 1];
      FirstWhereConcat(a, b[..|b| - 1], l);
    }
  }

  lemma {:induction false} FirstWhereFound(xs: seq<Evidence>, l: Lead)
    ensures FirstWhere(xs, l).Some? <==> exists e <- xs :: Leads(l, e)
    ensures FirstWhere(xs, l).Some? ==> FirstWhere(xs, l).value in xs && Leads(l, FirstWhere(xs, l).value)
  {
    if xs != [] {
      var n := |xs| - 1;
      assert xs == xs[..n] + [xs[n]];
      FirstWhereFound(xs[..n], l);
    }
  }

  // ---- leads of rows ------------------------------------------------------------------------

  /** The first evidence of one row that leads. */
  ghost function RowLead(c: Context, l: Lead, row: SourceRow): Option<Evidence>
    requires Valid(c)
  {
    FirstWhere(BaseOne(c, row), l)
  }

  ghost predicate FromRow(c: Context, l: Lead, rows: seq<SourceRow>, first: Option<Evidence>)
    requires Valid(c)
  {
    if first.Some? then exists row <- rows :: RowLead(c, l, row) == first
    else forall row <- rows :: RowLead(c, l, row).None?
  }

  lemma FromOneMore(c: Context, l: Lead, rows: seq<SourceRow>, row: SourceRow, first: Option<Evidence>)
    requires Valid(c) && FromRow(c, l, rows, first)
    ensures FromRow(c, l, rows + [row], if first.Some? then first else RowLead(c, l, row))
  {
    hide RowLead;
    assert row in rows + [row];
    if first.Some? {
      var r :| r in rows && RowLead(c, l, r) == first;
      assert r in rows + [row];
    }
  }

  /** The first lead among all rows is the lead of a row; there is none only if no row has one. */
  lemma {:induction false} FirstFromRow(c: Context, l: Lead, rows: seq<SourceRow>)
    requires Valid(c)
    ensures FromRow(c, l, rows, FirstWhere(Base(c, rows), l))
  {
    if rows == [] {
      NoRows(c);
    } else {
      hide Base, BaseOne, FromRow, FirstWhere;
      var n := |rows| - 1;
      assert rows == rows[..n] + [rows[n]];
      BaseSnoc(c, rows);
      FirstWhereConcat(Base(c, rows[..n]), BaseOne(c, rows[n]), l);
      FirstFromRow(c, l, rows[..n]);
      FromOneMore(c, l, rows[..n], rows[n], FirstWhere(Base(c, rows[..n]), l));
    }
  }

  /** A row with a lead that is put first gives the first lead. */
  lemma {:induction false} FrontRowLeads(c: Context, l: Lead, row: SourceRow, rest: seq<SourceRow>)
    requires Valid(c) && RowLead(c, l, row).Some?
    ensures FirstWhere(Base(c, [row] + rest), l) == RowLead(c, l, row)
  {
    hide Base, BaseOne;
    var rows := [row] + rest;
    var n := |rows| - 1;
    BaseSnoc(c, rows);
    FirstWhereConcat(Base(c, rows[..n]), BaseOne(c, rows[n]), l);
    if rest == [] {
      NoRows(c);
      assert rows[..n] == [] && FirstWhere([], l) == None;
    } else {
      assert rows[..n] == [row] + rest[..|rest| - 1];
      FrontRowLeads(c, l, row, rest[..|rest| - 1]);
    }
  }

  // ---- the dominant signal ------------------------------------------------------------------

  /** Everything before is weaker, nothing after is stronger. */
  ghost predicate ComesFirst(evidence: seq<Evidence>, i: nat) {
    && i < |evidence|
    && (forall j | 0 <= j < i :: evidence[j].contribution < evidence[i].contribution)
    && (forall j | i < j < |evidence| :: evidence[j].contribution <= evidence[i].contribution)
  }

  lemma ComesFirstStill(evidence: seq<Evidence>, i: nat)
    requires evidence != [] && ComesFirst(evidence[..|evidence| - 1], i)
    ensures var n := |evidence| - 1;
      ComesFirst(evidence, if evidence[n].contribution > evidence[i].contribution then n else i)
  {
    var n := |evidence| - 1;
    forall j | 0 <= j < n
      ensures evidence[..n][j] == evidence[j] && evidence[j].contribution <= evidence[i].contribution
    {
      assert evidence[..n][j].contribution <= evidence[..n][i].contribution;
    }
  }

  /** The strongest evidence, which the source takes as the head of a stable sort, is the first of the strongest. */
  lemma {:induction false} StrongestComesFirst(evidence: seq<Evidence>) returns (i: nat)
    requires evidence != []
    ensures ComesFirst(evidence, i) && evidence[i] == Strongest(evidence)
  {
    var n := |evidence| - 1;
    if n > 0 {
      hide ComesFirst;
      i := StrongestComesFirst(evidence[..n]);
      assert evidence[..n][i] == evidence[i];
      ComesFirstStill(evidence, i);
      i := if evidence[n].contribution > evidence[i].contribution then n else i;
    } else {
      i := 0;
    }
  }

  lemma {:induction false} StrongestLeads(evidence: seq<Evidence>)
    requires evidence != []
    ensures FirstWhere(evidence, ByContribution(Strongest(evidence).contribution)) == Some(Strongest(evidence))
  {
    var n := |evidence| - 1;
    if n > 0 {
      StrongestLeads(evidence[..n]);
      StrongestIsMaximal(evidence[..n]);
      if evidence[n].contribution > Strongest(evidence[..n]).contribution {
        NoneAbove(evidence[..n], evidence[n].contribution);
      }
    } else {
      assert evidence[..0] == [] && FirstWhere(evidence[..0], ByContribution(evidence[0].contribution)) == None;
    }
  }

  lemma NoneAbove(evidence: seq<Evidence>, top: real)
    requires forall i | 0 <= i < |evidence| :: evidence[i].contribution < top
    ensures FirstWhere(evidence, ByContribution(top)) == None
  {
    FirstWhereFound(evidence, ByContribution(top));
  }

  /** The group of a key bursts with exactly this bonus. */
  ghost predicate BurstsAt(c: Context, evidence: seq<Evidence>, top: real, key: string) {
    Bursting(c.config, evidence, key) && Round4(BurstBonus(c.env, c.config, |GroupEvents(evidence, key)|)) == top
  }

  ghost function BurstKeys(c: Context, evidence: seq<Evidence>, top: real): set<string> {
    set key | key in GroupKeys(evidence) && BurstsAt(c, evidence, top, key)
  }

  ghost function LeadAt(c: Context, evidence: seq<Evidence>, top: real): Lead {
    if exists e <- evidence :: e.contribution == top then ByContribution(top) else ByBurst(BurstKeys(c, evidence, top))
  }

  /** What decides the dominant signal: row evidence if some is as strong as anything, else bursts. */
  ghost function LeadOf(c: Context, rows: seq<SourceRow>): Lead
    requires Valid(c) && All(c, rows) != []
  {
    LeadAt(c, Base(c, rows), Strongest(All(c, rows)).contribution)
  }

  ghost function FirstKey(keys: seq<string>, among: set<string>): Option<string> {
    if keys == [] then None
    else
      var earlier, last := FirstKey(keys[..|keys| - 1], among), keys[|keys| - 1];
      if earlier.Some? then earlier else if last in among then Some(last) else None
  }

  lemma {:induction false} FirstKeyFound(keys: seq<string>, among: set<string>)
    ensures FirstKey(keys, among).Some? <==> exists key <- keys :: key in among
  {
    if keys != [] {
      var n := |keys| - 1;
      assert keys == keys[..n] + [keys[n]];
      FirstKeyFound(keys[..n], among);
    }
  }

  ghost function GroupOf(e: Option<Evidence>): Option<string> {
    if e.Some? then Some(GroupKey(e.value)) else None
  }

  /** The first of some groups in insertion order is that of the first evidence in one of them. */
  lemma {:induction false} FirstGroup(evidence: seq<Evidence>, among: set<string>)
    ensures FirstKey(GroupKeys(evidence), among) == GroupOf(FirstWhere(evidence, ByBurst(among)))
  {
    if evidence != [] {
      hide GroupKey, Grouped;
      var n := |evidence| - 1;
      var before, item := GroupKeys(evidence[..n]), evidence[n];
      FirstGroup(evidence[..n], among);
      FirstKeyFound(before, among);
      if Grouped(item) && GroupKey(item) !in before {
        assert (before + [GroupKey(item)])[..|before|] == before;
      }
    }
  }

  ghost function BurstFor(c: Context, evidence: seq<Evidence>, key: Option<string>): Option<Evidence> {
    match key
    case Some(k) => Some(BurstItem(c.env, c.config, c.asOf, c.coin, k, GroupEvents(evidence, k)))
    case None => None
  }

  lemma {:induction false} FirstBurst(c: Context, evidence: seq<Evidence>, keys: seq<string>, top: real,
                                      among: set<string>)
    requires forall key <- keys :: key in among <==> BurstsAt(c, evidence, top, key)
    ensures FirstWhere(BurstsFor(c.env, c.config, c.asOf, c.coin, evidence, keys), ByContribution(top)) ==
            BurstFor(c, evidence, FirstKey(keys, among))
  {
    if keys != [] {
      hide BurstsFor, GroupEvents, BurstBonus;
      var n := |keys| - 1;
      assert keys == keys[..n] + [keys[n]];
      FirstBurst(c, evidence, keys[..n], top, among);
      BurstsSnoc(c, evidence, keys);
      FirstWhereConcat(BurstsFor(c.env, c.config, c.asOf, c.coin, evidence, keys[..n]), BurstOf(c, evidence, keys[n]),
                       ByContribution(top));
      OneBurst(c, evidence, keys[n], top);
    } else {
      NoBursts(c, evidence);
    }
  }

  lemma NoBursts(c: Context, evidence: seq<Evidence>)
    ensures BurstsFor(c.env, c.config, c.asOf, c.coin, evidence, []) == []
  {
  }

  lemma OneBurst(c: Context, evidence: seq<Evidence>, key: string, top: real)
    ensures FirstWhere(BurstOf(c, evidence, key), ByContribution(top)) ==
            BurstFor(c, evidence, if BurstsAt(c, evidence, top, key) then Some(key) else None)
  {
    hide GroupEvents, BurstBonus;
    var items := BurstOf(c, evidence, key);
    if items != [] {
      assert items[..0] == [] && FirstWhere(items[..0], ByContribution(top)) == None;
    }
  }

  /** The first burst of this weight belongs to the first evidence in a group that bursts with it. */
  lemma BurstLeads(c: Context, base: seq<Evidence>, top: real)
    requires Valid(c)
    ensures var l := ByBurst(BurstKeys(c, base, top));
      var burst, first := FirstWhere(Bursts(c, base), ByContribution(top)), FirstWhere(base, l);
      (burst.Some? <==> first.Some?) && (burst.Some? ==> burst.value.ruleKey == Signal(l, first.value))
  {
    hide FirstWhere, GroupKeys, GroupEvents, BurstsFor, BurstBonus, Part, GroupKey, Bursting, Grouped, BurstsAt;
    var keys := BurstKeys(c, base, top);
    FirstBurst(c, base, GroupKeys(base), top, keys);
    FirstGroup(base, keys);
  }

  lemma LeadByContribution(base: seq<Evidence>, top: real)
    ensures FirstWhere(base, ByContribution(top)).Some? <==> exists e <- base :: e.contribution == top
  {
    hide FirstWhere;
    FirstWhereFound(base, ByContribution(top));
  }

  /** The dominant signal is that of the first evidence, in row order, that leads. */
  lemma DominantIsFirstLead(c: Context, rows: seq<SourceRow>)
    requires Valid(c) && All(c, rows) != []
    ensures var l := LeadOf(c, rows);
      var first := FirstWhere(Base(c, rows), l);
      first.Some? && DominantRule(All(c, rows)) == Some(Signal(l, first.value))
  {
    hide Base, All, Bursts, FirstWhere, Leads, Strongest, BurstKeys, ValidEnv, ValidConfig, Part, GroupKey;
    var base, all := Base(c, rows), All(c, rows);
    var top := Strongest(all).contribution;
    AllIsBaseAndBursts(c, rows);
    StrongestLeads(all);
    FirstWhereConcat(base, Bursts(c, base), ByContribution(top));
    LeadByContribution(base, top);
    BurstLeads(c, base, top);
  }

  // ---- what decides does not depend on order ------------------------------------------------

  lemma TopNoHigher(c: Context, xs: seq<SourceRow>, ys: seq<SourceRow>)
    requires Valid(c) && SameItems(Base(c, xs), Base(c, ys)) && All(c, xs) != [] && All(c, ys) != []
    ensures Strongest(All(c, xs)).contribution <= Strongest(All(c, ys)).contribution
  {
    AllIsBaseAndBursts(c, xs);
    AllIsBaseAndBursts(c, ys);
    hide All, Base, Bursts, Strongest;
    var e := Strongest(All(c, xs));
    StrongestIsMaximal(All(c, xs));
    StrongestIsMaximal(All(c, ys));
    var other := e;
    if e !in Base(c, xs) {
      other := BurstCounterpart(c, Base(c, xs), Base(c, ys), e);
    }
    assert other in All(c, ys) && other.contribution == e.contribution;
  }

  lemma SameLeadAt(c: Context, a: seq<Evidence>, b: seq<Evidence>, top: real)
    requires SameItems(a, b)
    ensures LeadAt(c, a, top) == LeadAt(c, b, top)
  {
    hide GroupKeys, GroupEvents, BurstBonus;
    SameGroups(a, b);
    forall key: string
      ensures key in BurstKeys(c, a, top) <==> key in BurstKeys(c, b, top)
    {
      assert key in GroupKeys(a) <==> key in multiset(GroupKeys(a));
      assert key in GroupKeys(b) <==> key in multiset(GroupKeys(b));
    }
    assert BurstKeys(c, a, top) == BurstKeys(c, b, top);
  }

  lemma SameLead(c: Context, xs: seq<SourceRow>, ys: seq<SourceRow>)
    requires Valid(c) && multiset(xs) == multiset(ys)
    ensures All(c, xs) == [] <==> All(c, ys) == []
    ensures All(c, xs) != [] ==> LeadOf(c, xs) == LeadOf(c, ys)
  {
    hide Base, Bursts, Strongest, LeadAt, SameItems;
    BasePermutes(c, xs, ys);
    PermutedItems(Base(c, xs), Base(c, ys));
    PermutedItems(Base(c, ys), Base(c, xs));
    SameLength(c, xs, ys);
    hide All;
    if All(c, xs) != [] {
      TopNoHigher(c, xs, ys);
      TopNoHigher(c, ys, xs);
      SameLeadAt(c, Base(c, xs), Base(c, ys), Strongest(All(c, xs)).contribution);
    }
  }

  lemma SameLength(c: Context, xs: seq<SourceRow>, ys: seq<SourceRow>)
    requires Valid(c) && SameItems(Base(c, xs), Base(c, ys))
    ensures |All(c, xs)| == |All(c, ys)|
  {
    hide Base;
    AllIsBaseAndBursts(c, xs);
    AllIsBaseAndBursts(c, ys);
    SameBurstCount(c, Base(c, xs), Base(c, ys));
  }

  // ---- the theorem --------------------------------------------------------------------------

  ghost predicate DominantIsStable(c: Context, xs: seq<SourceRow>)
    requires Valid(c)
  {
    forall ys | multiset(ys) == multiset(xs) :: Score(c, ys).dominantSignal == Score(c, xs).dominantSignal
  }

  /** All rows with evidence that leads would name the same signal. */
  ghost predicate LeadsAgree(c: Context, l: Lead, xs: seq<SourceRow>)
    requires Valid(c)
  {
    forall r, s | r in xs && s in xs && RowLead(c, l, r).Some? && RowLead(c, l, s).Some? ::
      Signal(l, RowLead(c, l, r).value) == Signal(l, RowLead(c, l, s).value)
  }

  lemma DominantOfScore(c: Context, rows: seq<SourceRow>)
    requires Valid(c)
    ensures Score(c, rows).dominantSignal == DominantRule(All(c, rows))
  {
    hide All, DominantRule;
    ScoreIsSummary(c, rows);
  }

  /** For every row with a lead there is an order of the rows in which it gives the dominant signal. */
  lemma RowCanDominate(c: Context, xs: seq<SourceRow>, row: SourceRow) returns (ys: seq<SourceRow>)
    requires Valid(c) && All(c, xs) != [] && row in xs && RowLead(c, LeadOf(c, xs), row).Some?
    ensures multiset(ys) == multiset(xs)
    ensures Score(c, ys).dominantSignal == Some(Signal(LeadOf(c, xs), RowLead(c, LeadOf(c, xs), row).value))
  {
    hide All, LeadOf, RowLead, Score, DominantRule, Base, Signal;
    var i :| 0 <= i < |xs| && xs[i] == row;
    ys := [row] + Without(xs, i);
    WithoutMultiset(xs, i);
    SameLead(c, xs, ys);
    FrontRowLeads(c, LeadOf(c, xs), row, Without(xs, i));
    DominantIsFirstLead(c, ys);
    DominantOfScore(c, ys);
  }

  lemma AgreeingRowsDominate(c: Context, xs: seq<SourceRow>, ys: seq<SourceRow>)
    requires Valid(c) && All(c, xs) != [] && multiset(ys) == multiset(xs) && LeadsAgree(c, LeadOf(c, xs), xs)
    ensures Score(c, ys).dominantSignal == Score(c, xs).dominantSignal
  {
    hide All, LeadOf, RowLead, Score, DominantRule, Base, Signal;
    SameLead(c, xs, ys);
    var l := LeadOf(c, xs);
    DominantIsFirstLead(c, xs);
    DominantIsFirstLead(c, ys);
    DominantOfScore(c, xs);
    DominantOfScore(c, ys);
    FirstFromRow(c, l, xs);
    FirstFromRow(c, l, ys);
    var r :| r in xs && RowLead(c, l, r) == FirstWhere(Base(c, xs), l);
    var s :| s in ys && RowLead(c, l, s) == FirstWhere(Base(c, ys), l);
    assert s in multiset(ys);
    assert s in xs;
  }

  /**
   * The dominant signal is the same for every order of the source rows exactly when the rows that
   * hold evidence as strong as anything agree on its first rule or, if only bursts are that strong,
   * when the rows that feed the strongest bursts agree on the rule of the first such group.
   */
  lemma DominantSignalOrder(c: Context, xs: seq<SourceRow>)
    requires Valid(c)
    ensures DominantIsStable(c, xs) <==> (All(c, xs) != [] ==> LeadsAgree(c, LeadOf(c, xs), xs))
  {
    hide All, LeadOf, RowLead, Score, Signal;
    if All(c, xs) == [] {
      forall ys | multiset(ys) == multiset(xs)
        ensures Score(c, ys).dominantSignal == Score(c, xs).dominantSignal
      {
        SameLead(c, xs, ys);
        DominantOfScore(c, xs);
        DominantOfScore(c, ys);
      }
    } else {
      var l := LeadOf(c, xs);
      if DominantIsStable(c, xs) {
        forall r, s | r in xs && s in xs && RowLead(c, l, r).Some? && RowLead(c, l, s).Some?
          ensures Signal(l, RowLead(c, l, r).value) == Signal(l, RowLead(c, l, s).value)
        {
          var a := RowCanDominate(c, xs, r);
          var b := RowCanDominate(c, xs, s);
        }
      }
      if LeadsAgree(c, l, xs) {
        forall ys | multiset(ys) == multiset(xs)
          ensures Score(c, ys).dominantSignal == Score(c, xs).dominantSignal
        {
          AgreeingRowsDominate(c, xs, ys);
        }
      }
    }
  }

  // ---- two orders of two rows ---------------------------------------------------------------

  lemma FirstOfTwo(c: Context, first: SourceRow, second: SourceRow, e: Evidence, f: Evidence)
    requires Valid(c) && c.config.burst.threshold >= 3
    requires BaseOne(c, first) == [e] && BaseOne(c, second) == [f] && e.contribution == f.contribution
    ensures Score(c, [first, second]).dominantSignal == Some(e.ruleKey)
  {
    hide BaseOne, Score, All;
    var rows := [first, second];
    TwoRows(c, first, second, e, f);
    var all := All(c, rows);
    assert all[..1] == [e];
    assert Strongest(all[..1]) == e;
    DominantOfScore(c, rows);
  }

  lemma FreshWeight(c: Context, eventId: string, change: real)
    requires Valid(c) && c.env.halfPow(0.0) == 1.0 && 0.0 <= c.window.maxAgeMinutes && (change == 2.0 || change == -2.0)
    ensures var row := PriceAlert(eventId, c.coin, change, c.asOf);
      Fresh(c.window, c.asOf, row) && Capped(18.0, WeightOf(change), Decay(c.env, c.window, c.asOf, row)) == 10.0
  {
    assert AgeMinutes(c.asOf, PriceAlert(eventId, c.coin, change, c.asOf)) == 0.0;
    assert 0.0 / c.window.halfLifeMinutes == 0.0;
    assert WeightOf(change) == 10.0;
    assert RoundToInt(10.0 * 10000.0) == 100000;
  }

  /** A rise and a fall of the same size: whichever row comes first gives the dominant signal. */
  lemma RowOrderShows(c: Context, up: nat, down: nat, a: string, b: string)
    requires Valid(c) && c.env.halfPow(0.0) == 1.0 && c.config.burst.threshold >= 3
    requires c.env.upper(c.coin) == c.coin && 0.0 <= c.window.maxAgeMinutes
    requires ReadPriceAlerts(c.config.rules, up, down)
    ensures var rise, fall := PriceAlert(a, c.coin, 2.0, c.asOf), PriceAlert(b, c.coin, -2.0, c.asOf);
      && multiset([rise, fall]) == multiset([fall, rise])
      && Score(c, [rise, fall]).dominantSignal == Some("price_alert_up")
      && Score(c, [fall, rise]).dominantSignal == Some("price_alert_down")
  {
    hide BaseOne, Score, Contribution, Decay, ReadPriceAlerts, Fresh, Capped, WeightOf;
    var rise, fall := PriceAlert(a, c.coin, 2.0, c.asOf), PriceAlert(b, c.coin, -2.0, c.asOf);
    FreshWeight(c, a, 2.0);
    FreshWeight(c, b, -2.0);
    PriceAlertEvidence(c, up, down, a, 2.0, c.asOf, 10.0);
    PriceAlertEvidence(c, up, down, b, -2.0, c.asOf, 10.0);
    var e := RowEvidence(c.env, c.window, c.asOf, c.coin, PriceUp(), rise);
    var f := RowEvidence(c.env, c.window, c.asOf, c.coin, PriceDown(), fall);
    FirstOfTwo(c, rise, fall, e, f);
    FirstOfTwo(c, fall, rise, f, e);
  }
}
