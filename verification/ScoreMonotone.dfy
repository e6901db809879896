/** Ageing and missing rows never raise a score, and scores stay in their range. */
module ScoreMonotone {
  import opened Wrappers
  import opened Numbers
  import opened Sequences
  import opened ScoreModel
  import opened ScoreEvidence

  /** `later` differs from `now` at most in a later instant of scoring. */
  ghost predicate LaterThan(later: Context, now: Context) {
    Valid(now) && Valid(later) && later == now.(asOf := later.asOf) && now.asOf <= later.asOf
  }

  /** The row had arrived at the earlier instant, or both instants are the same. */
  ghost predicate Received(row: SourceRow, now: Context, later: Context) {
    row.receivedAt <= now.asOf || now.asOf == later.asOf
  }

  lemma AgeGrows(asOf: int, later: int, row: SourceRow)
    requires asOf <= later
    ensures AgeMinutes(asOf, row) <= AgeMinutes(later, row)
  {
  }

  lemma DecayFalls(now: Context, later: Context, row: SourceRow)
    requires LaterThan(later, now)
    ensures 0.0 <= Decay(later.env, later.window, later.asOf, row) <= Decay(now.env, now.window, now.asOf, row)
  {
    var young, aged := Max(0.0, AgeMinutes(now.asOf, row)), Max(0.0, AgeMinutes(later.asOf, row));
    AgeGrows(now.asOf, later.asOf, row);
    OverMonotone(young, aged, now.window.halfLifeMinutes);
    var x, y := young / now.window.halfLifeMinutes, aged / now.window.halfLifeMinutes;
    assert 0.0 <= now.env.halfPow(y) <= now.env.halfPow(x);
  }

  lemma ContributionFalls(env: Env, rule: Rule, row: SourceRow, decay: real, less: real)
    requires 0.0 <= less <= decay
    requires 0.0 <= rule.baseWeight
    ensures Contribution(env, rule, row, less) <= Contribution(env, rule, row, decay)
  {
    CappedMonotone(rule.maxContribution, Strength(env, rule, row), less, decay);
  }

  lemma EvidenceFalls(now: Context, later: Context, rule: Rule, row: SourceRow)
    requires LaterThan(later, now) && 0.0 <= rule.baseWeight
    ensures Contribution(later.env, rule, row, Decay(later.env, later.window, later.asOf, row)) <=
            Contribution(now.env, rule, row, Decay(now.env, now.window, now.asOf, row))
  {
    DecayFalls(now, later, row);
    ContributionFalls(now.env, rule, row, Decay(now.env, now.window, now.asOf, row),
                      Decay(later.env, later.window, later.asOf, row));
  }

  /** The tags that decide which burst group a piece of evidence joins and which event it names. */
  ghost predicate SameTags(a: Evidence, b: Evidence) {
    a.side == b.side && a.ruleKey == b.ruleKey && a.feedKey == b.feedKey && a.eventId == b.eventId
  }

  ghost predicate Covered(e: Evidence, evidence: seq<Evidence>) {
    exists other <- evidence :: SameTags(e, other)
  }

  function Appended(evidence: seq<Evidence>, e: Evidence, counts: bool): seq<Evidence> {
    if counts then evidence + [e] else evidence
  }

  lemma AppendedRaw(evidence: seq<Evidence>, e: Evidence, counts: bool, side: Side)
    ensures SideRaw(Appended(evidence, e, counts), side) ==
            SideRaw(evidence, side) + if counts && e.side == side then e.contribution else 0.0
  {
    SideRawConcat(evidence, [e], side);
    Single(e, side);
  }

  /** Appending to both sides a piece that weighs less, and counts less often, on the smaller one. */
  lemma AppendFalls(a: seq<Evidence>, x: Evidence, xCounts: bool, b: seq<Evidence>, y: Evidence, yCounts: bool,
                    side: Side)
    requires SideRaw(a, side) <= SideRaw(b, side) && SameTags(x, y)
    requires forall e <- a :: Covered(e, b)
    requires xCounts ==> yCounts && x.contribution <= y.contribution
    requires yCounts ==> 0.0 <= y.contribution
    ensures SideRaw(Appended(a, x, xCounts), side) <= SideRaw(Appended(b, y, yCounts), side)
    ensures forall e <- Appended(a, x, xCounts) :: Covered(e, Appended(b, y, yCounts))
  {
    hide SideRaw;
    AppendedRaw(a, x, xCounts, side);
    AppendedRaw(b, y, yCounts, side);
    forall e <- Appended(a, x, xCounts)
      ensures Covered(e, Appended(b, y, yCounts))
    {
      if e in a {
        var other :| other in b && SameTags(e, other);
        assert other in Appended(b, y, yCounts);
      }
    }
  }

  ghost predicate RuleCounts(c: Context, rule: Rule, row: SourceRow)
    requires c.window.halfLifeMinutes != 0.0
  {
    Counts(c.env, c.window, c.asOf, rule, row)
  }

  lemma NegativeProduct(a: real, b: real)
    requires a <= 0.0 && 0.0 <= b
    ensures a * b <= 0.0
  {
  }

  /** A rule with a negative weight never contributes. */
  lemma NegativeNeverCounts(env: Env, rule: Rule, row: SourceRow, decay: real)
    requires rule.baseWeight < 0.0 <= decay
    ensures Contribution(env, rule, row, decay) <= 0.0
  {
    hide Multiplier, RankMultiplier;
    var weighted := rule.baseWeight * Multiplier(env, rule, row);
    NegativeProduct(rule.baseWeight, Multiplier(env, rule, row));
    NegativeProduct(weighted, RankMultiplier(row));
    assert Strength(env, rule, row) == weighted * RankMultiplier(row);
    NegativeProduct(Strength(env, rule, row), decay);
    Round4Monotone(Min(rule.maxContribution, Strength(env, rule, row) * decay), 0.0);
  }

  lemma RuleFalls(now: Context, later: Context, rule: Rule, row: SourceRow)
    requires LaterThan(later, now)
    ensures var x, y := RowEvidence(later.env, later.window, later.asOf, later.coin, rule, row),
                        RowEvidence(now.env, now.window, now.asOf, now.coin, rule, row);
      && SameTags(x, y)
      && (RuleCounts(later, rule, row) ==> RuleCounts(now, rule, row) && x.contribution <= y.contribution)
      && (RuleCounts(now, rule, row) ==> 0.0 <= y.contribution)
  {
    hide Contribution, Decay, ValidEnv, ValidConfig, RuleApplies, ConfidenceImpact, EvidenceValue, Round4;
    if 0.0 <= rule.baseWeight {
      EvidenceFalls(now, later, rule, row);
    } else {
      DecayFalls(now, later, row);
      NegativeNeverCounts(now.env, rule, row, Decay(now.env, now.window, now.asOf, row));
      NegativeNeverCounts(later.env, rule, row, Decay(later.env, later.window, later.asOf, row));
    }
  }

  lemma RowSteps(c: Context, rules: seq<Rule>, row: SourceRow)
    requires rules != [] && c.window.halfLifeMinutes != 0.0
    ensures var front, rule := rules[..|rules| - 1], rules[|rules| - 1];
      EvidenceOfRow(c.env, rules, c.window, c.asOf, c.coin, row) ==
      Appended(EvidenceOfRow(c.env, front, c.window, c.asOf, c.coin, row),
               RowEvidence(c.env, c.window, c.asOf, c.coin, rule, row), RuleCounts(c, rule, row))
  {
    hide RowEvidence, Counts;
  }

  /** One row under a prefix of the rules: less weight on every side, and no new tags. */
  lemma {:induction false} RowFalls(now: Context, later: Context, rules: seq<Rule>, row: SourceRow, side: Side)
    requires LaterThan(later, now)
    ensures SideRaw(EvidenceOfRow(later.env, rules, later.window, later.asOf, later.coin, row), side) <=
            SideRaw(EvidenceOfRow(now.env, rules, now.window, now.asOf, now.coin, row), side)
    ensures forall e <- EvidenceOfRow(later.env, rules, later.window, later.asOf, later.coin, row) ::
              Covered(e, EvidenceOfRow(now.env, rules, now.window, now.asOf, now.coin, row))
  {
    if rules != [] {
      hide EvidenceOfRow, RowEvidence, RuleCounts, SideRaw, Covered, SameTags, Appended, ValidEnv, ValidConfig;
      var front, rule := rules[..|rules| - 1], rules[|rules| - 1];
      RowFalls(now, later, front, row, side);
      RuleFalls(now, later, rule, row);
      RowSteps(now, rules, row);
      RowSteps(later, rules, row);
      AppendFalls(
        EvidenceOfRow(later.env, front, later.window, later.asOf, later.coin, row),
        RowEvidence(later.env, later.window, later.asOf, later.coin, rule, row), RuleCounts(later, rule, row),
        EvidenceOfRow(now.env, front, now.window, now.asOf, now.coin, row),
        RowEvidence(now.env, now.window, now.asOf, now.coin, rule, row), RuleCounts(now, rule, row), side);
    }
  }

  lemma Single(e: Evidence, side: Side)
    ensures SideRaw([e], side) == if e.side == side then e.contribution else 0.0
  {
    assert [e][..0] == [];
  }

  lemma OneRowFalls(now: Context, later: Context, row: SourceRow, side: Side)
    requires LaterThan(later, now)
    requires Received(row, now, later)
    ensures SideRaw(BaseOne(later, row), side) <= SideRaw(BaseOne(now, row), side)
    ensures forall e <- BaseOne(later, row) :: Covered(e, BaseOne(now, row))
  {
    RowFalls(now, later, now.config.rules, row.(coin := now.coin), side);
    RowEvidencePositive(now.env, now.config.rules, now.window, now.asOf, now.coin, row.(coin := now.coin));
    SideRawNonNegative(RowBase(now, row.(coin := now.coin)), side);
    assert Fresh(later.window, later.asOf, row) && Received(row, now, later) ==> Fresh(now.window, now.asOf, row);
  }

  lemma BaseFalls(now: Context, later: Context, many: seq<SourceRow>, few: seq<SourceRow>, side: Side)
    requires LaterThan(later, now)
    requires multiset(few) <= multiset(many)
    requires forall row <- few :: Received(row, now, later)
    ensures SideRaw(Base(later, few), side) <= SideRaw(Base(now, many), side)
  {
    var small := (row: SourceRow) => if Valid(later) then SideRaw(BaseOne(later, row), side) else 0.0;
    var large := (row: SourceRow) => if Valid(now) then SideRaw(BaseOne(now, row), side) else 0.0;
    BaseSideRaw(later, few, side, small);
    BaseSideRaw(now, many, side, large);
    forall row | row in few
      ensures small(row) <= large(row)
    {
      OneRowFalls(now, later, row, side);
    }
    forall row | row in many
      ensures 0.0 <= large(row)
    {
      RowEvidencePositive(now.env, now.config.rules, now.window, now.asOf, now.coin, row.(coin := now.coin));
      SideRawNonNegative(BaseOne(now, row), side);
    }
    SumByMonotone(few, small, many, large);
  }

  lemma BaseCovered(now: Context, later: Context, many: seq<SourceRow>, few: seq<SourceRow>)
    requires LaterThan(later, now)
    requires multiset(few) <= multiset(many)
    requires forall row <- few :: Received(row, now, later)
    ensures forall e <- Base(later, few) :: Covered(e, Base(now, many))
  {
    forall e | e in Base(later, few)
      ensures Covered(e, Base(now, many))
    {
      BaseMember(later, few, e);
      var row :| row in few && e in BaseOne(later, row);
      OneRowFalls(now, later, row, Bull);
      var other :| other in BaseOne(now, row) && SameTags(e, other);
      assert row in multiset(few);
      BaseMember(now, many, other);
    }
  }

  /** Evidence with fewer tags has fewer groups and fewer events in each of them. */
  lemma SameGroup(e: Evidence, other: Evidence, key: string)
    requires InGroup(e, key) && SameTags(e, other)
    ensures InGroup(other, key)
  {
  }

  lemma GroupsShrink(few: seq<Evidence>, many: seq<Evidence>)
    requires forall e <- few :: Covered(e, many)
    ensures multiset(GroupKeys(few)) <= multiset(GroupKeys(many))
    ensures forall key :: |GroupEvents(few, key)| <= |GroupEvents(many, key)|
  {
    hide GroupKeys, GroupEvents, SameTags, InGroup;
    forall key | key in GroupKeys(few)
      ensures key in GroupKeys(many)
    {
      GroupKeysMember(few, key);
      GroupKeysMember(many, key);
      var e :| e in few && InGroup(e, key);
      var other :| other in many && SameTags(e, other);
      SameGroup(e, other, key);
    }
    DistinctSubset(GroupKeys(few), GroupKeys(many));
    forall key
      ensures |GroupEvents(few, key)| <= |GroupEvents(many, key)|
    {
      EventsShrink(few, many, key);
    }
  }

  lemma EventsShrink(few: seq<Evidence>, many: seq<Evidence>, key: string)
    requires forall e <- few :: Covered(e, many)
    ensures |GroupEvents(few, key)| <= |GroupEvents(many, key)|
  {
    var a := set id | id in GroupEvents(few, key);
    var b := set id | id in GroupEvents(many, key);
    forall id | id in a
      ensures id in b
    {
      GroupEventsMember(few, key, id);
      GroupEventsMember(many, key, id);
      var e :| e in few && Names(e, key, id);
      var other :| other in many && SameTags(e, other);
      assert Names(other, key, id);
    }
    DistinctLength(GroupEvents(few, key), a);
    DistinctLength(GroupEvents(many, key), b);
    SubsetSize(a, b);
  }

  lemma BurstWeightFalls(now: Context, later: Context, many: seq<Evidence>, few: seq<Evidence>, side: Side, key: string)
    requires LaterThan(later, now)
    requires |GroupEvents(few, key)| <= |GroupEvents(many, key)|
    ensures 0.0 <= BurstWeight(now, many, side, key)
    ensures BurstWeight(later, few, side, key) <= BurstWeight(now, many, side, key)
  {
    var m, n := |GroupEvents(few, key)|, |GroupEvents(many, key)|;
    if n >= now.config.burst.threshold {
      BurstBonusNonNegative(now.env, now.config, n);
      if m >= now.config.burst.threshold {
        assert now.env.log2(m) <= now.env.log2(n);
        Round4Monotone(BurstBonus(later.env, later.config, m), BurstBonus(now.env, now.config, n));
      }
    }
  }

  lemma BurstsFall(now: Context, later: Context, many: seq<Evidence>, few: seq<Evidence>, side: Side)
    requires LaterThan(later, now)
    requires forall e <- few :: Covered(e, many)
    ensures SideRaw(Bursts(later, few), side) <= SideRaw(Bursts(now, many), side)
  {
    var small := (key: string) => BurstWeight(later, few, side, key);
    var large := (key: string) => BurstWeight(now, many, side, key);
    GroupsShrink(few, many);
    BurstSideRaw(later, few, GroupKeys(few), side, small);
    BurstSideRaw(now, many, GroupKeys(many), side, large);
    forall key: string
      ensures small(key) <= large(key) && 0.0 <= large(key)
    {
      BurstWeightFalls(now, later, many, few, side, key);
    }
    SumByMonotone(GroupKeys(few), small, GroupKeys(many), large);
  }

  /** The raw sum of a side never rises when rows age or go missing, in whatever order they come. */
  lemma SideRawFalls(now: Context, later: Context, many: seq<SourceRow>, few: seq<SourceRow>, side: Side)
    requires LaterThan(later, now)
    requires multiset(few) <= multiset(many)
    requires forall row <- few :: Received(row, now, later)
    ensures SideRaw(All(later, few), side) <= SideRaw(All(now, many), side)
  {
    BaseFalls(now, later, many, few, side);
    BaseCovered(now, later, many, few);
    BurstsFall(now, later, Base(now, many), Base(later, few), side);
    SideRawConcat(Base(later, few), Bursts(later, Base(later, few)), side);
    SideRawConcat(Base(now, many), Bursts(now, Base(now, many)), side);
  }

  lemma NormalizeMonotone(less: real, raw: real, saturation: real)
    requires 0.0 <= less <= raw && 0.0 < saturation
    ensures 0.0 <= NormalizeSideScore(less, saturation) <= NormalizeSideScore(raw, saturation) <= 100.0
  {
    hide Round2;
    var x, y := 100.0 * less / (less + saturation), 100.0 * raw / (raw + saturation);
    CrossMonotone(less, raw, saturation);
    QuotientMonotone(less, less + saturation, raw, raw + saturation);
    Round2Between(Clamp(x, 0.0, 100.0), 0, 100);
    Round2Between(Clamp(y, 0.0, 100.0), 0, 100);
    Round2Monotone(Clamp(x, 0.0, 100.0), Clamp(y, 0.0, 100.0));
  }

  lemma CrossMonotone(less: real, raw: real, saturation: real)
    requires less <= raw && 0.0 < saturation
    ensures less * (raw + saturation) <= raw * (less + saturation)
  {
    Distributes(less, raw, saturation);
    Distributes(raw, less, saturation);
    TimesMonotone(less, raw, saturation);
  }

  lemma Distributes(a: real, b: real, c: real)
    ensures a * (b + c) == a * b + a * c
  {
  }

  lemma QuotientMonotone(a: real, b: real, c: real, d: real)
    requires 0.0 < b && 0.0 < d
    requires a * d <= c * b
    ensures 100.0 * a / b <= 100.0 * c / d
  {
    var x, y := 100.0 * a / b, 100.0 * c / d;
    assert x * b == 100.0 * a && y * d == 100.0 * c;
    assert (y - x) * (b * d) == 100.0 * (c * b - a * d);
    FactorPositive(b, d);
    PositiveFactor(y - x, b * d);
  }

  lemma FactorPositive(b: real, d: real)
    requires 0.0 < b && 0.0 < d
    ensures 0.0 < b * d
  {
  }

  lemma PositiveFactor(z: real, p: real)
    requires 0.0 < p && 0.0 <= z * p
    ensures 0.0 <= z
  {
  }

  /** A result scores no higher than another on either side, for the same coin and window. */
  ghost predicate NoHigher(a: ScoreResult, b: ScoreResult) {
    && a.coin == b.coin && a.windowMinutes == b.windowMinutes
    && 0.0 <= a.bullScore <= b.bullScore <= 100.0
    && 0.0 <= a.bearScore <= b.bearScore <= 100.0
  }

  ghost function Score(c: Context, rows: seq<SourceRow>): ScoreResult
    requires Valid(c)
  {
    ScoreCoinWindow(c.env, c.config, c.window, c.asOf, c.coin, CoinRows(c.env, c.coin, rows))
  }

  /** The score of a context is the summary of all its evidence, none of which weighs negatively. */
  lemma ScoreIsSummary(c: Context, rows: seq<SourceRow>)
    requires Valid(c)
    ensures forall e <- All(c, rows) :: 0.0 <= e.contribution
    ensures Score(c, rows) == Summarize(c.config, c.window, c.asOf, c.coin, Selected(c, rows), All(c, rows))
  {
    AllEvidenceNonNegative(c.env, c.config, c.window, c.asOf, c.coin, CoinRows(c.env, c.coin, rows));
  }

  lemma SummaryScores(config: Config, window: Window, asOf: int, coin: string, rows: seq<SourceRow>,
                      evidence: seq<Evidence>)
    requires 0.0 < config.sideSaturation
    requires forall e <- evidence :: 0.0 <= e.contribution
    ensures var r := Summarize(config, window, asOf, coin, rows, evidence);
      r.bullScore == BullScore(config, evidence) && r.bearScore == BearScore(config, evidence) &&
      r.coin == coin && r.windowMinutes == window.minutes
  {
  }

  /** Side scores follow the side sums, and lie in [0, 100]. */
  lemma BullScoreFollows(config: Config, few: seq<Evidence>, many: seq<Evidence>)
    requires 0.0 < config.sideSaturation
    requires forall e <- few :: 0.0 <= e.contribution
    requires forall e <- many :: 0.0 <= e.contribution
    requires SideRaw(few, Bull) <= SideRaw(many, Bull)
    ensures 0.0 <= BullScore(config, few) <= BullScore(config, many) <= 100.0
  {
    SideRawNonNegative(few, Bull);
    NormalizeMonotone(SideRaw(few, Bull), SideRaw(many, Bull), config.sideSaturation);
  }

  lemma BearScoreFollows(config: Config, few: seq<Evidence>, many: seq<Evidence>)
    requires 0.0 < config.sideSaturation
    requires forall e <- few :: 0.0 <= e.contribution
    requires forall e <- many :: 0.0 <= e.contribution
    requires SideRaw(few, Bear) <= SideRaw(many, Bear)
    requires SideRaw(few, Risk) <= SideRaw(many, Risk)
    ensures 0.0 <= BearScore(config, few) <= BearScore(config, many) <= 100.0
  {
    hide NormalizeSideScore, SideRaw;
    SideRawNonNegative(few, Bear);
    SideRawNonNegative(few, Risk);
    NormalizeMonotone(SideRaw(few, Bear) + SideRaw(few, Risk), SideRaw(many, Bear) + SideRaw(many, Risk),
                      config.sideSaturation);
  }

  lemma ScoreFalls(now: Context, later: Context, many: seq<SourceRow>, few: seq<SourceRow>)
    requires LaterThan(later, now)
    requires multiset(few) <= multiset(many)
    requires forall row <- few :: Received(row, now, later)
    ensures NoHigher(Score(later, few), Score(now, many))
  {
    var a, b := All(later, few), All(now, many);
    SideRawFalls(now, later, many, few, Bull);
    SideRawFalls(now, later, many, few, Bear);
    SideRawFalls(now, later, many, few, Risk);
    ScoreIsSummary(later, few);
    ScoreIsSummary(now, many);
    BullScoreFollows(now.config, a, b);
    BearScoreFollows(now.config, a, b);
    SummaryScores(later.config, later.window, later.asOf, later.coin, Selected(later, few), a);
    SummaryScores(now.config, now.window, now.asOf, now.coin, Selected(now, many), b);
  }

  ghost predicate AllNoHigher(a: seq<ScoreResult>, b: seq<ScoreResult>) {
    |a| == |b| && forall i | 0 <= i < |a| :: NoHigher(a[i], b[i])
  }

  lemma AllNoHigherConcat(a: seq<ScoreResult>, b: seq<ScoreResult>, c: seq<ScoreResult>, d: seq<ScoreResult>)
    requires AllNoHigher(a, b) && AllNoHigher(c, d)
    ensures AllNoHigher(a + c, b + d)
  {
  }

  lemma WindowScoresUnfold(env: Env, config: Config, windows: seq<Window>, asOf: int, coin: string,
                           rows: seq<SourceRow>)
    requires ValidEnv(env) && ValidConfig(config) && windows != []
    requires forall w <- windows :: 0.0 < w.halfLifeMinutes
    ensures WindowScores(env, config, windows, asOf, coin, CoinRows(env, coin, rows)) ==
            WindowScores(env, config, windows[..|windows| - 1], asOf, coin, CoinRows(env, coin, rows)) +
            [Score(Context(env, config, windows[|windows| - 1], asOf, coin), rows)]
  {
    hide ScoreCoinWindow, CoinRows, ValidEnv, ValidConfig;
  }

  lemma {:induction false} WindowScoresFall(env: Env, config: Config, windows: seq<Window>, coin: string, now: int,
                                            later: int, many: seq<SourceRow>, few: seq<SourceRow>)
    requires ValidEnv(env) && ValidConfig(config)
    requires forall w <- windows :: 0.0 < w.halfLifeMinutes
    requires now <= later
    requires multiset(few) <= multiset(many)
    requires forall row <- few :: row.receivedAt <= now || now == later
    ensures AllNoHigher(WindowScores(env, config, windows, later, coin, CoinRows(env, coin, few)),
                        WindowScores(env, config, windows, now, coin, CoinRows(env, coin, many)))
  {
    if windows != [] {
      var n := |windows| - 1;
      WindowScoresFall(env, config, windows[..n], coin, now, later, many, few);
      var before, after := Context(env, config, windows[n], now, coin), Context(env, config, windows[n], later, coin);
      ScoreFalls(before, after, many, few);
      WindowScoresUnfold(env, config, windows, now, coin, many);
      WindowScoresUnfold(env, config, windows, later, coin, few);
      hide Score, NoHigher, WindowScores, ValidEnv, ValidConfig;
      var low, high := Score(after, few), Score(before, many);
      assert AllNoHigher([low], [high]);
      AllNoHigherConcat(
        WindowScores(env, config, windows[..n], later, coin, CoinRows(env, coin, few)),
        WindowScores(env, config, windows[..n], now, coin, CoinRows(env, coin, many)), [low], [high]);
    }
  }

  /**
   * Scoring later, or from fewer of the same rows in any order, never raises a bull or bear score,
   * and every score lies in [0, 100]. Rows that are scored at both instants must have arrived by
   * the first one; a row arriving in between could raise a score.
   */
  lemma {:induction false} ScoresNeverRise(env: Env, config: Config, coins: seq<string>, minutes: Option<seq<int>>,
                                           now: int, later: int, many: seq<SourceRow>, few: seq<SourceRow>)
    requires ValidEnv(env) && ValidConfig(config)
    requires now <= later
    requires multiset(few) <= multiset(many)
    requires forall row <- few :: row.receivedAt <= now || now == later
    ensures AllNoHigher(Scores(env, config, later, coins, few, minutes), Scores(env, config, now, coins, many, minutes))
  {
    if coins != [] {
      var n := |coins| - 1;
      ScoresNeverRise(env, config, coins[..n], minutes, now, later, many, few);
      var coin, windows := env.upper(coins[n]), SelectedWindows(config.windows, minutes);
      WindowScoresFall(env, config, windows, coin, now, later, many, few);
      AllNoHigherConcat(
        Scores(env, config, later, coins[..n], few, minutes), Scores(env, config, now, coins[..n], many, minutes),
        WindowScores(env, config, windows, later, coin, CoinRows(env, coin, few)),
        WindowScores(env, config, windows, now, coin, CoinRows(env, coin, many)));
    }
  }
}
