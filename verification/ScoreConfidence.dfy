/** Ageing evidence never earns more confidence, as long as the two sides do not come to conflict less. */
module ScoreConfidence {
  import opened Numbers
  import opened Sequences
  import opened ScoreModel
  import opened ScoreEvidence
  import opened ScoreMonotone
  import opened ScoreOrder
  import opened ScoreShape
  import opened PriceAlerts

  // ---- evidence that has thinned out --------------------------------------------------------

  predicate SameKind(e: Evidence, other: Evidence) {
    e.feedKey == other.feedKey && e.ruleKey == other.ruleKey && e.exchange == other.exchange
  }

  ghost predicate Resembles(e: Evidence, evidence: seq<Evidence>) {
    exists other <- evidence :: SameKind(e, other)
  }

  /** No more evidence, and none with a feed, rule or exchange of its own. */
  ghost predicate Thinner(few: seq<Evidence>, many: seq<Evidence>) {
    |few| <= |many| && forall e <- few :: Resembles(e, many)
  }

  lemma ThinnerConcat(a: seq<Evidence>, b: seq<Evidence>, c: seq<Evidence>, d: seq<Evidence>)
    requires Thinner(a, b) && Thinner(c, d)
    ensures Thinner(a + c, b + d)
  {
    forall e | e in a + c
      ensures Resembles(e, b + d)
    {
      if e in a {
        assert Resembles(e, b);
        var other :| other in b && SameKind(e, other);
        assert other in b + d;
      } else {
        assert Resembles(e, d);
        var other :| other in d && SameKind(e, other);
        assert other in b + d;
      }
    }
  }

  lemma ThinnerAppend(a: seq<Evidence>, x: Evidence, xCounts: bool, b: seq<Evidence>, y: Evidence, yCounts: bool)
    requires Thinner(a, b) && (xCounts ==> yCounts)
    requires SameKind(x, y)
    ensures Thinner(Appended(a, x, xCounts), Appended(b, y, yCounts))
  {
    hide Resembles;
    if yCounts {
      assert Thinner(if xCounts then [x] else [], [y]) by {
        OneResembles(x, y);
      }
      ThinnerConcat(a, b, if xCounts then [x] else [], [y]);
      assert a + [] == a;
    }
  }

  lemma OneResembles(x: Evidence, y: Evidence)
    requires SameKind(x, y)
    ensures Resembles(x, [y])
  {
    assert y in [y];
  }

  lemma {:induction false} RowThins(now: Context, later: Context, rules: seq<Rule>, row: SourceRow)
    requires LaterThan(later, now)
    ensures Thinner(EvidenceOfRow(later.env, rules, later.window, later.asOf, later.coin, row),
                    EvidenceOfRow(now.env, rules, now.window, now.asOf, now.coin, row))
  {
    if rules != [] {
      hide EvidenceOfRow, RuleCounts, Thinner, Appended, ValidEnv, ValidConfig, Contribution, Decay, EvidenceValue;
      var front, rule := rules[..|rules| - 1], rules[|rules| - 1];
      RowThins(now, later, front, row);
      RuleFalls(now, later, rule, row);
      RowSteps(now, rules, row);
      RowSteps(later, rules, row);
      ThinnerAppend(
        EvidenceOfRow(later.env, front, later.window, later.asOf, later.coin, row),
        RowEvidence(later.env, later.window, later.asOf, later.coin, rule, row), RuleCounts(later, rule, row),
        EvidenceOfRow(now.env, front, now.window, now.asOf, now.coin, row),
        RowEvidence(now.env, now.window, now.asOf, now.coin, rule, row), RuleCounts(now, rule, row));
    }
  }

  /** No row of these has arrived or aged out in between. */
  ghost predicate SameFresh(now: Context, later: Context, rows: seq<SourceRow>) {
    forall row <- rows :: Fresh(later.window, later.asOf, row) <==> Fresh(now.window, now.asOf, row)
  }

  lemma {:induction false} SameSelected(now: Context, later: Context, rows: seq<SourceRow>)
    requires LaterThan(later, now) && SameFresh(now, later, rows)
    ensures Selected(later, rows) == Selected(now, rows)
  {
    hide Selected, Fresh, ValidEnv, ValidConfig;
    if rows != [] {
      SameSelected(now, later, rows[..|rows| - 1]);
      SelectedSnoc(now, rows);
      SelectedSnoc(later, rows);
      assert rows[|rows| - 1] in rows;
    } else {
      NothingSelected(now);
      NothingSelected(later);
    }
  }

  lemma NothingSelected(c: Context)
    ensures Selected(c, []) == []
  {
  }

  lemma {:induction false} BaseThins(now: Context, later: Context, rows: seq<SourceRow>)
    requires LaterThan(later, now) && SameFresh(now, later, rows)
    ensures Thinner(Base(later, rows), Base(now, rows))
  {
    if rows != [] {
      hide Base, Thinner, Fresh, ValidEnv, ValidConfig;
      var front, row := rows[..|rows| - 1], rows[|rows| - 1];
      BaseThins(now, later, front);
      BaseSnoc(now, rows);
      BaseSnoc(later, rows);
      assert row in rows;
      RowThins(now, later, now.config.rules, row.(coin := now.coin));
      NothingThinner();
      ThinnerConcat(Base(later, front), Base(now, front), BaseOne(later, row), BaseOne(now, row));
    }
  }

  lemma NothingThinner()
    ensures Thinner([], [])
  {
  }

  // ---- bursts -------------------------------------------------------------------------------

  lemma FewerBursts(now: Context, later: Context, many: seq<Evidence>, few: seq<Evidence>)
    requires LaterThan(later, now) && forall e <- few :: Covered(e, many)
    ensures |Bursts(later, few)| <= |Bursts(now, many)|
  {
    GroupsShrink(few, many);
    var f := (key: string) => if Bursting(later.config, few, key) then 1.0 else 0.0;
    var g := (key: string) => if Bursting(now.config, many, key) then 1.0 else 0.0;
    BurstCount(later, few, GroupKeys(few), f);
    BurstCount(now, many, GroupKeys(many), g);
    SumByMonotone(GroupKeys(few), f, GroupKeys(many), g);
  }

  lemma BurstsThin(now: Context, later: Context, many: seq<Evidence>, few: seq<Evidence>)
    requires LaterThan(later, now) && forall e <- few :: Covered(e, many)
    ensures Thinner(Bursts(later, few), Bursts(now, many))
  {
    hide GroupKeys, GroupEvents, BurstBonus, Part;
    FewerBursts(now, later, many, few);
    GroupsShrink(few, many);
    forall e | e in Bursts(later, few)
      ensures Resembles(e, Bursts(now, many))
    {
      BurstsForMember(later, few, GroupKeys(few), e);
      var key :| key in GroupKeys(few) && IsBurst(later, few, key, e);
      assert key in multiset(GroupKeys(few));
      assert key in multiset(GroupKeys(many));
      var other := BurstItem(now.env, now.config, now.asOf, now.coin, key, GroupEvents(many, key));
      assert IsBurst(now, many, key, other);
      BurstsForMember(now, many, GroupKeys(many), other);
    }
  }

  lemma EvidenceThins(now: Context, later: Context, rows: seq<SourceRow>)
    requires LaterThan(later, now) && SameFresh(now, later, rows)
    requires forall row <- rows :: Received(row, now, later)
    ensures Thinner(All(later, rows), All(now, rows))
  {
    hide All, Thinner, Base, Bursts, Covered, Received, ValidEnv, ValidConfig;
    AllIsBaseAndBursts(now, rows);
    AllIsBaseAndBursts(later, rows);
    BaseThins(now, later, rows);
    BaseCovered(now, later, rows, rows);
    BurstsThin(now, later, Base(now, rows), Base(later, rows));
    ThinnerConcat(Base(later, rows), Base(now, rows), Bursts(later, Base(later, rows)), Bursts(now, Base(now, rows)));
  }

  // ---- confidence ---------------------------------------------------------------------------

  lemma FewerKinds(few: seq<Evidence>, many: seq<Evidence>)
    requires Thinner(few, many)
    ensures |Feeds(few)| <= |Feeds(many)| && |RuleKeys(few)| <= |RuleKeys(many)| &&
            |Exchanges(few)| <= |Exchanges(many)|
  {
    forall e | e in few
      ensures e.feedKey in Feeds(many) && e.ruleKey in RuleKeys(many)
      ensures e.exchange.Some? && e.exchange.value != "" ==> e.exchange.value in Exchanges(many)
    {
      assert Resembles(e, many);
    }
    SubsetSize(Feeds(few), Feeds(many));
    SubsetSize(RuleKeys(few), RuleKeys(many));
    SubsetSize(Exchanges(few), Exchanges(many));
  }

  lemma RestFalls(config: Config, rows: seq<SourceRow>, few: seq<Evidence>, many: seq<Evidence>, bull: real, bear: real,
                  bullNow: real, bearNow: real)
    requires Thinner(few, many) && 0.0 <= config.confidence.singleFeedPenalty
    requires ConflictPenalty(config, bullNow, bearNow) <= ConflictPenalty(config, bull, bear)
    ensures RestOfConfidence(config, rows, few, bull, bear) <= RestOfConfidence(config, rows, many, bullNow, bearNow)
  {
    hide Feeds, RuleKeys, Exchanges, ConflictPenalty, NeedsSample;
    FewerKinds(few, many);
  }

  /**
   * Thinner evidence from the same rows never earns more confidence at a later instant, unless the
   * conflict between the sides costs less then.
   */
  lemma ConfidenceFallsWithAge(config: Config, window: Window, asOf: int, later: int, rows: seq<SourceRow>,
                               many: seq<Evidence>, few: seq<Evidence>,
                               bullNow: real, bearNow: real, bull: real, bear: real)
    requires asOf <= later && 0.0 <= config.confidence.stalePenalty && 0.0 <= config.confidence.singleFeedPenalty
    requires Thinner(few, many) && ConflictPenalty(config, bullNow, bearNow) <= ConflictPenalty(config, bull, bear)
    ensures ConfidenceScore(config, window, later, rows, few, bull, bear) <=
            ConfidenceScore(config, window, asOf, rows, many, bullNow, bearNow)
  {
    if few == [] {
      ConfidenceBounded(config, window, later, rows, few, bull, bear);
      ConfidenceBounded(config, window, asOf, rows, many, bullNow, bearNow);
    } else {
      OlderMedian(window, asOf, later, rows);
      var median, older := MedianAge(window, asOf, rows), MedianAge(window, later, rows);
      hide ConfidenceScore, MedianAge, Recency, RestOfConfidence, ConflictPenalty, Round2;
      RecencyFalls(config, window, median, older);
      RestFalls(config, rows, few, many, bull, bear, bullNow, bearNow);
      ConfidenceParts(config, window, asOf, rows, many, bullNow, bearNow);
      ConfidenceParts(config, window, later, rows, few, bull, bear);
      var x := RestOfConfidence(config, rows, few, bull, bear) + Recency(config, window, older);
      var y := RestOfConfidence(config, rows, many, bullNow, bearNow) + Recency(config, window, median);
      ClampMonotone(x, y, 0.0, 100.0);
      Round2Monotone(Clamp(x, 0.0, 100.0), Clamp(y, 0.0, 100.0));
    }
  }

  lemma OlderMedian(window: Window, asOf: int, later: int, rows: seq<SourceRow>)
    requires asOf <= later
    ensures MedianAge(window, asOf, rows) <= MedianAge(window, later, rows)
  {
    if rows != [] {
      MedianAgeShifts(window, asOf, later, rows);
      Divided(0.0, (later - asOf) as real, 60000.0);
    }
  }

  /**
   * Scoring the same rows later: while none of them arrives or ages out, the confidence of a result
   * does not rise unless the conflict between its side scores has come to cost less.
   */
  lemma ScoreConfidenceFalls(now: Context, later: Context, rows: seq<SourceRow>)
    requires LaterThan(later, now) && SameFresh(now, later, rows)
    requires forall row <- rows :: Received(row, now, later)
    requires 0.0 <= now.config.confidence.stalePenalty && 0.0 <= now.config.confidence.singleFeedPenalty
    requires ConflictPenalty(now.config, Score(now, rows).bullScore, Score(now, rows).bearScore) <=
             ConflictPenalty(now.config, Score(later, rows).bullScore, Score(later, rows).bearScore)
    ensures Score(later, rows).confidenceScore <= Score(now, rows).confidenceScore
  {
    hide All, Thinner, SameFresh, Selected, Received, ConflictPenalty, ConfidenceScore, BullScore, BearScore, Score,
         ValidEnv, ValidConfig;
    EvidenceThins(now, later, rows);
    SameSelected(now, later, rows);
    SummaryOfScore(now, rows);
    SummaryOfScore(later, rows);
    var x, y := Score(now, rows), Score(later, rows);
    ConfidenceFallsWithAge(now.config, now.window, now.asOf, later.asOf, Selected(now, rows), All(now, rows),
                           All(later, rows),
                           x.bullScore, x.bearScore, y.bullScore, y.bearScore);
  }

  lemma SummaryOfScore(c: Context, rows: seq<SourceRow>)
    requires Valid(c)
    ensures Score(c, rows).confidenceScore ==
            ConfidenceScore(c.config, c.window, c.asOf, Selected(c, rows), All(c, rows), Score(c, rows).bullScore,
                            Score(c, rows).bearScore)
  {
    hide All, Selected, Score, ConfidenceScore, BullScore, BearScore, ValidEnv, ValidConfig;
    ScoreIsSummary(c, rows);
  }

  lemma ScoreInRange(c: Context, rows: seq<SourceRow>)
    requires Valid(c)
    ensures 0.0 <= Score(c, rows).bullScore && 0.0 <= Score(c, rows).bearScore
  {
    hide Score;
    ScoreFalls(c, c, rows, rows);
  }

  lemma NoBonusForConflict(config: Config, bull: real, bear: real)
    requires 0.0 <= bull && 0.0 <= bear && 0.0 <= config.confidence.conflictPenalty
    ensures 0.0 <= ConflictPenalty(config, bull, bear)
  {
    if Max(bull, bear) > 0.0 {
      OverMonotone(0.0, Min(bull, bear), Max(bull, bear));
    }
    assert 0.0 <= ConflictRatio(bull, bear);
    ProductNonNegative(config.confidence.conflictPenalty, 1.0 + ConflictRatio(bull, bear));
  }

  /** In a form a caller can check beforehand: a result whose sides do not conflict loses confidence, or keeps it. */
  lemma UnconflictedConfidenceFalls(now: Context, later: Context, rows: seq<SourceRow>)
    requires LaterThan(later, now) && SameFresh(now, later, rows)
    requires forall row <- rows :: Received(row, now, later)
    requires 0.0 <= now.config.confidence.stalePenalty && 0.0 <= now.config.confidence.singleFeedPenalty
    requires 0.0 <= now.config.confidence.conflictPenalty
    requires !HasConflict(Score(now, rows).bullScore, Score(now, rows).bearScore)
    ensures Score(later, rows).confidenceScore <= Score(now, rows).confidenceScore
  {
    hide SameFresh, Received, Score, HasConflict, ValidEnv, ValidConfig;
    ScoreInRange(later, rows);
    NoBonusForConflict(now.config, Score(later, rows).bullScore, Score(later, rows).bearScore);
    ScoreConfidenceFalls(now, later, rows);
  }

  // ---- a confidence that rises --------------------------------------------------------------

  function DefaultConfidence(): ConfidenceConfig {
    ConfidenceConfig(20.0, 36.0, 30.0, 24.0, 12.0, 15.0, 22.0, 10.0, 8.0, 8.0)
  }

  /** A rise and a fall of four per cent, arrived at one instant. */
  function RiseAndFall(coin: string, at: int): seq<SourceRow> {
    [PriceAlert("rise", coin, 4.0, at), PriceAlert("fall", coin, -4.0, at)]
  }

  /** The default configuration for a window of one hour, as far as price alerts need it. */
  ghost predicate DefaultHour(c: Context, up: nat, down: nat) {
    && Valid(c) && c.env.upper(c.coin) == c.coin && ReadPriceAlerts(c.config.rules, up, down)
    && c.env.halfPow(0.0) == 1.0 && c.env.halfPow(1.0) == 0.5
    && c.window.halfLifeMinutes == 30.0 && c.window.maxAgeMinutes == 180.0
    && c.config.sideSaturation == 45.0 && c.config.burst.threshold == 3 && c.config.confidence == DefaultConfidence()
  }

  /** Two pieces of evidence of one weight, for the two sides. */
  ghost predicate Opposed(all: seq<Evidence>, weight: real) {
    && |all| == 2 && all[0].side == Bull && all[1].side == Bear
    && all[0].contribution == weight == all[1].contribution
    && all[0].ruleKey == "price_alert_up" && all[1].ruleKey == "price_alert_down"
    && all[0].feedKey == PRICE_ALERTS == all[1].feedKey
    && all[0].exchange.None? && all[1].exchange.None?
  }

  lemma AlertEvidence(c: Context, up: nat, down: nat, at: int, weight: real)
    requires DefaultHour(c, up, down) && 0.0 < weight
    requires forall id, change | change == 4.0 || change == -4.0 ::
               var row := PriceAlert(id, c.coin, change, at);
               Fresh(c.window, c.asOf, row) &&
                 Capped(18.0, WeightOf(change), Decay(c.env, c.window, c.asOf, row)) == weight
    ensures Opposed(All(c, RiseAndFall(c.coin, at)), weight)
  {
    hide Fresh, Capped, WeightOf, Decay, BaseOne, All, ReadPriceAlerts, ValidEnv, ValidConfig;
    var rise, fall := PriceAlert("rise", c.coin, 4.0, at), PriceAlert("fall", c.coin, -4.0, at);
    PriceAlertEvidence(c, up, down, "rise", 4.0, at, weight);
    PriceAlertEvidence(c, up, down, "fall", -4.0, at, weight);
    TwoRows(c, rise, fall, RowEvidence(c.env, c.window, c.asOf, c.coin, PriceUp(), rise),
            RowEvidence(c.env, c.window, c.asOf, c.coin, PriceDown(), fall));
  }

  lemma AlertWeights(c: Context, up: nat, down: nat, at: int, id: string, change: real)
    requires DefaultHour(c, up, down) && (change == 4.0 || change == -4.0)
    requires c.asOf == at || c.asOf == at + 30 * 60000
    ensures var row := PriceAlert(id, c.coin, change, at);
      && Fresh(c.window, c.asOf, row)
      && Capped(18.0, WeightOf(change), Decay(c.env, c.window, c.asOf, row)) == if c.asOf == at then 18.0 else 10.0
  {
    var row := PriceAlert(id, c.coin, change, at);
    assert AgeMinutes(c.asOf, row) == if c.asOf == at then 0.0 else 30.0;
    assert WeightOf(change) == 20.0;
    assert Decay(c.env, c.window, c.asOf, row) == if c.asOf == at then 1.0 else 0.5;
    assert RoundToInt(18.0 * 10000.0) == 180000 && RoundToInt(10.0 * 10000.0) == 100000;
  }

  lemma OpposedRaw(all: seq<Evidence>, weight: real, side: Side)
    requires Opposed(all, weight)
    ensures SideRaw(all, side) == if side == Bull || side == Bear then weight else 0.0
  {
    hide SideRaw;
    assert all == [all[0]] + [all[1]];
    SideRawConcat([all[0]], [all[1]], side);
    Single(all[0], side);
    Single(all[1], side);
  }

  lemma NormalizedWeights()
    ensures NormalizeSideScore(18.0, 45.0) == 28.57 && NormalizeSideScore(10.0, 45.0) == 18.18
  {
    assert RoundToInt(1800.0 / 63.0 * 100.0) == 2857;
    assert RoundToInt(1000.0 / 55.0 * 100.0) == 1818;
  }

  lemma OpposedSides(config: Config, all: seq<Evidence>, weight: real)
    requires Opposed(all, weight) && config.sideSaturation == 45.0 && (weight == 18.0 || weight == 10.0)
    ensures forall e <- all :: 0.0 <= e.contribution
    ensures var side := if weight == 18.0 then 28.57 else 18.18;
      BullScore(config, all) == side == BearScore(config, all)
  {
    hide SideRaw, NormalizeSideScore;
    OpposedRaw(all, weight, Bull);
    OpposedRaw(all, weight, Bear);
    OpposedRaw(all, weight, Risk);
    NormalizedWeights();
  }

  lemma OpposedKinds(all: seq<Evidence>, weight: real)
    requires Opposed(all, weight)
    ensures |Feeds(all)| == 1 && |RuleKeys(all)| == 2 && |Exchanges(all)| == 0
  {
    assert all == [all[0], all[1]];
    assert Feeds(all) == {PRICE_ALERTS};
    assert all[0] in all && all[1] in all;
    assert RuleKeys(all) == {"price_alert_up", "price_alert_down"};
    assert "price_alert_up"[12] != "price_alert_down"[12];
    assert Exchanges(all) == {};
  }

  lemma AlertsSelected(c: Context, up: nat, down: nat, at: int)
    requires DefaultHour(c, up, down) && (c.asOf == at || c.asOf == at + 30 * 60000)
    ensures Selected(c, RiseAndFall(c.coin, at)) == RiseAndFall(c.coin, at)
  {
    hide Selected, ReadPriceAlerts, ValidEnv, ValidConfig, Capped, WeightOf, Decay, Fresh;
    var rows := RiseAndFall(c.coin, at);
    AlertWeights(c, up, down, at, "rise", 4.0);
    AlertWeights(c, up, down, at, "fall", -4.0);
    SelectedSnoc(c, rows);
    SelectedSnoc(c, rows[..1]);
    NothingSelected(c);
    assert rows[..1] == [rows[0]] && rows[..1][..0] == [];
    assert rows[0].(coin := c.coin) == rows[0] && rows[1].(coin := c.coin) == rows[1];
  }

  lemma AlertMedian(window: Window, asOf: int, coin: string, at: int)
    ensures MedianAge(window, asOf, RiseAndFall(coin, at)) == (asOf - at) as real / 60000.0
    ensures !NeedsSample(RiseAndFall(coin, at))
  {
    var rows := RiseAndFall(coin, at);
    var ages := Ages(asOf, rows);
    AgesAt(asOf, rows);
    SortSorts(ages);
    var sorted := Sort(ages);
    assert sorted[1] in multiset(sorted);
    assert sorted[1] in multiset(ages);
  }

  lemma OpposedConfidence(config: Config, window: Window, asOf: int, coin: string, at: int, all: seq<Evidence>,
                          weight: real)
    requires Opposed(all, weight) && config.confidence == DefaultConfidence()
    requires window.halfLifeMinutes == 30.0 && window.maxAgeMinutes == 180.0
    requires weight == if asOf == at then 18.0 else 10.0
    requires asOf == at || asOf == at + 30 * 60000
    ensures var side := if asOf == at then 28.57 else 18.18;
      ConfidenceScore(config, window, asOf, RiseAndFall(coin, at), all, side, side) == if asOf == at then 0.0 else 42.0
  {
    hide MedianAge, Feeds, RuleKeys, Exchanges, NeedsSample, RiseAndFall, ConfidenceScore;
    var rows, side := RiseAndFall(coin, at), if asOf == at then 28.57 else 18.18;
    AlertMedian(window, asOf, coin, at);
    OpposedKinds(all, weight);
    ConfidenceParts(config, window, asOf, rows, all, side, side);
    assert ConflictPenalty(config, side, side) == if asOf == at then 44.0 else 0.0;
    assert Recency(config, window, MedianAge(window, asOf, rows)) == if asOf == at then 12.0 else 10.0;
    assert RestOfConfidence(config, rows, all, side, side) == if asOf == at then -12.0 else 32.0;
    assert RoundToInt(42.0 * 100.0) == 4200;
  }

  lemma AlertConfidence(c: Context, up: nat, down: nat, at: int)
    requires DefaultHour(c, up, down) && (c.asOf == at || c.asOf == at + 30 * 60000)
    ensures Score(c, RiseAndFall(c.coin, at)).confidenceScore == if c.asOf == at then 0.0 else 42.0
  {
    hide Score, All, Selected, Opposed, ConfidenceScore, BullScore, BearScore, RiseAndFall, Fresh, Capped,
         WeightOf, Decay;
    hide ReadPriceAlerts, ValidEnv, ValidConfig;
    var weight := if c.asOf == at then 18.0 else 10.0;
    forall id, change | change == 4.0 || change == -4.0 {
      AlertWeights(c, up, down, at, id, change);
    }
    var rows := RiseAndFall(c.coin, at);
    AlertEvidence(c, up, down, at, weight);
    OpposedSides(c.config, All(c, rows), weight);
    AlertsSelected(c, up, down, at);
    ScoreIsSummary(c, rows);
    OpposedConfidence(c.config, c.window, c.asOf, c.coin, at, All(c, rows), weight);
  }

  /**
   * Why the exception is needed: a rise and a fall that conflict while fresh give no confidence at
   * all, and half an hour later, when they have weakened below the conflict, a confidence of 42.
   */
  lemma ConfidenceCanRise(now: Context, later: Context, up: nat, down: nat)
    requires DefaultHour(now, up, down) && later == now.(asOf := now.asOf + 30 * 60000)
    ensures var rows := RiseAndFall(now.coin, now.asOf);
      && LaterThan(later, now) && SameFresh(now, later, rows)
      && Score(now, rows).confidenceScore == 0.0 && Score(later, rows).confidenceScore == 42.0
  {
    hide Score, ReadPriceAlerts, ValidEnv, ValidConfig, Decay, Capped, WeightOf;
    AlertConfidence(now, up, down, now.asOf);
    AlertConfidence(later, up, down, now.asOf);
    AlertWeights(now, up, down, now.asOf, "rise", 4.0);
    AlertWeights(later, up, down, now.asOf, "rise", 4.0);
    AlertWeights(now, up, down, now.asOf, "fall", -4.0);
    AlertWeights(later, up, down, now.asOf, "fall", -4.0);
  }
}
