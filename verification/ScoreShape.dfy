/** Which way each factor of a score pulls, and how the two sides mirror each other. */
module ScoreShape {
  import opened Wrappers
  import opened Numbers
  import opened Sequences
  import opened ScoreModel

  /** The one fact needed of the decimal logarithm. */
  ghost predicate LogIncreasing(env: Env) {
    forall x, y {:trigger env.log10(x), env.log10(y)} :: 0.0 < x <= y ==> env.log10(x) <= env.log10(y)
  }

  lemma ClampMonotone(x: real, y: real, low: real, high: real)
    requires x <= y
    ensures Clamp(x, low, high) <= Clamp(y, low, high)
  {
  }

  lemma Divided(a: real, b: real, c: real)
    requires a <= b && 0.0 < c
    ensures a / c <= b / c
  {
  }

  lemma Product(a: real, b: real, c: real, d: real)
    requires 0.0 <= a <= b && 0.0 <= c <= d
    ensures 0.0 <= a * c <= b * d
  {
    assert a * c <= b * c <= b * d;
  }

  // ---- one row ------------------------------------------------------------------------------

  /** A larger amount or move never weighs less, whatever its sign, and a missing one weighs least. */
  lemma LargerValueWeighsMore(env: Env, rule: Rule, value: Option<real>, larger: real)
    requires LogIncreasing(env)
    requires value.Some? ==> Abs(value.value) <= Abs(larger)
    ensures ValueMultiplier(env, rule, value) <= ValueMultiplier(env, rule, Some(larger))
  {
    match (rule.scale, value)
    case (LogUsd, Some(v)) =>
      var x, y := Max(Abs(v), 1000.0), Max(Abs(larger), 1000.0);
      Divided(x, y, 1000.0);
      ClampMonotone(env.log10(x / 1000.0), env.log10(y / 1000.0), 0.5, 3.0);
    case (PercentAbs, Some(v)) =>
      Divided(Abs(v), Abs(larger), 2.0);
      ClampMonotone(Abs(v) / 2.0, Abs(larger) / 2.0, 0.5, 4.0);
    case _ =>
  }

  /** Being further down a ranking never weighs more; the first place weighs in full. */
  lemma HigherRankWeighsMore(row: SourceRow, rank: real, lower: real)
    requires 1.0 <= rank <= lower
    ensures RankMultiplier(row.(rank := Some(lower))) <= RankMultiplier(row.(rank := Some(rank)))
    ensures RankMultiplier(row.(rank := Some(1.0))) == 1.0
  {
    Divided(11.0 - lower, 11.0 - rank, 10.0);
  }

  predicate IsSpotRule(rule: Rule) {
    rule.ruleKey == "spot_buy_pressure" || rule.ruleKey == "spot_sell_pressure"
  }

  /** The other spot rule, alike in everything but its key. */
  function OtherSide(rule: Rule): Rule {
    rule.(ruleKey := if rule.ruleKey == "spot_buy_pressure" then "spot_sell_pressure" else "spot_buy_pressure")
  }

  function TradesSwapped(row: SourceRow): SourceRow {
    row.(buyUsd := row.sellUsd, sellUsd := row.buyUsd)
  }

  lemma VolumesMirrored(rule: Rule, row: SourceRow)
    requires IsSpotRule(rule)
    ensures IsSpotRule(OtherSide(rule)) && OtherSide(rule).ruleKey != rule.ruleKey
    ensures (rule.ruleKey == "spot_buy_pressure") <==> (OtherSide(rule).ruleKey == "spot_sell_pressure")
    ensures SpotVolumes(rule, row) ==
            match SpotVolumes(OtherSide(rule), TradesSwapped(row))
            case Some(volumes) => Some((volumes.1, volumes.0))
            case None => None
  {
    assert "spot_buy_pressure"[5] == 'b' && "spot_sell_pressure"[5] == 's';
  }

  lemma ValueMirrored(rule: Rule, row: SourceRow)
    ensures ValueForRule(OtherSide(rule), TradesSwapped(row)) == ValueForRule(rule, row)
  {
  }

  /** Sell pressure is buy pressure with the volumes exchanged. */
  lemma SpotPressureMirrored(env: Env, rule: Rule, row: SourceRow, decay: real)
    requires IsSpotRule(rule)
    ensures Contribution(env, OtherSide(rule), TradesSwapped(row), decay) == Contribution(env, rule, row, decay)
  {
    hide SpotVolumes, ValueForRule, SpotMultiplier, PositiveNumber, Capped, Strength;
    VolumesMirrored(rule, row);
    ValueMirrored(rule, row);
    var volumes := SpotVolumes(rule, row);
    if volumes.Some? {
      MultiplierMirrored(env, rule, row, volumes.value.0, volumes.value.1);
    }
    assert Multiplier(env, OtherSide(rule), TradesSwapped(row)) == Multiplier(env, rule, row);
    assert RankMultiplier(TradesSwapped(row)) == RankMultiplier(row);
    SameStrength(env, rule, row, OtherSide(rule), TradesSwapped(row));
  }

  lemma SameStrength(env: Env, rule: Rule, row: SourceRow, other: Rule, otherRow: SourceRow)
    requires Multiplier(env, rule, row) == Multiplier(env, other, otherRow)
    requires RankMultiplier(row) == RankMultiplier(otherRow) && rule.baseWeight == other.baseWeight
    ensures Strength(env, rule, row) == Strength(env, other, otherRow)
  {
    hide Multiplier, RankMultiplier;
    var a, b := rule.baseWeight * Multiplier(env, rule, row), other.baseWeight * Multiplier(env, other, otherRow);
    assert a == b;
    assert Strength(env, rule, row) == a * RankMultiplier(row);
    assert Strength(env, other, otherRow) == b * RankMultiplier(otherRow);
  }

  lemma MultiplierMirrored(env: Env, rule: Rule, row: SourceRow, buy: real, sell: real)
    requires IsSpotRule(rule) && 0.0 <= buy && 0.0 <= sell && 0.0 < buy + sell
    ensures SpotMultiplier(env, OtherSide(rule), TradesSwapped(row), sell, buy) ==
            SpotMultiplier(env, rule, row, buy, sell)
  {
    hide ImbalanceMultiplier, VolumeMultiplier, LiquidityMultiplier, PositiveNumber;
    VolumesMirrored(rule, row);
    assert buy + sell == sell + buy;
  }

  lemma DividedByMore(a: real, c: real, d: real)
    requires 0.0 <= a && 0.0 < c <= d
    ensures a / d <= a / c
  {
  }

  lemma SharesMakeOne(a: real, b: real)
    requires 0.0 < a + b
    ensures a / (a + b) == 1.0 - b / (a + b)
  {
    SumDivided(a, b, a + b);
    Itself(a + b);
  }

  lemma SumDivided(a: real, b: real, c: real)
    requires c != 0.0
    ensures (a + b) / c == a / c + b / c
  {
  }

  lemma Itself(c: real)
    requires c != 0.0
    ensures c / c == 1.0
  {
  }

  lemma ImbalanceGrows(side: real, more: real, other: real)
    requires 0.0 <= side <= more && 0.0 <= other && 0.0 < side + other
    ensures ImbalanceMultiplier(side, side + other) <= ImbalanceMultiplier(more, more + other)
  {
    SharesMakeOne(side, other);
    SharesMakeOne(more, other);
    DividedByMore(other, side + other, more + other);
    Divided(side / (side + other) - 0.5, more / (more + other) - 0.5, 0.35);
    ClampMonotone((side / (side + other) - 0.5) / 0.35, (more / (more + other) - 0.5) / 0.35, 0.0, 1.4);
  }

  lemma VolumeGrows(env: Env, amount: real, more: real)
    requires LogIncreasing(env) && amount <= more
    ensures VolumeMultiplier(env, amount) <= VolumeMultiplier(env, more)
  {
    var x, y := Max(amount, 1.0) / 50000.0, Max(more, 1.0) / 50000.0;
    Divided(Max(amount, 1.0), Max(more, 1.0), 50000.0);
    assert 0.0 < x;
    ClampMonotone(env.log10(x), env.log10(y), 0.25, 1.5);
  }

  lemma SpotGrows(env: Env, rule: Rule, row: SourceRow, buy: real, more: real, sell: real)
    requires LogIncreasing(env) && rule.ruleKey == "spot_buy_pressure"
    requires 0.0 <= buy <= more && 0.0 <= sell && 0.0 < buy + sell
    ensures SpotMultiplier(env, rule, row, buy, sell) <= SpotMultiplier(env, rule, row, more, sell)
  {
    hide ImbalanceMultiplier, VolumeMultiplier, LiquidityMultiplier, LogIncreasing;
    var amount, greater := PositiveNumber(row.amountUsd).GetOr(buy), PositiveNumber(row.amountUsd).GetOr(more);
    var liquidity := LiquidityMultiplier(env, row.volume24hUsd);
    ImbalanceGrows(buy, more, sell);
    VolumeGrows(env, amount, greater);
    Product(ImbalanceMultiplier(buy, buy + sell), ImbalanceMultiplier(more, more + sell),
            VolumeMultiplier(env, amount), VolumeMultiplier(env, greater));
    Product(ImbalanceMultiplier(buy, buy + sell) * VolumeMultiplier(env, amount),
            ImbalanceMultiplier(more, more + sell) * VolumeMultiplier(env, greater), liquidity, liquidity);
  }

  function WithTrades(row: SourceRow, buy: real, sell: real): SourceRow {
    row.(buyUsd := Some(buy), sellUsd := Some(sell))
  }

  lemma TradesRead(env: Env, rule: Rule, row: SourceRow, buy: real, sell: real)
    requires rule.ruleKey == "spot_buy_pressure" && 0.0 <= buy && 0.0 <= sell && 0.0 < buy + sell
    ensures Multiplier(env, rule, WithTrades(row, buy, sell)) == SpotMultiplier(env, rule, row, buy, sell)
    ensures RankMultiplier(WithTrades(row, buy, sell)) == RankMultiplier(row)
  {
    hide ImbalanceMultiplier, VolumeMultiplier, LiquidityMultiplier;
  }

  lemma StrengthGrows(env: Env, rule: Rule, row: SourceRow, buy: real, more: real, sell: real)
    requires LogIncreasing(env) && rule.ruleKey == "spot_buy_pressure" && 0.0 <= rule.baseWeight
    requires 0.0 <= buy <= more && 0.0 <= sell && 0.0 < buy + sell
    ensures 0.0 <= Strength(env, rule, WithTrades(row, buy, sell)) <= Strength(env, rule, WithTrades(row, more, sell))
  {
    hide RankMultiplier, Multiplier, SpotMultiplier, LogIncreasing, WithTrades;
    TradesRead(env, rule, row, buy, sell);
    TradesRead(env, rule, row, more, sell);
    SpotGrows(env, rule, row, buy, more, sell);
    var less, greater := Multiplier(env, rule, WithTrades(row, buy, sell)),
      Multiplier(env, rule, WithTrades(row, more, sell));
    Product(rule.baseWeight, rule.baseWeight, less, greater);
    Product(rule.baseWeight * less, rule.baseWeight * greater, RankMultiplier(row), RankMultiplier(row));
  }

  /** More buying against the same selling never contributes less to the buy pressure, however old the row. */
  lemma BuyPressureGrows(env: Env, rule: Rule, row: SourceRow, buy: real, more: real, sell: real, decay: real)
    requires LogIncreasing(env) && rule.ruleKey == "spot_buy_pressure" && 0.0 <= rule.baseWeight && 0.0 <= decay
    requires 0.0 <= buy <= more && 0.0 <= sell && 0.0 < buy + sell
    ensures Contribution(env, rule, WithTrades(row, buy, sell), decay) <=
            Contribution(env, rule, WithTrades(row, more, sell), decay)
  {
    hide Strength, LogIncreasing, WithTrades, Capped;
    StrengthGrows(env, rule, row, buy, more, sell);
    CappedGrows(rule.maxContribution, Strength(env, rule, WithTrades(row, buy, sell)),
                Strength(env, rule, WithTrades(row, more, sell)), decay);
  }

  lemma CappedGrows(cap: real, less: real, strength: real, decay: real)
    requires less <= strength && 0.0 <= decay
    ensures Capped(cap, less, decay) <= Capped(cap, strength, decay)
  {
    hide Round4, Min;
    var x, y := less * decay, strength * decay;
    TimesMonotone(less, strength, decay);
    MinGrows(cap, x, y);
    Round4Monotone(Min(cap, x), Min(cap, y));
  }

  lemma MinGrows(cap: real, x: real, y: real)
    requires x <= y
    ensures Min(cap, x) <= Min(cap, y)
  {
  }

  // ---- one result ---------------------------------------------------------------------------

  function Mirrored(regime: Regime): Regime {
    match regime
    case Bullish => Bearish
    case Bearish => Bullish
    case _ => regime
  }

  /** Exchanging the side scores exchanges bullish and bearish and nothing else. */
  lemma RegimeMirrored(bull: real, bear: real, confidence: real, evidenceCount: nat)
    ensures RegimeForScores(bear, bull, confidence, evidenceCount) ==
            Mirrored(RegimeForScores(bull, bear, confidence, evidenceCount))
  {
  }

  /** A direction is only called with evidence, enough confidence and a clear lead. */
  lemma RegimeMeans(bull: real, bear: real, confidence: real, evidenceCount: nat)
    requires 0.0 <= bear
    ensures RegimeForScores(bull, bear, confidence, evidenceCount) == Bullish <==>
            evidenceCount > 0 && confidence >= 25.0 && bull - bear >= 15.0 &&
            (bull < 25.0 || bear < 25.0 || bear < 0.45 * bull)
  {
    if bull > 0.0 && bull >= bear {
      assert bear / bull * bull == bear;
      if bear / bull >= 0.45 {
        assert bear >= 0.45 * bull;
      } else {
        assert bear < 0.45 * bull;
      }
    }
  }

  function Hundredths(n: int): real {
    n as real / 100.0
  }

  lemma NearestInteger(n: int)
    ensures RoundToInt(n as real) == n
  {
  }

  lemma Round2OfHundredths(n: int)
    ensures Round2(Hundredths(n)) == Hundredths(n)
  {
    assert Hundredths(n) * 100.0 == n as real;
    NearestInteger(n);
  }

  lemma DifferenceOfRounded(x: real, y: real)
    ensures Round2(Round2(x) - Round2(y)) == Round2(x) - Round2(y)
  {
    var m, n := RoundToInt(x * 100.0), RoundToInt(y * 100.0);
    assert Round2(x) == Hundredths(m) && Round2(y) == Hundredths(n);
    assert Hundredths(m) - Hundredths(n) == Hundredths(m - n);
    Round2OfHundredths(m - n);
  }

  /** The net score is exactly the difference of the side scores: rounding it again changes nothing. */
  lemma NetIsExact(config: Config, window: Window, asOf: int, coin: string, freshRows: seq<SourceRow>,
                   evidence: seq<Evidence>)
    requires 0.0 < config.sideSaturation && forall e <- evidence :: 0.0 <= e.contribution
    ensures var r := Summarize(config, window, asOf, coin, freshRows, evidence); r.netScore == r.bullScore - r.bearScore
  {
    hide Round2, ConfidenceScore, RegimeForScores, SourceEvents, DominantRule, Clamp;
    var bull, bear := SideRaw(evidence, Bull), SideRaw(evidence, Bear) + SideRaw(evidence, Risk);
    SideRawNonNegative(evidence, Bull);
    SideRawNonNegative(evidence, Bear);
    SideRawNonNegative(evidence, Risk);
    DifferenceOfRounded(Clamp(100.0 * bull / (bull + config.sideSaturation), 0.0, 100.0),
                        Clamp(100.0 * bear / (bear + config.sideSaturation), 0.0, 100.0));
  }

  // ---- confidence ---------------------------------------------------------------------------

  function Shifted(xs: seq<real>, d: real): seq<real> {
    if xs == [] then [] else [xs[0] + d] + Shifted(xs[1..], d)
  }

  lemma {:induction false} ShiftedAt(xs: seq<real>, d: real)
    ensures |Shifted(xs, d)| == |xs| && forall i | 0 <= i < |xs| :: Shifted(xs, d)[i] == xs[i] + d
  {
    if xs != [] {
      ShiftedAt(xs[1..], d);
    }
  }

  lemma {:induction false} InsertShifted(x: real, xs: seq<real>, d: real)
    ensures Insert(x + d, Shifted(xs, d)) == Shifted(Insert(x, xs), d)
  {
    if xs != [] && x > xs[0] {
      InsertShifted(x, xs[1..], d);
    } else {
      assert ([x] + xs)[1..] == xs;
    }
  }

  lemma {:induction false} SortShifted(xs: seq<real>, d: real)
    ensures Sort(Shifted(xs, d)) == Shifted(Sort(xs), d)
  {
    if xs != [] {
      SortShifted(xs[1..], d);
      InsertShifted(xs[0], Sort(xs[1..]), d);
    }
  }

  lemma {:induction false} AgesAt(asOf: int, rows: seq<SourceRow>)
    ensures forall i | 0 <= i < |rows| :: Ages(asOf, rows)[i] == AgeMinutes(asOf, rows[i])
  {
    if rows != [] {
      AgesAt(asOf, rows[..|rows| - 1]);
    }
  }

  /** Scoring later makes every row, and so the median row, older by as much. */
  lemma MedianAgeShifts(window: Window, asOf: int, later: int, rows: seq<SourceRow>)
    requires rows != []
    ensures MedianAge(window, later, rows) == MedianAge(window, asOf, rows) + (later - asOf) as real / 60000.0
  {
    hide Sort, AgeMinutes;
    var d := (later - asOf) as real / 60000.0;
    var ages := Ages(asOf, rows);
    AgesAt(asOf, rows);
    AgesAt(later, rows);
    ShiftedAt(ages, d);
    forall i | 0 <= i < |rows| {
      AgeShifts(asOf, later, rows[i]);
    }
    assert Ages(later, rows) == Shifted(ages, d);
    SortShifted(ages, d);
    SortSorts(ages);
    ShiftedAt(Sort(ages), d);
  }

  lemma AgeShifts(asOf: int, later: int, row: SourceRow)
    ensures AgeMinutes(later, row) == AgeMinutes(asOf, row) + (later - asOf) as real / 60000.0
  {
    SumDivided((asOf - row.receivedAt) as real, (later - asOf) as real, 60000.0);
  }

  /** Confidence lies in [0, 100], and without evidence there is none. */
  lemma ConfidenceBounded(config: Config, window: Window, asOf: int, rows: seq<SourceRow>, evidence: seq<Evidence>,
                          bull: real, bear: real)
    ensures 0.0 <= ConfidenceScore(config, window, asOf, rows, evidence, bull, bear) <= 100.0
    ensures evidence == [] ==> ConfidenceScore(config, window, asOf, rows, evidence, bull, bear) == 0.0
  {
    hide MedianAge, NeedsSample, HasConflict, ConflictRatio, Feeds, RuleKeys, Exchanges, Round2;
    if evidence != [] {
      forall x | 0.0 <= x <= 100.0
        ensures 0.0 <= Round2(x) <= 100.0
      {
        Round2Monotone(0.0, x);
        Round2Monotone(x, 100.0);
        Round2OfHundredths(0);
        Round2OfHundredths(10000);
      }
    }
  }

  /** What the age of the median row adds to confidence: a recency bonus less the penalty for stale rows. */
  function Recency(config: Config, window: Window, median: real): real {
    Max(0.0, 12.0 * (1.0 - median / Max(1.0, window.maxAgeMinutes))) -
    if median > window.halfLifeMinutes then config.confidence.stalePenalty else 0.0
  }

  lemma RecencyFalls(config: Config, window: Window, median: real, older: real)
    requires median <= older && 0.0 <= config.confidence.stalePenalty
    ensures Recency(config, window, older) <= Recency(config, window, median)
  {
    Divided(median, older, Max(1.0, window.maxAgeMinutes));
  }

  function ConflictPenalty(config: Config, bull: real, bear: real): real {
    if HasConflict(bull, bear) then config.confidence.conflictPenalty * (1.0 + ConflictRatio(bull, bear)) else 0.0
  }

  function RestOfConfidence(config: Config, rows: seq<SourceRow>, evidence: seq<Evidence>, bull: real, bear: real): real
  {
    var c := config.confidence;
    c.base +
    Min(c.evidenceCountCap, |evidence| as real * 3.0) +
    Min(c.feedDiversityCap, |Feeds(evidence)| as real * 6.0) +
    Min(c.signalDiversityCap, |RuleKeys(evidence)| as real * 4.0) +
    Min(c.exchangeBreadthCap, |Exchanges(evidence)| as real * 4.0) -
    (if NeedsSample(rows) then c.parserPenalty else 0.0) -
    ConflictPenalty(config, bull, bear) -
    (if |Feeds(evidence)| <= 1 then c.singleFeedPenalty else 0.0)
  }

  lemma ConfidenceParts(config: Config, window: Window, asOf: int, rows: seq<SourceRow>, evidence: seq<Evidence>,
                        bull: real, bear: real)
    requires evidence != []
    ensures ConfidenceScore(config, window, asOf, rows, evidence, bull, bear) ==
            Round2(Clamp(RestOfConfidence(config, rows, evidence, bull, bear) +
                         Recency(config, window, MedianAge(window, asOf, rows)), 0.0, 100.0))
  {
    hide MedianAge, NeedsSample, HasConflict, ConflictRatio, Feeds, RuleKeys, Exchanges, Round2, Clamp;
  }
}
