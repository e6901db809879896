/**
 * The rule-based score engine (apps/server/src/scoring/scoreEngine.ts) as functions: what one
 * source row contributes, how evidence is grouped into bursts, and what a score result is.
 * Numbers are exact reals and instants are integer milliseconds.
 */
module ScoreModel {
  import opened Wrappers
  import opened Numbers
  import opened Sequences

  // ---- configuration and rows --------------------------------------------------------------

  datatype Side = Bull | Bear | Risk | Confidence

  datatype Scale = Fixed | LogUsd | PercentAbs | Ranked

  datatype ValueField =
    | AmountUsd | DeltaUsd | Percent | PriceChangePercent
    | OiChange15mPercent | OiChange30mPercent | TotalAlerts

  datatype Window = Window(minutes: int, halfLifeMinutes: real, maxAgeMinutes: real)

  datatype Rule = Rule(
    ruleKey: string,
    feedKeys: seq<string>,
    side: Side,
    baseWeight: real,
    scale: Scale,
    valueField: Option<ValueField>,
    maxContribution: real)

  datatype ConfidenceConfig = ConfidenceConfig(
    base: real,
    evidenceCountCap: real,
    feedDiversityCap: real,
    signalDiversityCap: real,
    exchangeBreadthCap: real,
    parserPenalty: real,
    conflictPenalty: real,
    stalePenalty: real,
    singleFeedPenalty: real,
    burstPenalty: real)

  datatype BurstConfig = BurstConfig(threshold: int, maxBonus: real)

  datatype Config = Config(
    version: string,
    windows: seq<Window>,
    sideSaturation: real,
    confidence: ConfidenceConfig,
    burst: BurstConfig,
    rules: seq<Rule>)

  datatype ParserStatus = Parsed | ParserNeedsSample | NotApplicable

  datatype SourceRow = SourceRow(
    eventId: string,
    entryId: Option<string>,
    feedKey: string,
    coin: string,
    parserStatus: ParserStatus,
    receivedAt: int,
    rank: Option<real>,
    amountUsd: Option<real>,
    deltaUsd: Option<real>,
    buyUsd: Option<real>,
    sellUsd: Option<real>,
    volume24hUsd: Option<real>,
    percent: Option<real>,
    priceChangePercent: Option<real>,
    oiChange15mPercent: Option<real>,
    oiChange30mPercent: Option<real>,
    totalAlerts: Option<real>,
    direction: Option<string>,
    exchange: Option<string>)

  /**
   * The library functions the engine calls: `0.5 ** x`, `Math.log10`, `Math.log2` and
   * `String.toUpperCase`. Only the facts in `ValidEnv` are ever used about them.
   */
  datatype Env = Env(
    halfPow: real -> real,
    log10: real -> real,
    log2: nat -> real,
    upper: string -> string)

  ghost predicate ValidEnv(env: Env) {
    && (forall x, y {:trigger env.halfPow(x), env.halfPow(y)} ::
          0.0 <= x <= y ==> 0.0 <= env.halfPow(y) <= env.halfPow(x))
    && (forall m: nat, n: nat {:trigger env.log2(m), env.log2(n)} ::
          1 <= m <= n ==> 0.0 <= env.log2(m) <= env.log2(n))
    && (forall s {:trigger env.upper(env.upper(s))} :: env.upper(env.upper(s)) == env.upper(s))
  }

  /** The facts assumed of the library functions can all hold together. */
  lemma EnvExists() returns (env: Env)
    ensures ValidEnv(env)
  {
    env := Env(x => if x < 0.0 then 1.0 else 1.0 / (1.0 + x), x => x, n => n as real, s => s);
    forall x, y | 0.0 <= x <= y
      ensures 0.0 <= env.halfPow(y) <= env.halfPow(x)
    {
      assert 1.0 / (1.0 + y) <= 1.0 / (1.0 + x);
    }
  }

  /** The configurations on which every division and logarithm of the engine is defined. */
  ghost predicate ValidConfig(config: Config) {
    && 0.0 < config.sideSaturation
    && 1 <= config.burst.threshold
    && 0.0 <= config.burst.maxBonus
    && (forall w <- config.windows :: 0.0 < w.halfLifeMinutes)
  }

  // ---- contribution of one row to one rule --------------------------------------------------

  predicate Contains(s: string, part: string) {
    exists i | 0 <= i <= |s| - |part| :: part <= s[i..]
  }

  predicate RuleApplies(rule: Rule, row: SourceRow) {
    if row.feedKey !in rule.feedKeys then false
    else if Contains(rule.ruleKey, "outflow") && row.direction != Some("outflow") then false
    else if Contains(rule.ruleKey, "inflow") && row.direction != Some("inflow") then false
    else if rule.ruleKey == "negative_funding_contrarian" then row.percent.GetOr(0.0) < 0.0
    else if rule.ruleKey == "positive_funding_overheated" then row.percent.GetOr(0.0) > 0.0
    else if rule.ruleKey == "price_alert_up" || rule.ruleKey == "volume_alert_up" then
      row.priceChangePercent.GetOr(row.percent.GetOr(0.0)) > 0.0
    else if rule.ruleKey == "price_alert_down" then
      row.priceChangePercent.GetOr(row.percent.GetOr(0.0)) < 0.0
    else if rule.ruleKey == "oi_rising_with_price" then row.priceChangePercent.GetOr(0.0) >= 0.0
    else true
  }

  function AgeMinutes(asOf: int, row: SourceRow): real {
    (asOf - row.receivedAt) as real / 60000.0
  }

  function Decay(env: Env, window: Window, asOf: int, row: SourceRow): real
    requires window.halfLifeMinutes != 0.0
  {
    env.halfPow(Max(0.0, AgeMinutes(asOf, row)) / window.halfLifeMinutes)
  }

  function RankMultiplier(row: SourceRow): (r: real)
    ensures 0.25 <= r <= 1.0
  {
    match row.rank
    case Some(rank) => if rank == 0.0 then 1.0 else Clamp((11.0 - rank) / 10.0, 0.25, 1.0)
    case None => 1.0
  }

  function FieldValue(row: SourceRow, field: ValueField): Option<real> {
    match field
    case AmountUsd => row.amountUsd
    case DeltaUsd => row.deltaUsd
    case Percent => row.percent
    case PriceChangePercent => row.priceChangePercent
    case OiChange15mPercent => row.oiChange15mPercent
    case OiChange30mPercent => row.oiChange30mPercent
    case TotalAlerts => row.totalAlerts
  }

  function ValueForRule(rule: Rule, row: SourceRow): Option<real> {
    match rule.valueField
    case None => None
    case Some(field) => FieldValue(row, field)
  }

  function ValueMultiplier(env: Env, rule: Rule, value: Option<real>): (r: real)
    ensures 0.5 <= r <= 4.0
  {
    match (rule.scale, value)
    case (LogUsd, None) => 0.5
    case (LogUsd, Some(v)) => Clamp(env.log10(Max(Abs(v), 1000.0) / 1000.0), 0.5, 3.0)
    case (PercentAbs, None) => 0.5
    case (PercentAbs, Some(v)) => Clamp(Abs(v) / 2.0, 0.5, 4.0)
    case _ => 1.0
  }

  function NonNegativeNumber(value: Option<real>): Option<real> {
    if value.Some? && value.value >= 0.0 then value else None
  }

  function PositiveNumber(value: Option<real>): Option<real> {
    if value.Some? && value.value > 0.0 then value else None
  }

  /** The row's buy and sell volumes when both are known, non-negative and not both zero. */
  function SpotVolumes(rule: Rule, row: SourceRow): (r: Option<(real, real)>)
    ensures r.Some? ==> 0.0 <= r.value.0 && 0.0 <= r.value.1 && 0.0 < r.value.0 + r.value.1
  {
    if rule.ruleKey != "spot_buy_pressure" && rule.ruleKey != "spot_sell_pressure" then None
    else
      match (NonNegativeNumber(row.buyUsd), NonNegativeNumber(row.sellUsd))
      case (Some(buy), Some(sell)) => if buy + sell <= 0.0 then None else Some((buy, sell))
      case _ => None
  }

  /** How lopsided trading is towards a side that has this share of it. */
  function ImbalanceMultiplier(sideUsd: real, totalUsd: real): (r: real)
    requires 0.0 < totalUsd
    ensures 0.0 <= r <= 1.4
  {
    Clamp((sideUsd / totalUsd - 0.5) / 0.35, 0.0, 1.4)
  }

  function VolumeMultiplier(env: Env, amountUsd: real): (r: real)
    ensures 0.25 <= r <= 1.5
  {
    Clamp(env.log10(Max(amountUsd, 1.0) / 50000.0), 0.25, 1.5)
  }

  function LiquidityMultiplier(env: Env, volume24hUsd: Option<real>): (r: real)
    ensures 0.25 <= r <= 1.25
  {
    match PositiveNumber(volume24hUsd)
    case Some(v) => Clamp(env.log10(v / 1000000.0), 0.25, 1.25)
    case None => 1.0
  }

  /** Imbalance, volume and liquidity multipliers of a spot-pressure row, multiplied. */
  function SpotMultiplier(env: Env, rule: Rule, row: SourceRow, buyUsd: real, sellUsd: real): (r: real)
    requires 0.0 <= buyUsd && 0.0 <= sellUsd && 0.0 < buyUsd + sellUsd
    ensures 0.0 <= r
  {
    var sideUsd := if rule.ruleKey == "spot_buy_pressure" then buyUsd else sellUsd;
    var imbalance := ImbalanceMultiplier(sideUsd, buyUsd + sellUsd);
    var volume := VolumeMultiplier(env, PositiveNumber(row.amountUsd).GetOr(sideUsd));
    var liquidity := LiquidityMultiplier(env, row.volume24hUsd);
    ProductNonNegative(imbalance, volume);
    ProductNonNegative(imbalance * volume, liquidity);
    imbalance * volume * liquidity
  }

  /** The factor a (rule, row) pair has besides the rule's weight, the rank and the decay. */
  function Multiplier(env: Env, rule: Rule, row: SourceRow): (r: real)
    ensures 0.0 <= r
  {
    match SpotVolumes(rule, row)
    case Some(volumes) => SpotMultiplier(env, rule, row, volumes.0, volumes.1)
    case None => ValueMultiplier(env, rule, ValueForRule(rule, row))
  }

  /** The contribution before decay and cap. */
  function Strength(env: Env, rule: Rule, row: SourceRow): (r: real)
    ensures 0.0 <= rule.baseWeight ==> 0.0 <= r
  {
    var weighted := rule.baseWeight * Multiplier(env, rule, row);
    if 0.0 <= rule.baseWeight then
      ProductNonNegative(rule.baseWeight, Multiplier(env, rule, row));
      ProductNonNegative(weighted, RankMultiplier(row));
      weighted * RankMultiplier(row)
    else
      weighted * RankMultiplier(row)
  }

  function Contribution(env: Env, rule: Rule, row: SourceRow, decay: real): real {
    Capped(rule.maxContribution, Strength(env, rule, row), decay)
  }

  function Capped(cap: real, strength: real, decay: real): real {
    Round4(Min(cap, strength * decay))
  }

  lemma CappedMonotone(cap: real, strength: real, less: real, decay: real)
    requires 0.0 <= less <= decay && 0.0 <= strength
    ensures Capped(cap, strength, less) <= Capped(cap, strength, decay)
  {
    ScaleMonotone(strength, less, decay);
    Round4Monotone(Min(cap, strength * less), Min(cap, strength * decay));
  }

  function EvidenceValue(rule: Rule, row: SourceRow): Option<real> {
    match SpotVolumes(rule, row)
    case Some(volumes) =>
      Some(PositiveNumber(row.amountUsd).GetOr(if rule.ruleKey == "spot_buy_pressure" then volumes.0 else volumes.1))
    case None => ValueForRule(rule, row)
  }

  // ---- evidence -----------------------------------------------------------------------------

  datatype Evidence = Evidence(
    coin: string,
    side: Side,
    ruleKey: string,
    contribution: real,
    confidenceImpact: real,
    weight: real,
    decayMultiplier: real,
    value: Option<real>,
    feedKey: string,
    eventId: Option<string>,
    entryId: Option<string>,
    sourceEventIds: seq<string>,
    sourceReceivedAt: int,
    exchange: Option<string>)

  function ConfidenceImpact(row: SourceRow, contribution: real): real {
    Round2(Min(6.0, contribution / 4.0) + if row.parserStatus == ParserNeedsSample then -8.0 else 0.0)
  }

  function RowEvidence(env: Env, window: Window, asOf: int, coin: string, rule: Rule, row: SourceRow): Evidence
    requires window.halfLifeMinutes != 0.0
  {
    var decay := Decay(env, window, asOf, row);
    var contribution := Contribution(env, rule, row, decay);
    Evidence(coin, rule.side, rule.ruleKey, contribution, ConfidenceImpact(row, contribution), rule.baseWeight,
             Round4(decay), EvidenceValue(rule, row), row.feedKey, Some(row.eventId), row.entryId, [row.eventId],
             row.receivedAt, row.exchange)
  }

  /** A row is evidence for a rule when the rule applies and the contribution is positive. */
  predicate Counts(env: Env, window: Window, asOf: int, rule: Rule, row: SourceRow)
    requires window.halfLifeMinutes != 0.0
  {
    RuleApplies(rule, row) && Contribution(env, rule, row, Decay(env, window, asOf, row)) > 0.0
  }

  function EvidenceOfRow(env: Env, rules: seq<Rule>, window: Window, asOf: int, coin: string,
                         row: SourceRow): seq<Evidence>
    requires window.halfLifeMinutes != 0.0
  {
    if rules == [] then []
    else
      var rule := rules[|rules| - 1];
      EvidenceOfRow(env, rules[..|rules| - 1], window, asOf, coin, row) +
      if Counts(env, window, asOf, rule, row) then [RowEvidence(env, window, asOf, coin, rule, row)] else []
  }

  function EvidenceOfRows(env: Env, rules: seq<Rule>, window: Window, asOf: int, coin: string,
                          rows: seq<SourceRow>): seq<Evidence>
    requires window.halfLifeMinutes != 0.0
  {
    if rows == [] then []
    else
      EvidenceOfRows(env, rules, window, asOf, coin, rows[..|rows| - 1]) +
      EvidenceOfRow(env, rules, window, asOf, coin, rows[|rows| - 1])
  }

  // ---- bursts -------------------------------------------------------------------------------

  function SideName(side: Side): string {
    match side
    case Bull => "bull"
    case Bear => "bear"
    case Risk => "risk"
    case Confidence => "confidence"
  }

  function SideNamed(name: string): Side {
    if name == "bull" then Bull
    else if name == "bear" then Bear
    else if name == "risk" then Risk
    else Confidence
  }

  predicate Grouped(item: Evidence) {
    item.side != Risk && item.side != Confidence
  }

  function GroupKey(item: Evidence): string {
    SideName(item.side) + ":" + item.ruleKey + ":" + item.feedKey
  }

  /** `text.split(':')`. */
  function SplitColon(text: string): (parts: seq<string>)
    ensures |parts| >= 1
  {
    var i := FirstColon(text);
    if i == |text| then [text] else [text[..i]] + SplitColon(text[i + 1..])
  }

  function FirstColon(text: string): (i: nat)
    ensures i <= |text|
    ensures i < |text| ==> text[i] == ':'
    ensures forall j | 0 <= j < i :: text[j] != ':'
  {
    if text == "" || text[0] == ':' then 0 else 1 + FirstColon(text[1..])
  }

  function Part(key: string, i: nat): string {
    var parts := SplitColon(key);
    if i < |parts| then parts[i] else ""
  }

  /** The keys of the source's `grouped` map, in insertion order. */
  function GroupKeys(evidence: seq<Evidence>): (keys: seq<string>)
    ensures Distinct(keys)
  {
    if evidence == [] then []
    else
      var before := GroupKeys(evidence[..|evidence| - 1]);
      var item := evidence[|evidence| - 1];
      if Grouped(item) && GroupKey(item) !in before then before + [GroupKey(item)] else before
  }

  /** The value the source's `grouped` map holds for a key. */
  function GroupItems(evidence: seq<Evidence>, key: string): seq<Evidence> {
    if evidence == [] then []
    else
      var item := evidence[|evidence| - 1];
      GroupItems(evidence[..|evidence| - 1], key) + if Grouped(item) && GroupKey(item) == key then [item] else []
  }

  /** The non-empty event ids of some evidence, in order, with repetition. */
  function EventIds(items: seq<Evidence>): seq<string> {
    if items == [] then []
    else
      var id := items[|items| - 1].eventId;
      EventIds(items[..|items| - 1]) + if id.Some? && id.value != "" then [id.value] else []
  }

  function UniqueEvents(items: seq<Evidence>): seq<string> {
    FirstOccurrences(EventIds(items))
  }

  function BurstBonus(env: Env, config: Config, events: nat): real {
    Min(config.burst.maxBonus, env.log2(events) * 3.0)
  }

  function BurstItem(env: Env, config: Config, asOf: int, coin: string, key: string, events: seq<string>): Evidence {
    var bonus := BurstBonus(env, config, |events|);
    Evidence(coin, SideNamed(Part(key, 0)), Part(key, 1) + "_burst", Round4(bonus),
             if |events| >= 5 then -config.confidence.burstPenalty else 2.0, bonus, 1.0, Some(|events| as real),
             Part(key, 2), None, None, events, asOf, None)
  }

  function BurstsFor(env: Env, config: Config, asOf: int, coin: string, evidence: seq<Evidence>,
                     keys: seq<string>): seq<Evidence>
  {
    if keys == [] then []
    else
      var key := keys[|keys| - 1];
      var events := UniqueEvents(GroupItems(evidence, key));
      BurstsFor(env, config, asOf, coin, evidence, keys[..|keys| - 1]) +
      if |events| < config.burst.threshold then [] else [BurstItem(env, config, asOf, coin, key, events)]
  }

  function BurstEvidence(env: Env, config: Config, asOf: int, coin: string, evidence: seq<Evidence>): seq<Evidence> {
    BurstsFor(env, config, asOf, coin, evidence, GroupKeys(evidence))
  }

  // ---- scores -------------------------------------------------------------------------------

  function SideRaw(evidence: seq<Evidence>, side: Side): real {
    if evidence == [] then 0.0
    else
      SideRaw(evidence[..|evidence| - 1], side) +
      if evidence[|evidence| - 1].side == side then evidence[|evidence| - 1].contribution else 0.0
  }

  function NormalizeSideScore(raw: real, saturation: real): real
    requires 0.0 <= raw && 0.0 < saturation
  {
    Round2(Clamp(100.0 * raw / (raw + saturation), 0.0, 100.0))
  }

  function ConflictRatio(bull: real, bear: real): real {
    if Max(bull, bear) == 0.0 then 0.0 else Min(bull, bear) / Max(bull, bear)
  }

  predicate HasConflict(bull: real, bear: real) {
    bull >= 25.0 && bear >= 25.0 && ConflictRatio(bull, bear) >= 0.45
  }

  datatype Regime = Bullish | Bearish | Conflicted | Neutral | ThinData

  function RegimeForScores(bull: real, bear: real, confidence: real, evidenceCount: nat): Regime {
    if evidenceCount == 0 || confidence < 25.0 then ThinData
    else if HasConflict(bull, bear) then Conflicted
    else if bull - bear >= 15.0 then Bullish
    else if bear - bull >= 15.0 then Bearish
    else Neutral
  }

  function Feeds(evidence: seq<Evidence>): set<string> {
    set e | e in evidence :: e.feedKey
  }

  function RuleKeys(evidence: seq<Evidence>): set<string> {
    set e | e in evidence :: e.ruleKey
  }

  function Exchanges(evidence: seq<Evidence>): set<string> {
    set e | e in evidence && e.exchange.Some? && e.exchange.value != "" :: e.exchange.value
  }

  function SourceEvents(evidence: seq<Evidence>): set<string> {
    set e, id | e in evidence && id in e.sourceEventIds :: id
  }

  function Ages(asOf: int, rows: seq<SourceRow>): (ages: seq<real>)
    ensures |ages| == |rows|
  {
    if rows == [] then [] else Ages(asOf, rows[..|rows| - 1]) + [AgeMinutes(asOf, rows[|rows| - 1])]
  }

  function MedianAge(window: Window, asOf: int, rows: seq<SourceRow>): real {
    SortSorts(Ages(asOf, rows));
    var ages := Sort(Ages(asOf, rows));
    if ages == [] then window.maxAgeMinutes else ages[|ages| / 2]
  }

  predicate NeedsSample(rows: seq<SourceRow>) {
    exists row <- rows :: row.parserStatus == ParserNeedsSample
  }

  function ConfidenceScore(config: Config, window: Window, asOf: int, rows: seq<SourceRow>, evidence: seq<Evidence>,
                           bull: real, bear: real): real
  {
    if evidence == [] then 0.0
    else
      var c := config.confidence;
      var median := MedianAge(window, asOf, rows);
      var parserPenalty := if NeedsSample(rows) then c.parserPenalty else 0.0;
      var conflictPenalty :=
        if HasConflict(bull, bear) then c.conflictPenalty * (1.0 + ConflictRatio(bull, bear)) else 0.0;
      var stalePenalty := if median > window.halfLifeMinutes then c.stalePenalty else 0.0;
      var singleFeedPenalty := if |Feeds(evidence)| <= 1 then c.singleFeedPenalty else 0.0;
      Round2(Clamp(c.base +
        Min(c.evidenceCountCap, |evidence| as real * 3.0) +
        Min(c.feedDiversityCap, |Feeds(evidence)| as real * 6.0) +
        Min(c.signalDiversityCap, |RuleKeys(evidence)| as real * 4.0) +
        Min(c.exchangeBreadthCap, |Exchanges(evidence)| as real * 4.0) +
        Max(0.0, 12.0 * (1.0 - median / Max(1.0, window.maxAgeMinutes))) -
        parserPenalty - conflictPenalty - stalePenalty - singleFeedPenalty, 0.0, 100.0))
  }

  /** The first evidence whose contribution no other exceeds: the head of a stable descending sort. */
  function Strongest(evidence: seq<Evidence>): Evidence
    requires evidence != []
  {
    var n := |evidence| - 1;
    if n == 0 then evidence[0]
    else
      var best := Strongest(evidence[..n]);
      if evidence[n].contribution > best.contribution then evidence[n] else best
  }

  lemma {:induction false} StrongestIsMaximal(evidence: seq<Evidence>)
    requires evidence != []
    ensures Strongest(evidence) in evidence
    ensures forall i | 0 <= i < |evidence| :: evidence[i].contribution <= Strongest(evidence).contribution
  {
    if |evidence| > 1 {
      StrongestIsMaximal(evidence[..|evidence| - 1]);
    }
  }

  function DominantRule(evidence: seq<Evidence>): Option<string> {
    if evidence == [] then None else Some(Strongest(evidence).ruleKey)
  }

  datatype ScoreResult = ScoreResult(
    ts: int,
    windowMinutes: int,
    coin: string,
    bullScore: real,
    bearScore: real,
    netScore: real,
    confidenceScore: real,
    eventCount: nat,
    evidenceCount: nat,
    dominantSignal: Option<string>,
    marketRegime: Regime,
    evidence: seq<Evidence>)

  predicate Fresh(window: Window, asOf: int, row: SourceRow) {
    0.0 <= AgeMinutes(asOf, row) <= window.maxAgeMinutes
  }

  function FreshRows(window: Window, asOf: int, rows: seq<SourceRow>): seq<SourceRow> {
    if rows == [] then []
    else
      FreshRows(window, asOf, rows[..|rows| - 1]) +
      if Fresh(window, asOf, rows[|rows| - 1]) then [rows[|rows| - 1]] else []
  }

  /** `groupRowsByCoin(rows).get(coin) ?? []`: the rows of a coin, each carrying the upper-case name. */
  function CoinRows(env: Env, coin: string, rows: seq<SourceRow>): seq<SourceRow> {
    if rows == [] then []
    else
      var row := rows[|rows| - 1];
      CoinRows(env, coin, rows[..|rows| - 1]) + if env.upper(row.coin) == coin then [row.(coin := coin)] else []
  }

  /** All evidence of a coin in a window: row evidence followed by burst evidence. */
  function AllEvidence(env: Env, config: Config, window: Window, asOf: int, coin: string,
                       rows: seq<SourceRow>): seq<Evidence>
    requires window.halfLifeMinutes != 0.0
  {
    var evidence := EvidenceOfRows(env, config.rules, window, asOf, coin, FreshRows(window, asOf, rows));
    evidence + BurstEvidence(env, config, asOf, coin, evidence)
  }

  /** No evidence weighs negatively, so the side sums are defined and non-negative. */
  lemma {:induction false} SideRawNonNegative(evidence: seq<Evidence>, side: Side)
    requires forall e <- evidence :: 0.0 <= e.contribution
    ensures 0.0 <= SideRaw(evidence, side)
  {
    if evidence != [] {
      SideRawNonNegative(evidence[..|evidence| - 1], side);
    }
  }

  lemma {:induction false} RowEvidencePositive(env: Env, rules: seq<Rule>, window: Window, asOf: int, coin: string,
                                               row: SourceRow)
    requires window.halfLifeMinutes != 0.0
    ensures forall e <- EvidenceOfRow(env, rules, window, asOf, coin, row) :: 0.0 < e.contribution
  {
    if rules != [] {
      RowEvidencePositive(env, rules[..|rules| - 1], window, asOf, coin, row);
    }
  }

  lemma {:induction false} RowsEvidencePositive(env: Env, rules: seq<Rule>, window: Window, asOf: int, coin: string,
                                                rows: seq<SourceRow>)
    requires window.halfLifeMinutes != 0.0
    ensures forall e <- EvidenceOfRows(env, rules, window, asOf, coin, rows) :: 0.0 < e.contribution
  {
    if rows != [] {
      RowsEvidencePositive(env, rules, window, asOf, coin, rows[..|rows| - 1]);
      RowEvidencePositive(env, rules, window, asOf, coin, rows[|rows| - 1]);
    }
  }

  lemma BurstBonusNonNegative(env: Env, config: Config, events: nat)
    requires ValidEnv(env) && ValidConfig(config)
    requires 1 <= events
    ensures 0.0 <= Round4(BurstBonus(env, config, events))
  {
    assert 0.0 <= env.log2(events);
    Round4NonNegative(BurstBonus(env, config, events));
  }

  lemma {:induction false} BurstsNonNegative(env: Env, config: Config, asOf: int, coin: string, evidence: seq<Evidence>,
                                             keys: seq<string>)
    requires ValidEnv(env) && ValidConfig(config)
    ensures forall e <- BurstsFor(env, config, asOf, coin, evidence, keys) :: 0.0 <= e.contribution
  {
    if keys != [] {
      BurstsNonNegative(env, config, asOf, coin, evidence, keys[..|keys| - 1]);
      var events := UniqueEvents(GroupItems(evidence, keys[|keys| - 1]));
      if |events| >= config.burst.threshold {
        BurstBonusNonNegative(env, config, |events|);
      }
    }
  }

  lemma AllEvidenceNonNegative(env: Env, config: Config, window: Window, asOf: int, coin: string, rows: seq<SourceRow>)
    requires ValidEnv(env) && ValidConfig(config)
    requires window.halfLifeMinutes != 0.0
    ensures forall e <- AllEvidence(env, config, window, asOf, coin, rows) :: 0.0 <= e.contribution
  {
    var evidence := EvidenceOfRows(env, config.rules, window, asOf, coin, FreshRows(window, asOf, rows));
    RowsEvidencePositive(env, config.rules, window, asOf, coin, FreshRows(window, asOf, rows));
    BurstsNonNegative(env, config, asOf, coin, evidence, GroupKeys(evidence));
  }

  function BullScore(config: Config, evidence: seq<Evidence>): real
    requires 0.0 < config.sideSaturation
    requires forall e <- evidence :: 0.0 <= e.contribution
  {
    SideRawNonNegative(evidence, Bull);
    NormalizeSideScore(SideRaw(evidence, Bull), config.sideSaturation)
  }

  /** Risk evidence counts towards the bear score. */
  function BearScore(config: Config, evidence: seq<Evidence>): real
    requires 0.0 < config.sideSaturation
    requires forall e <- evidence :: 0.0 <= e.contribution
  {
    SideRawNonNegative(evidence, Bear);
    SideRawNonNegative(evidence, Risk);
    NormalizeSideScore(SideRaw(evidence, Bear) + SideRaw(evidence, Risk), config.sideSaturation)
  }

  function Summarize(config: Config, window: Window, asOf: int, coin: string, freshRows: seq<SourceRow>,
                     evidence: seq<Evidence>): ScoreResult
    requires 0.0 < config.sideSaturation
    requires forall e <- evidence :: 0.0 <= e.contribution
  {
    var bull := BullScore(config, evidence);
    var bear := BearScore(config, evidence);
    var confidence := ConfidenceScore(config, window, asOf, freshRows, evidence, bull, bear);
    ScoreResult(asOf, window.minutes, coin, bull, bear, Round2(bull - bear), confidence,
                |SourceEvents(evidence)|, |evidence|, DominantRule(evidence),
                RegimeForScores(bull, bear, confidence, |evidence|), evidence)
  }

  /** `scoreCoinWindow`: the score of one coin in one window from that coin's rows. */
  function ScoreCoinWindow(env: Env, config: Config, window: Window, asOf: int, coin: string,
                           rows: seq<SourceRow>): ScoreResult
    requires ValidEnv(env) && ValidConfig(config)
    requires 0.0 < window.halfLifeMinutes
  {
    AllEvidenceNonNegative(env, config, window, asOf, coin, rows);
    Summarize(config, window, asOf, coin, FreshRows(window, asOf, rows),
              AllEvidence(env, config, window, asOf, coin, rows))
  }

  function SelectedWindows(windows: seq<Window>, minutes: Option<seq<int>>): (selected: seq<Window>)
    ensures forall w <- selected :: w in windows
  {
    if windows == [] then []
    else
      var n := |windows| - 1;
      assert windows == windows[..n] + [windows[n]];
      SelectedWindows(windows[..n], minutes) +
      if minutes.None? || windows[n].minutes in minutes.value then [windows[n]] else []
  }

  function WindowScores(env: Env, config: Config, windows: seq<Window>, asOf: int, coin: string,
                        rows: seq<SourceRow>): seq<ScoreResult>
    requires ValidEnv(env) && ValidConfig(config)
    requires forall w <- windows :: 0.0 < w.halfLifeMinutes
  {
    if windows == [] then []
    else
      WindowScores(env, config, windows[..|windows| - 1], asOf, coin, rows) +
      [ScoreCoinWindow(env, config, windows[|windows| - 1], asOf, coin, rows)]
  }

  /** `calculateScores`: coins outermost, windows innermost. */
  function Scores(env: Env, config: Config, asOf: int, coins: seq<string>, rows: seq<SourceRow>,
                  minutes: Option<seq<int>>): seq<ScoreResult>
    requires ValidEnv(env) && ValidConfig(config)
  {
    if coins == [] then []
    else
      var coin := env.upper(coins[|coins| - 1]);
      Scores(env, config, asOf, coins[..|coins| - 1], rows, minutes) +
      WindowScores(env, config, SelectedWindows(config.windows, minutes), asOf, coin, CoinRows(env, coin, rows))
  }
}
