/** Price alerts under the two default price rules: what rows of known change and age contribute. */
module PriceAlerts {
  import opened Wrappers
  import opened Numbers
  import opened Sequences
  import opened ScoreModel
  import opened ScoreEvidence

  const PRICE_ALERTS := "pricealerts"

  function PriceRule(key: string, side: Side): Rule {
    Rule(key, [PRICE_ALERTS, "price_alerts", "pricealerts2"], side, 10.0, PercentAbs, Some(PriceChangePercent), 18.0)
  }

  function PriceUp(): Rule {
    PriceRule("price_alert_up", Bull)
  }

  function PriceDown(): Rule {
    PriceRule("price_alert_down", Bear)
  }

  /** As in the default configuration, the two price rules and no others read price alerts. */
  ghost predicate ReadPriceAlerts(rules: seq<Rule>, up: nat, down: nat) {
    && up < |rules| && down < |rules| && up != down && rules[up] == PriceUp() && rules[down] == PriceDown()
    && forall i | 0 <= i < |rules| && i != up && i != down :: PRICE_ALERTS !in rules[i].feedKeys
  }

  function PriceAlert(eventId: string, coin: string, change: real, at: int): SourceRow {
    SourceRow(eventId, None, PRICE_ALERTS, coin, Parsed, at, None, None, None, None, None, None, None,
              Some(change), None, None, None, None, None)
  }

  lemma NoFlowRules()
    ensures !Contains("price_alert_up", "outflow") && !Contains("price_alert_up", "inflow")
    ensures !Contains("price_alert_down", "outflow") && !Contains("price_alert_down", "inflow")
  {
    Lacks("price_alert_up", "outflow", 3);
    Lacks("price_alert_up", "inflow", 2);
    Lacks("price_alert_down", "outflow", 3);
    Lacks("price_alert_down", "inflow", 2);
  }

  lemma Lacks(s: string, part: string, k: nat)
    requires k < |part| && forall i | 0 <= i < |s| :: s[i] != part[k]
    ensures !Contains(s, part)
  {
    forall i | 0 <= i <= |s| - |part|
      ensures !(part <= s[i..])
    {
      assert s[i..][k] == s[i + k] != part[k];
    }
  }

  /** The price rules look at the sign of the change. */
  lemma PriceRulesApply(eventId: string, coin: string, change: real, at: int)
    ensures var row := PriceAlert(eventId, coin, change, at);
      (RuleApplies(PriceUp(), row) <==> change > 0.0) && (RuleApplies(PriceDown(), row) <==> change < 0.0)
  {
    hide Contains;
    NoFlowRules();
  }

  /** What a change weighs before decay and cap: five for each per cent, from five to forty. */
  function WeightOf(change: real): real {
    10.0 * Clamp(Abs(change) / 2.0, 0.5, 4.0)
  }

  lemma PriceRuleStrength(env: Env, key: string, side: Side, row: SourceRow)
    requires key == "price_alert_up" || key == "price_alert_down"
    requires row.priceChangePercent.Some? && row.rank.None?
    ensures Strength(env, PriceRule(key, side), row) == WeightOf(row.priceChangePercent.value)
  {
    var rule := PriceRule(key, side);
    assert SpotVolumes(rule, row).None?;
    assert Multiplier(env, rule, row) == Clamp(Abs(row.priceChangePercent.value) / 2.0, 0.5, 4.0);
    assert RankMultiplier(row) == 1.0;
  }

  function PriceRuleFor(change: real): Rule {
    if change > 0.0 then PriceUp() else PriceDown()
  }

  lemma PriceAlertWeighs(c: Context, eventId: string, change: real, at: int)
    requires Valid(c)
    ensures var row := PriceAlert(eventId, c.coin, change, at);
      var decay := Decay(c.env, c.window, c.asOf, row);
      Contribution(c.env, PriceRuleFor(change), row, decay) == Capped(18.0, WeightOf(change), decay)
  {
    hide Decay, WeightOf, Capped, Strength;
    PriceRuleStrength(c.env, PriceRuleFor(change).ruleKey, PriceRuleFor(change).side,
                      PriceAlert(eventId, c.coin, change, at));
  }

  lemma {:induction false} NothingCounts(env: Env, rules: seq<Rule>, window: Window, asOf: int, coin: string,
                                         row: SourceRow)
    requires window.halfLifeMinutes != 0.0 && forall i | 0 <= i < |rules| :: !Counts(env, window, asOf, rules[i], row)
    ensures EvidenceOfRow(env, rules, window, asOf, coin, row) == []
  {
    hide Counts;
    if rules != [] {
      NothingCounts(env, rules[..|rules| - 1], window, asOf, coin, row);
    }
  }

  lemma {:induction false} OneCounts(env: Env, rules: seq<Rule>, window: Window, asOf: int, coin: string,
                                     row: SourceRow, k: nat)
    requires window.halfLifeMinutes != 0.0 && k < |rules| && Counts(env, window, asOf, rules[k], row)
    requires forall i | 0 <= i < |rules| && i != k :: !Counts(env, window, asOf, rules[i], row)
    ensures EvidenceOfRow(env, rules, window, asOf, coin, row) == [RowEvidence(env, window, asOf, coin, rules[k], row)]
  {
    hide Counts, RowEvidence;
    var n := |rules| - 1;
    if k == n {
      NothingCounts(env, rules[..n], window, asOf, coin, row);
    } else {
      OneCounts(env, rules[..n], window, asOf, coin, row, k);
    }
  }

  /** A fresh price alert is evidence for the rule of its direction, and for no other. */
  lemma PriceAlertEvidence(c: Context, up: nat, down: nat, eventId: string, change: real, at: int, weight: real)
    requires Valid(c) && c.env.upper(c.coin) == c.coin && change != 0.0 && 0.0 < weight
    requires ReadPriceAlerts(c.config.rules, up, down)
    requires var row := PriceAlert(eventId, c.coin, change, at);
      Fresh(c.window, c.asOf, row) && Capped(18.0, WeightOf(change), Decay(c.env, c.window, c.asOf, row)) == weight
    ensures var row := PriceAlert(eventId, c.coin, change, at);
      var e := RowEvidence(c.env, c.window, c.asOf, c.coin, PriceRuleFor(change), row);
      BaseOne(c, row) == [e] && e.contribution == weight
  {
    hide Contribution, Decay, WeightOf, Capped, Fresh;
    var row := PriceAlert(eventId, c.coin, change, at);
    PriceRulesApply(eventId, c.coin, change, at);
    PriceAlertWeighs(c, eventId, change, at);
    assert row.(coin := c.coin) == row;
    OneCounts(c.env, c.config.rules, c.window, c.asOf, c.coin, row, if change > 0.0 then up else down);
  }

  lemma {:induction false} FewEvents(evidence: seq<Evidence>, key: string)
    ensures |GroupItems(evidence, key)| <= |evidence|
    ensures |EventIds(evidence)| <= |evidence|
  {
    if evidence != [] {
      FewEvents(evidence[..|evidence| - 1], key);
    }
  }

  lemma {:induction false} FewOccurrences(xs: seq<string>)
    ensures |FirstOccurrences(xs)| <= |xs|
  {
    if xs != [] {
      FewOccurrences(xs[..|xs| - 1]);
    }
  }

  lemma {:induction false} TooFewToBurst(c: Context, evidence: seq<Evidence>, keys: seq<string>)
    requires |evidence| < c.config.burst.threshold
    ensures BurstsFor(c.env, c.config, c.asOf, c.coin, evidence, keys) == []
  {
    if keys != [] {
      var key := keys[|keys| - 1];
      TooFewToBurst(c, evidence, keys[..|keys| - 1]);
      FewEvents(evidence, key);
      FewEvents(GroupItems(evidence, key), key);
      FewOccurrences(EventIds(GroupItems(evidence, key)));
    }
  }

  lemma TwoRowsBase(c: Context, first: SourceRow, second: SourceRow, e: Evidence, f: Evidence)
    requires Valid(c) && BaseOne(c, first) == [e] && BaseOne(c, second) == [f]
    ensures Base(c, [first, second]) == [e, f]
  {
    hide BaseOne, Base;
    var rows := [first, second];
    BaseSnoc(c, rows);
    BaseSnoc(c, rows[..1]);
    NoRows(c);
    assert rows[..1] == [first] && rows[..1][..0] == [];
  }

  /** Two rows with one piece of evidence each are too few to burst. */
  lemma TwoRows(c: Context, first: SourceRow, second: SourceRow, e: Evidence, f: Evidence)
    requires Valid(c) && c.config.burst.threshold >= 3
    requires BaseOne(c, first) == [e] && BaseOne(c, second) == [f]
    ensures All(c, [first, second]) == [e, f]
  {
    hide BaseOne, Base, All;
    var rows := [first, second];
    TwoRowsBase(c, first, second, e, f);
    TooFewToBurst(c, Base(c, rows), GroupKeys(Base(c, rows)));
    AllIsBaseAndBursts(c, rows);
  }
}
