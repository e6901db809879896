/**
 * The loops of apps/server/src/scoring/scoreEngine.ts: each method fills its arrays and maps as
 * the source does and is tied to the functions of ScoreModel.
 */
module ScoreEngine {
  import opened Wrappers
  import opened ScoreModel

  /** A JavaScript `Map` from strings to arrays: its keys in insertion order, and its entries. */
  datatype Groups<T> = Groups(order: seq<string>, items: map<string, seq<T>>)
  {
    function Get(key: string): seq<T> {
      if key in items then items[key] else []
    }

    /** `set(key, [...(get(key) ?? []), item])` */
    function Add(key: string, item: T): (after: Groups<T>)
      ensures after.order == if key in items then order else order + [key]
      ensures after.Get(key) == Get(key) + [item]
      ensures forall other | other != key :: after.Get(other) == Get(other)
      ensures after.items.Keys == items.Keys + {key}
    {
      Groups(if key in items then order else order + [key], items[key := Get(key) + [item]])
    }
  }

  method GroupRowsByCoin(env: Env, rows: seq<SourceRow>) returns (grouped: map<string, seq<SourceRow>>)
    ensures forall coin :: (if coin in grouped then grouped[coin] else []) == CoinRows(env, coin, rows)
  {
    grouped := map[];
    for i := 0 to |rows|
      invariant forall coin :: (if coin in grouped then grouped[coin] else []) == CoinRows(env, coin, rows[..i])
    {
      var coin := env.upper(rows[i].coin);
      var existing := if coin in grouped then grouped[coin] else [];
      grouped := grouped[coin := existing + [rows[i].(coin := coin)]];
      assert rows[..i + 1][..i] == rows[..i];
    }
    assert rows[..|rows|] == rows;
  }

  lemma RuleStep(env: Env, rules: seq<Rule>, window: Window, asOf: int, coin: string, row: SourceRow, j: nat)
    requires window.halfLifeMinutes != 0.0 && j < |rules|
    ensures EvidenceOfRow(env, rules[..j + 1], window, asOf, coin, row) ==
            EvidenceOfRow(env, rules[..j], window, asOf, coin, row) +
            if Counts(env, window, asOf, rules[j], row)
            then [RowEvidence(env, window, asOf, coin, rules[j], row)] else []
  {
    assert rules[..j + 1][..j] == rules[..j];
  }

  lemma RowStep(env: Env, rules: seq<Rule>, window: Window, asOf: int, coin: string, rows: seq<SourceRow>, i: nat)
    requires window.halfLifeMinutes != 0.0 && i < |rows|
    ensures EvidenceOfRows(env, rules, window, asOf, coin, rows[..i + 1]) ==
            EvidenceOfRows(env, rules, window, asOf, coin, rows[..i]) +
              EvidenceOfRow(env, rules, window, asOf, coin, rows[i])
  {
    assert rows[..i + 1][..i] == rows[..i];
  }

  /** The inner loop of `buildEvidence`, which pushes the evidence of one row. */
  method PushRowEvidence(env: Env, rules: seq<Rule>, window: Window, asOf: int, coin: string, row: SourceRow,
                         before: seq<Evidence>)
    returns (evidence: seq<Evidence>)
    requires window.halfLifeMinutes != 0.0
    ensures evidence == before + EvidenceOfRow(env, rules, window, asOf, coin, row)
  {
    evidence := before;
    for j := 0 to |rules|
      invariant evidence == before + EvidenceOfRow(env, rules[..j], window, asOf, coin, row)
    {
      RuleStep(env, rules, window, asOf, coin, row, j);
      if !Counts(env, window, asOf, rules[j], row) {
        continue;
      }
      evidence := evidence + [RowEvidence(env, window, asOf, coin, rules[j], row)];
    }
    assert rules[..|rules|] == rules;
  }

  method BuildEvidence(env: Env, config: Config, window: Window, asOf: int, coin: string, rows: seq<SourceRow>)
    returns (evidence: seq<Evidence>)
    requires window.halfLifeMinutes != 0.0
    ensures evidence == EvidenceOfRows(env, config.rules, window, asOf, coin, rows)
  {
    evidence := [];
    for i := 0 to |rows|
      invariant evidence == EvidenceOfRows(env, config.rules, window, asOf, coin, rows[..i])
    {
      RowStep(env, config.rules, window, asOf, coin, rows, i);
      evidence := PushRowEvidence(env, config.rules, window, asOf, coin, rows[i], evidence);
    }
    assert rows[..|rows|] == rows;
  }

  ghost predicate Represents(grouped: Groups<Evidence>, evidence: seq<Evidence>) {
    && grouped.order == GroupKeys(evidence)
    && grouped.items.Keys == (set key | key in grouped.order)
    && forall key :: grouped.Get(key) == GroupItems(evidence, key)
  }

  function AddItem(grouped: Groups<Evidence>, item: Evidence): Groups<Evidence> {
    if Grouped(item) then grouped.Add(GroupKey(item), item) else grouped
  }

  lemma GroupStepItems(grouped: Groups<Evidence>, evidence: seq<Evidence>, key: string)
    requires evidence != [] && grouped.Get(key) == GroupItems(evidence[..|evidence| - 1], key)
    ensures AddItem(grouped, evidence[|evidence| - 1]).Get(key) == GroupItems(evidence, key)
  {
    hide GroupKey;
  }

  lemma GroupStep(grouped: Groups<Evidence>, evidence: seq<Evidence>)
    requires evidence != [] && Represents(grouped, evidence[..|evidence| - 1])
    ensures Represents(AddItem(grouped, evidence[|evidence| - 1]), evidence)
  {
    hide GroupKey, GroupItems;
    forall key
      ensures AddItem(grouped, evidence[|evidence| - 1]).Get(key) == GroupItems(evidence, key)
    {
      GroupStepItems(grouped, evidence, key);
    }
  }

  /** The first loop of `buildBurstEvidence`. */
  method GroupEvidence(evidence: seq<Evidence>) returns (grouped: Groups<Evidence>)
    ensures Represents(grouped, evidence)
  {
    hide GroupKeys, GroupItems, GroupKey, Represents;
    grouped := Groups([], map[]);
    EmptyGroups();
    assert evidence[..0] == [];
    for i := 0 to |evidence|
      invariant Represents(grouped, evidence[..i])
    {
      assert evidence[..i + 1][..i] == evidence[..i];
      GroupStep(grouped, evidence[..i + 1]);
      grouped := AddItem(grouped, evidence[i]);
    }
    assert evidence[..|evidence|] == evidence;
  }

  lemma EmptyGroups()
    ensures Represents(Groups([], map[]), [])
  {
  }

  lemma BurstStep(env: Env, config: Config, asOf: int, coin: string, evidence: seq<Evidence>, keys: seq<string>, i: nat)
    requires i < |keys|
    ensures var events := UniqueEvents(GroupItems(evidence, keys[i]));
      BurstsFor(env, config, asOf, coin, evidence, keys[..i + 1]) ==
      BurstsFor(env, config, asOf, coin, evidence, keys[..i]) +
      if |events| < config.burst.threshold then [] else [BurstItem(env, config, asOf, coin, keys[i], events)]
  {
    assert keys[..i + 1][..i] == keys[..i];
  }

  method BuildBurstEvidence(env: Env, config: Config, asOf: int, coin: string, evidence: seq<Evidence>)
    returns (bursts: seq<Evidence>)
    ensures bursts == BurstEvidence(env, config, asOf, coin, evidence)
  {
    var grouped := GroupEvidence(evidence);
    var order := grouped.order;
    bursts := [];
    for i := 0 to |order|
      invariant bursts == BurstsFor(env, config, asOf, coin, evidence, order[..i])
    {
      BurstStep(env, config, asOf, coin, evidence, order, i);
      var events := UniqueEvents(grouped.Get(order[i]));
      if |events| < config.burst.threshold {
        continue;
      }
      bursts := bursts + [BurstItem(env, config, asOf, coin, order[i], events)];
    }
    assert order[..|order|] == order;
  }

  method ScoreWindow(env: Env, config: Config, window: Window, asOf: int, coin: string, rows: seq<SourceRow>)
    returns (result: ScoreResult)
    requires ValidEnv(env) && ValidConfig(config)
    requires 0.0 < window.halfLifeMinutes
    ensures result == ScoreCoinWindow(env, config, window, asOf, coin, rows)
  {
    var freshRows := FreshRows(window, asOf, rows);
    var evidence := BuildEvidence(env, config, window, asOf, coin, freshRows);
    var bursts := BuildBurstEvidence(env, config, asOf, coin, evidence);
    evidence := evidence + bursts;
    AllEvidenceNonNegative(env, config, window, asOf, coin, rows);
    result := Summarize(config, window, asOf, coin, freshRows, evidence);
  }

  lemma {:induction false} WindowScoresAt(env: Env, config: Config, windows: seq<Window>, asOf: int, coin: string,
                                          rows: seq<SourceRow>, j: nat)
    requires ValidEnv(env) && ValidConfig(config)
    requires forall w <- windows :: 0.0 < w.halfLifeMinutes
    ensures |WindowScores(env, config, windows, asOf, coin, rows)| == |windows|
    ensures j < |windows| ==>
              WindowScores(env, config, windows, asOf, coin, rows)[j] ==
                ScoreCoinWindow(env, config, windows[j], asOf, coin, rows)
  {
    hide ScoreCoinWindow, ValidEnv, ValidConfig;
    if windows != [] {
      WindowScoresAt(env, config, windows[..|windows| - 1], asOf, coin, rows, j);
    }
  }

  method ScoreWindowAt(env: Env, config: Config, windows: seq<Window>, asOf: int, coin: string, rows: seq<SourceRow>,
                       j: nat)
    returns (result: ScoreResult)
    requires ValidEnv(env) && ValidConfig(config)
    requires forall w <- windows :: 0.0 < w.halfLifeMinutes
    requires j < |windows|
    ensures |WindowScores(env, config, windows, asOf, coin, rows)| == |windows|
    ensures result == WindowScores(env, config, windows, asOf, coin, rows)[j]
  {
    hide ScoreCoinWindow, ValidEnv, ValidConfig;
    WindowScoresAt(env, config, windows, asOf, coin, rows, j);
    result := ScoreWindow(env, config, windows[j], asOf, coin, rows);
  }

  /** The inner loop of `calculateScores`, which pushes one result per window. */
  method PushWindowScores(env: Env, config: Config, windows: seq<Window>, asOf: int, coin: string, rows: seq<SourceRow>,
                          before: seq<ScoreResult>)
    returns (results: seq<ScoreResult>)
    requires ValidEnv(env) && ValidConfig(config)
    requires forall w <- windows :: 0.0 < w.halfLifeMinutes
    ensures results == before + WindowScores(env, config, windows, asOf, coin, rows)
  {
    hide ScoreCoinWindow;
    results := before;
    ghost var expected := WindowScores(env, config, windows, asOf, coin, rows);
    WindowScoresAt(env, config, windows, asOf, coin, rows, 0);
    for j := 0 to |windows|
      invariant results == before + expected[..j]
    {
      var result := ScoreWindowAt(env, config, windows, asOf, coin, rows, j);
      results := results + [result];
    }
  }

  method CalculateScores(env: Env, config: Config, asOf: int, coins: seq<string>, sourceRows: seq<SourceRow>,
                         minutes: Option<seq<int>>)
    returns (results: seq<ScoreResult>)
    requires ValidEnv(env) && ValidConfig(config)
    ensures results == Scores(env, config, asOf, coins, sourceRows, minutes)
  {
    hide WindowScores, CoinRows, ScoreCoinWindow;
    var windows := SelectedWindows(config.windows, minutes);
    var rowsByCoin := GroupRowsByCoin(env, sourceRows);
    results := [];
    for i := 0 to |coins|
      invariant results == Scores(env, config, asOf, coins[..i], sourceRows, minutes)
    {
      var coin := env.upper(coins[i]);
      var rows := if coin in rowsByCoin then rowsByCoin[coin] else [];
      assert coins[..i + 1][..i] == coins[..i];
      results := PushWindowScores(env, config, windows, asOf, coin, rows, results);
    }
    assert coins[..|coins|] == coins;
  }
}
