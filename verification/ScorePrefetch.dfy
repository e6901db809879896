/**
 * Scoring looks at nothing but the rows the worker asks the repository for: no later rows, no rows
 * older than the widest window, no other coins, and, for evidence, no feed without a rule.
 */
module ScorePrefetch {
  import opened Wrappers
  import opened ScoreModel
  import opened ScoreEvidence
  import opened ScoreMonotone
  import opened ScoreOrder

  /** The `where` clauses of `getScoreSourceRows`; `feeds` is absent when feeds are not filtered. */
  datatype Query = Query(coins: set<string>, from: int, to: int, feeds: Option<set<string>>)

  predicate Matches(env: Env, q: Query, row: SourceRow) {
    && env.upper(row.coin) in q.coins
    && q.from <= row.receivedAt <= q.to
    && (q.feeds.Some? ==> row.feedKey in q.feeds.value)
  }

  /** The rows a query returns, each with the upper-case coin name; their order is not part of the promise. */
  function Fetch(env: Env, q: Query, rows: seq<SourceRow>): seq<SourceRow> {
    if rows == [] then []
    else
      var row := rows[|rows| - 1];
      Fetch(env, q, rows[..|rows| - 1]) + if Matches(env, q, row) then [row.(coin := env.upper(row.coin))] else []
  }

  function RuleFeeds(rules: seq<Rule>): set<string> {
    set rule, feed | rule in rules && feed in rule.feedKeys :: feed
  }

  ghost predicate UpperNames(env: Env, coins: seq<string>, names: set<string>) {
    forall coin <- coins :: env.upper(coin) in names
  }

  /** The query reaches back at least as far as every window, and up to the instant of scoring. */
  ghost predicate Reaches(q: Query, windows: seq<Window>, asOf: int) {
    asOf <= q.to && forall w <- windows :: q.from as real <= asOf as real - w.maxAgeMinutes * 60000.0
  }

  ghost predicate Covers(c: Context, q: Query) {
    Valid(c) && c.coin in q.coins && Reaches(q, [c.window], c.asOf)
  }

  lemma FreshIsFetched(c: Context, q: Query, row: SourceRow)
    requires Covers(c, q)
    requires c.env.upper(row.coin) == c.coin && Fresh(c.window, c.asOf, row)
    ensures q.from <= row.receivedAt <= q.to
  {
    assert c.window in [c.window];
    var age := (c.asOf - row.receivedAt) as real / 60000.0;
    assert age * 60000.0 == (c.asOf - row.receivedAt) as real;
    assert age * 60000.0 <= c.window.maxAgeMinutes * 60000.0;
  }

  lemma FetchSnoc(env: Env, q: Query, rows: seq<SourceRow>)
    requires rows != []
    ensures Fetch(env, q, rows) == Fetch(env, q, rows[..|rows| - 1]) +
              (if Matches(env, q, rows[|rows| - 1])
               then [rows[|rows| - 1].(coin := env.upper(rows[|rows| - 1].coin))] else [])
  {
  }

  /** Fetching does not change which rows are selected, provided feeds are kept or not filtered. */
  lemma {:induction false} SelectedFetch(c: Context, q: Query, rows: seq<SourceRow>)
    requires Covers(c, q)
    requires q.feeds.Some? ==> forall row <- rows :: SelectedOne(c, row) != [] ==> row.feedKey in q.feeds.value
    ensures Selected(c, Fetch(c.env, q, rows)) == Selected(c, rows)
  {
    if rows != [] {
      var n := |rows| - 1;
      var row := rows[n];
      SelectedFetch(c, q, rows[..n]);
      SelectedSnoc(c, rows);
      FetchSnoc(c.env, q, rows);
      if SelectedOne(c, row) != [] {
        FreshIsFetched(c, q, row);
      }
      var before := Fetch(c.env, q, rows[..n]);
      if Matches(c.env, q, row) {
        var named := row.(coin := c.env.upper(row.coin));
        assert c.env.upper(c.env.upper(row.coin)) == c.env.upper(row.coin);
        assert (before + [named])[..|before|] == before;
        SelectedSnoc(c, before + [named]);
        assert SelectedOne(c, named) == SelectedOne(c, row);
      } else {
        assert before + [] == before;
      }
    }
  }

  lemma {:induction false} NoRuleNoEvidence(c: Context, rules: seq<Rule>, row: SourceRow)
    requires Valid(c)
    requires row.feedKey !in RuleFeeds(rules)
    ensures EvidenceOfRow(c.env, rules, c.window, c.asOf, c.coin, row) == []
  {
    if rules != [] {
      var n := |rules| - 1;
      assert rules[n] in rules;
      assert forall rule <- rules[..n] :: rule in rules;
      NoRuleNoEvidence(c, rules[..n], row);
    }
  }

  /** Fetching changes no evidence, even when rows of feeds without a rule are left behind. */
  lemma {:induction false} BaseFetch(c: Context, q: Query, rows: seq<SourceRow>)
    requires Covers(c, q)
    requires q.feeds.Some? ==> RuleFeeds(c.config.rules) <= q.feeds.value
    ensures Base(c, Fetch(c.env, q, rows)) == Base(c, rows)
  {
    if rows != [] {
      var n := |rows| - 1;
      var row := rows[n];
      BaseFetch(c, q, rows[..n]);
      BaseSnoc(c, rows);
      FetchSnoc(c.env, q, rows);
      if SelectedOne(c, row) != [] {
        FreshIsFetched(c, q, row);
        if row.feedKey !in RuleFeeds(c.config.rules) {
          NoRuleNoEvidence(c, c.config.rules, row.(coin := c.coin));
        }
      }
      var before := Fetch(c.env, q, rows[..n]);
      if Matches(c.env, q, row) {
        var named := row.(coin := c.env.upper(row.coin));
        assert c.env.upper(c.env.upper(row.coin)) == c.env.upper(row.coin);
        assert (before + [named])[..|before|] == before;
        BaseSnoc(c, before + [named]);
        assert named.(coin := c.coin) == row.(coin := c.coin);
        assert BaseOne(c, named) == BaseOne(c, row);
      } else {
        assert before + [] == before;
        assert BaseOne(c, row) == [];
      }
    }
  }

  // ---- whole results ------------------------------------------------------------------------

  /** Everything but confidence and regime. */
  ghost predicate SameSides(a: ScoreResult, b: ScoreResult) {
    && a.ts == b.ts && a.windowMinutes == b.windowMinutes && a.coin == b.coin
    && a.bullScore == b.bullScore && a.bearScore == b.bearScore && a.netScore == b.netScore
    && a.eventCount == b.eventCount && a.evidenceCount == b.evidenceCount
  }

  /** The same, and the evidence and the dominant signal besides. */
  ghost predicate SameEvidence(a: ScoreResult, b: ScoreResult) {
    SameSides(a, b) && a.evidence == b.evidence && a.dominantSignal == b.dominantSignal
  }

  /** Rows matter to a summary only through the evidence, apart from confidence and regime. */
  lemma SameEvidenceSides(c: Context, xs: seq<SourceRow>, ys: seq<SourceRow>, evidence: seq<Evidence>)
    requires 0.0 < c.config.sideSaturation
    requires forall e <- evidence :: 0.0 <= e.contribution
    ensures SameEvidence(Summarize(c.config, c.window, c.asOf, c.coin, xs, evidence),
                         Summarize(c.config, c.window, c.asOf, c.coin, ys, evidence))
  {
  }

  lemma FetchedScore(c: Context, q: Query, rows: seq<SourceRow>)
    requires Covers(c, q) && q.feeds.None?
    ensures Score(c, Fetch(c.env, q, rows)) == Score(c, rows)
  {
    SelectedFetch(c, q, rows);
    ScoreIsSummary(c, rows);
    ScoreIsSummary(c, Fetch(c.env, q, rows));
  }

  lemma FeedFilteredScore(c: Context, q: Query, rows: seq<SourceRow>)
    requires Covers(c, q) && q.feeds.Some? && RuleFeeds(c.config.rules) <= q.feeds.value
    ensures SameEvidence(Score(c, Fetch(c.env, q, rows)), Score(c, rows))
  {
    var fetched := Fetch(c.env, q, rows);
    BaseFetch(c, q, rows);
    assert All(c, fetched) == All(c, rows);
    ScoreIsSummary(c, rows);
    ScoreIsSummary(c, fetched);
    SameEvidenceSides(c, Selected(c, fetched), Selected(c, rows), All(c, rows));
  }

  lemma {:induction false} FetchedWindowScores(env: Env, config: Config, windows: seq<Window>, asOf: int, coin: string,
                                               q: Query, rows: seq<SourceRow>)
    requires ValidEnv(env) && ValidConfig(config)
    requires forall w <- windows :: 0.0 < w.halfLifeMinutes
    requires coin in q.coins && Reaches(q, windows, asOf) && q.feeds.None?
    ensures WindowScores(env, config, windows, asOf, coin, CoinRows(env, coin, Fetch(env, q, rows))) ==
            WindowScores(env, config, windows, asOf, coin, CoinRows(env, coin, rows))
  {
    if windows != [] {
      var n := |windows| - 1;
      FetchedWindowScores(env, config, windows[..n], asOf, coin, q, rows);
      FetchedScore(Context(env, config, windows[n], asOf, coin), q, rows);
    }
  }

  /**
   * No look-ahead and a lossless time and coin filter: the results are the same, evidence,
   * confidence and dominant signal included.
   */
  lemma {:induction false} ScoresUseOnlyFetchedRows(env: Env, config: Config, asOf: int, coins: seq<string>, q: Query,
                                                    rows: seq<SourceRow>, minutes: Option<seq<int>>)
    requires ValidEnv(env) && ValidConfig(config)
    requires UpperNames(env, coins, q.coins) && Reaches(q, config.windows, asOf) && q.feeds.None?
    ensures Scores(env, config, asOf, coins, Fetch(env, q, rows), minutes) ==
            Scores(env, config, asOf, coins, rows, minutes)
  {
    if coins != [] {
      var n := |coins| - 1;
      var windows := SelectedWindows(config.windows, minutes);
      ScoresUseOnlyFetchedRows(env, config, asOf, coins[..n], q, rows, minutes);
      FetchedWindowScores(env, config, windows, asOf, env.upper(coins[n]), q, rows);
    }
  }

  ghost predicate AllSameSides(a: seq<ScoreResult>, b: seq<ScoreResult>) {
    |a| == |b| && forall i | 0 <= i < |a| :: SameSides(a[i], b[i])
  }

  ghost predicate AllSameEvidence(a: seq<ScoreResult>, b: seq<ScoreResult>) {
    |a| == |b| && forall i | 0 <= i < |a| :: SameEvidence(a[i], b[i])
  }

  lemma AllSameEvidenceConcat(a: seq<ScoreResult>, b: seq<ScoreResult>, c: seq<ScoreResult>, d: seq<ScoreResult>)
    requires AllSameEvidence(a, b) && AllSameEvidence(c, d)
    ensures AllSameEvidence(a + c, b + d)
  {
    hide SameEvidence;
  }

  lemma {:induction false} FeedFilteredWindowScores(env: Env, config: Config, windows: seq<Window>, asOf: int,
                                                    coin: string, q: Query, rows: seq<SourceRow>)
    requires ValidEnv(env) && ValidConfig(config)
    requires forall w <- windows :: 0.0 < w.halfLifeMinutes
    requires coin in q.coins && Reaches(q, windows, asOf)
    requires q.feeds.Some? && RuleFeeds(config.rules) <= q.feeds.value
    ensures AllSameEvidence(WindowScores(env, config, windows, asOf, coin, CoinRows(env, coin, Fetch(env, q, rows))),
                         WindowScores(env, config, windows, asOf, coin, CoinRows(env, coin, rows)))
  {
    if windows != [] {
      var n := |windows| - 1;
      var c, fetched := Context(env, config, windows[n], asOf, coin), Fetch(env, q, rows);
      FeedFilteredWindowScores(env, config, windows[..n], asOf, coin, q, rows);
      FeedFilteredScore(c, q, rows);
      WindowScoresUnfold(env, config, windows, asOf, coin, rows);
      WindowScoresUnfold(env, config, windows, asOf, coin, fetched);
      hide Score, SameEvidence, WindowScores, ValidEnv, ValidConfig, Fetch;
      var filtered, whole := Score(c, fetched), Score(c, rows);
      assert AllSameEvidence([filtered], [whole]);
      AllSameEvidenceConcat(
        WindowScores(env, config, windows[..n], asOf, coin, CoinRows(env, coin, fetched)),
        WindowScores(env, config, windows[..n], asOf, coin, CoinRows(env, coin, rows)), [filtered], [whole]);
    }
  }

  /** Filtering by the feeds of the rules as well changes no side score, count, evidence or dominant signal. */
  lemma {:induction false} FeedFilteredScores(env: Env, config: Config, asOf: int, coins: seq<string>, q: Query,
                                              rows: seq<SourceRow>, minutes: Option<seq<int>>)
    requires ValidEnv(env) && ValidConfig(config)
    requires UpperNames(env, coins, q.coins) && Reaches(q, config.windows, asOf)
    requires q.feeds.Some? && RuleFeeds(config.rules) <= q.feeds.value
    ensures AllSameEvidence(Scores(env, config, asOf, coins, Fetch(env, q, rows), minutes),
                            Scores(env, config, asOf, coins, rows, minutes))
  {
    if coins != [] {
      var n := |coins| - 1;
      var coin, windows := env.upper(coins[n]), SelectedWindows(config.windows, minutes);
      var fetched := Fetch(env, q, rows);
      FeedFilteredScores(env, config, asOf, coins[..n], q, rows, minutes);
      FeedFilteredWindowScores(env, config, windows, asOf, coin, q, rows);
      AllSameEvidenceConcat(
        Scores(env, config, asOf, coins[..n], fetched, minutes), Scores(env, config, asOf, coins[..n], rows, minutes),
        WindowScores(env, config, windows, asOf, coin, CoinRows(env, coin, fetched)),
        WindowScores(env, config, windows, asOf, coin, CoinRows(env, coin, rows)));
    }
  }

  /**
   * The worker's prefetch is lossless: whatever order the repository returns the rows of its query
   * in, the side scores and counts are those of scoring every stored row.
   */
  lemma PrefetchIsLossless(env: Env, config: Config, asOf: int, coins: seq<string>, q: Query, stored: seq<SourceRow>,
                           returned: seq<SourceRow>, minutes: Option<seq<int>>)
    requires ValidEnv(env) && ValidConfig(config)
    requires UpperNames(env, coins, q.coins) && Reaches(q, config.windows, asOf)
    requires q.feeds == Some(RuleFeeds(config.rules))
    requires multiset(returned) == multiset(Fetch(env, q, stored))
    ensures AllSameSides(Scores(env, config, asOf, coins, returned, minutes),
                         Scores(env, config, asOf, coins, stored, minutes))
  {
    ScoresIgnoreRowOrder(env, config, asOf, coins, returned, Fetch(env, q, stored), minutes);
    FeedFilteredScores(env, config, asOf, coins, q, stored, minutes);
  }
}
