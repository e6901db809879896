/** The order of the source rows matters to nothing but the dominant signal and the evidence list. */
module ScoreOrder {
  import opened Wrappers
  import opened Numbers
  import opened Sequences
  import opened ScoreModel
  import opened ScoreEvidence
  import opened ScoreMonotone

  /** The parts of a result that must not depend on row order. */
  ghost predicate SameScore(a: ScoreResult, b: ScoreResult) {
    && a.ts == b.ts && a.windowMinutes == b.windowMinutes && a.coin == b.coin
    && a.bullScore == b.bullScore && a.bearScore == b.bearScore && a.netScore == b.netScore
    && a.confidenceScore == b.confidenceScore && a.marketRegime == b.marketRegime
    && a.eventCount == b.eventCount && a.evidenceCount == b.evidenceCount
  }

  ghost predicate AllSameScores(a: seq<ScoreResult>, b: seq<ScoreResult>) {
    |a| == |b| && forall i | 0 <= i < |a| :: SameScore(a[i], b[i])
  }

  lemma BasePermutes(c: Context, xs: seq<SourceRow>, ys: seq<SourceRow>)
    requires Valid(c)
    requires multiset(xs) == multiset(ys)
    ensures multiset(Base(c, xs)) == multiset(Base(c, ys))
  {
    var one := (row: SourceRow) => if Valid(c) then BaseOne(c, row) else [];
    BaseIsFlatMap(c, xs, one);
    BaseIsFlatMap(c, ys, one);
    FlatMapPermutes(xs, ys, one);
  }

  lemma SelectedPermutes(c: Context, xs: seq<SourceRow>, ys: seq<SourceRow>)
    requires multiset(xs) == multiset(ys)
    ensures multiset(Selected(c, xs)) == multiset(Selected(c, ys))
  {
    var one := (row: SourceRow) => SelectedOne(c, row);
    SelectedIsFlatMap(c, xs, one);
    SelectedIsFlatMap(c, ys, one);
    FlatMapPermutes(xs, ys, one);
  }

  lemma {:induction false} AgesAreFlatMap(asOf: int, rows: seq<SourceRow>, one: SourceRow -> seq<real>)
    requires forall row :: one(row) == [AgeMinutes(asOf, row)]
    ensures Ages(asOf, rows) == FlatMap(rows, one)
  {
    if rows != [] {
      AgesAreFlatMap(asOf, rows[..|rows| - 1], one);
    }
  }

  lemma MedianPermutes(window: Window, asOf: int, xs: seq<SourceRow>, ys: seq<SourceRow>)
    requires multiset(xs) == multiset(ys)
    ensures MedianAge(window, asOf, xs) == MedianAge(window, asOf, ys)
  {
    var one := (row: SourceRow) => [AgeMinutes(asOf, row)];
    AgesAreFlatMap(asOf, xs, one);
    AgesAreFlatMap(asOf, ys, one);
    FlatMapPermutes(xs, ys, one);
    SortIgnoresOrder(Ages(asOf, xs), Ages(asOf, ys));
  }

  lemma NeedsSamplePermutes(xs: seq<SourceRow>, ys: seq<SourceRow>)
    requires multiset(xs) == multiset(ys)
    ensures NeedsSample(xs) == NeedsSample(ys)
  {
    forall row: SourceRow
      ensures row in xs <==> row in ys
    {
      assert row in xs <==> row in multiset(xs);
      assert row in ys <==> row in multiset(ys);
    }
  }

  /** Two evidence lists that hold the same items, and the same number of them. */
  ghost predicate SameItems(a: seq<Evidence>, b: seq<Evidence>) {
    |a| == |b| && forall e :: e in a <==> e in b
  }

  lemma PermutedItems(a: seq<Evidence>, b: seq<Evidence>)
    requires multiset(a) == multiset(b)
    ensures SameItems(a, b)
  {
    assert |a| == |multiset(a)| && |b| == |multiset(b)|;
    forall e: Evidence
      ensures e in a <==> e in b
    {
      assert e in a <==> e in multiset(a);
      assert e in b <==> e in multiset(b);
    }
  }

  lemma ItemsCovered(a: seq<Evidence>, b: seq<Evidence>)
    requires SameItems(a, b)
    ensures forall e <- a :: Covered(e, b)
  {
    forall e | e in a
      ensures Covered(e, b)
    {
      assert e in b && SameTags(e, e);
    }
  }

  lemma SameGroups(a: seq<Evidence>, b: seq<Evidence>)
    requires SameItems(a, b)
    ensures multiset(GroupKeys(a)) == multiset(GroupKeys(b))
    ensures forall key :: |GroupEvents(a, key)| == |GroupEvents(b, key)|
  {
    ItemsCovered(a, b);
    ItemsCovered(b, a);
    GroupsShrink(a, b);
    GroupsShrink(b, a);
  }

  // ---- burst items, up to the order of the events they name ---------------------------------

  lemma {:induction false} BurstCount(c: Context, evidence: seq<Evidence>, keys: seq<string>, weight: string -> real)
    requires forall key :: weight(key) == if Bursting(c.config, evidence, key) then 1.0 else 0.0
    ensures |BurstsFor(c.env, c.config, c.asOf, c.coin, evidence, keys)| as real == SumBy(keys, weight)
  {
    if keys != [] {
      BurstCount(c, evidence, keys[..|keys| - 1], weight);
    }
  }

  lemma SameBurstCount(c: Context, a: seq<Evidence>, b: seq<Evidence>)
    requires Valid(c) && SameItems(a, b)
    ensures |Bursts(c, a)| == |Bursts(c, b)|
  {
    SameGroups(a, b);
    var f := (key: string) => if Bursting(c.config, a, key) then 1.0 else 0.0;
    var g := (key: string) => if Bursting(c.config, b, key) then 1.0 else 0.0;
    BurstCount(c, a, GroupKeys(a), f);
    BurstCount(c, b, GroupKeys(b), g);
    SumByMonotone(GroupKeys(a), f, GroupKeys(b), g);
    SumByMonotone(GroupKeys(b), g, GroupKeys(a), f);
  }

  /** Every burst item on one side has a counterpart on the other with the same weight, rule, feed and exchange. */
  lemma BurstCounterpart(c: Context, a: seq<Evidence>, b: seq<Evidence>, e: Evidence) returns (other: Evidence)
    requires Valid(c) && SameItems(a, b)
    requires e in Bursts(c, a)
    ensures other in Bursts(c, b) && other.contribution == e.contribution
    ensures other.ruleKey == e.ruleKey && other.feedKey == e.feedKey && other.exchange == e.exchange
    ensures e.exchange.None?
    ensures forall id <- e.sourceEventIds :: exists x <- a :: id in x.sourceEventIds || x.eventId == Some(id)
  {
    SameGroups(a, b);
    BurstsForMember(c, a, GroupKeys(a), e);
    var key :| key in GroupKeys(a) && IsBurst(c, a, key, e);
    assert key in multiset(GroupKeys(a));
    assert key in multiset(GroupKeys(b));
    other := BurstItem(c.env, c.config, c.asOf, c.coin, key, GroupEvents(b, key));
    assert IsBurst(c, b, key, other);
    BurstsForMember(c, b, GroupKeys(b), other);
    forall id | id in e.sourceEventIds
      ensures exists x <- a :: id in x.sourceEventIds || x.eventId == Some(id)
    {
      GroupEventsMember(a, key, id);
      var x :| x in a && Names(x, key, id);
    }
  }

  ghost predicate SelfNaming(evidence: seq<Evidence>) {
    forall e <- evidence :: e.sourceEventIds == (if e.eventId.Some? then [e.eventId.value] else [])
  }

  lemma {:induction false} RowSelfNaming(env: Env, rules: seq<Rule>, window: Window, asOf: int, coin: string,
                                         row: SourceRow)
    requires window.halfLifeMinutes != 0.0
    ensures SelfNaming(EvidenceOfRow(env, rules, window, asOf, coin, row))
  {
    if rules != [] {
      RowSelfNaming(env, rules[..|rules| - 1], window, asOf, coin, row);
    }
  }

  lemma BaseSelfNaming(c: Context, rows: seq<SourceRow>)
    requires Valid(c)
    ensures SelfNaming(Base(c, rows))
  {
    forall e | e in Base(c, rows)
      ensures e.sourceEventIds == if e.eventId.Some? then [e.eventId.value] else []
    {
      BaseMember(c, rows, e);
      var row :| row in rows && e in BaseOne(c, row);
      RowSelfNaming(c.env, c.config.rules, c.window, c.asOf, c.coin, row.(coin := c.coin));
    }
  }

  ghost predicate SameDiversity(a: seq<Evidence>, b: seq<Evidence>) {
    && Feeds(a) <= Feeds(b) && RuleKeys(a) <= RuleKeys(b)
    && Exchanges(a) <= Exchanges(b) && SourceEvents(a) <= SourceEvents(b)
  }

  /** Feeds, rules, exchanges and events named by the evidence with its bursts. */
  lemma DiversityCovered(c: Context, a: seq<Evidence>, b: seq<Evidence>)
    requires Valid(c) && SameItems(a, b) && SelfNaming(a)
    ensures SameDiversity(a + Bursts(c, a), b + Bursts(c, b))
  {
    var x, y := a + Bursts(c, a), b + Bursts(c, b);
    forall e | e in x
      ensures e.feedKey in Feeds(y) && e.ruleKey in RuleKeys(y)
      ensures e.exchange.Some? && e.exchange.value != "" ==> e.exchange.value in Exchanges(y)
      ensures forall id <- e.sourceEventIds :: id in SourceEvents(y)
    {
      if e in a {
        assert e in y;
      } else {
        var other := BurstCounterpart(c, a, b, e);
        assert other in y;
        forall id | id in e.sourceEventIds
          ensures id in SourceEvents(y)
        {
          var z :| z in a && (id in z.sourceEventIds || z.eventId == Some(id));
          assert z in y && id in z.sourceEventIds;
        }
      }
    }
  }

  lemma ScorePermutes(c: Context, xs: seq<SourceRow>, ys: seq<SourceRow>)
    requires Valid(c)
    requires multiset(xs) == multiset(ys)
    ensures SameScore(Score(c, xs), Score(c, ys))
  {
    BasePermutes(c, xs, ys);
    PermutedItems(Base(c, xs), Base(c, ys));
    SelectedPermutes(c, xs, ys);
    MedianPermutes(c.window, c.asOf, Selected(c, xs), Selected(c, ys));
    NeedsSamplePermutes(Selected(c, xs), Selected(c, ys));
    SameBurstCount(c, Base(c, xs), Base(c, ys));
    BaseSelfNaming(c, xs);
    BaseSelfNaming(c, ys);
    DiversityCovered(c, Base(c, xs), Base(c, ys));
    DiversityCovered(c, Base(c, ys), Base(c, xs));
    ScoreFalls(c, c, xs, ys);
    ScoreFalls(c, c, ys, xs);
    ScoreIsSummary(c, xs);
    ScoreIsSummary(c, ys);
    SummariesAgree(c, Selected(c, xs), Selected(c, ys), All(c, xs), All(c, ys));
  }

  lemma ConfidencesAgree(c: Context, xs: seq<SourceRow>, ys: seq<SourceRow>, a: seq<Evidence>, b: seq<Evidence>,
                         bull: real, bear: real)
    requires |a| == |b|
    requires Feeds(a) == Feeds(b) && RuleKeys(a) == RuleKeys(b) && Exchanges(a) == Exchanges(b)
    requires MedianAge(c.window, c.asOf, xs) == MedianAge(c.window, c.asOf, ys)
    requires NeedsSample(xs) == NeedsSample(ys)
    ensures ConfidenceScore(c.config, c.window, c.asOf, xs, a, bull, bear) ==
            ConfidenceScore(c.config, c.window, c.asOf, ys, b, bull, bear)
  {
    hide MedianAge, NeedsSample, Feeds, RuleKeys, Exchanges, HasConflict, ConflictRatio, Round2, Clamp;
  }

  lemma SummariesAgree(c: Context, xs: seq<SourceRow>, ys: seq<SourceRow>, a: seq<Evidence>, b: seq<Evidence>)
    requires 0.0 < c.config.sideSaturation
    requires forall e <- a :: 0.0 <= e.contribution
    requires forall e <- b :: 0.0 <= e.contribution
    requires |a| == |b| && SameDiversity(a, b) && SameDiversity(b, a)
    requires MedianAge(c.window, c.asOf, xs) == MedianAge(c.window, c.asOf, ys)
    requires NeedsSample(xs) == NeedsSample(ys)
    requires BullScore(c.config, a) == BullScore(c.config, b)
    requires BearScore(c.config, a) == BearScore(c.config, b)
    ensures SameScore(Summarize(c.config, c.window, c.asOf, c.coin, xs, a),
                      Summarize(c.config, c.window, c.asOf, c.coin, ys, b))
  {
    hide ConfidenceScore, MedianAge, NeedsSample, Feeds, RuleKeys, Exchanges, SourceEvents, BullScore, BearScore,
      RegimeForScores, DominantRule, Round2;
    assert Feeds(a) == Feeds(b) && RuleKeys(a) == RuleKeys(b) && Exchanges(a) == Exchanges(b) &&
           SourceEvents(a) == SourceEvents(b);
    ConfidencesAgree(c, xs, ys, a, b, BullScore(c.config, a), BearScore(c.config, a));
  }

  lemma {:induction false} WindowScoresPermute(env: Env, config: Config, windows: seq<Window>, asOf: int, coin: string,
                                               xs: seq<SourceRow>, ys: seq<SourceRow>)
    requires ValidEnv(env) && ValidConfig(config)
    requires forall w <- windows :: 0.0 < w.halfLifeMinutes
    requires multiset(xs) == multiset(ys)
    ensures AllSameScores(WindowScores(env, config, windows, asOf, coin, CoinRows(env, coin, xs)),
                          WindowScores(env, config, windows, asOf, coin, CoinRows(env, coin, ys)))
  {
    if windows != [] {
      var n := |windows| - 1;
      var c := Context(env, config, windows[n], asOf, coin);
      WindowScoresPermute(env, config, windows[..n], asOf, coin, xs, ys);
      ScorePermutes(c, xs, ys);
      WindowScoresUnfold(env, config, windows, asOf, coin, xs);
      WindowScoresUnfold(env, config, windows, asOf, coin, ys);
      hide Score, SameScore, WindowScores, ValidEnv, ValidConfig;
      assert AllSameScores([Score(c, xs)], [Score(c, ys)]);
      AllSameConcat(
        WindowScores(env, config, windows[..n], asOf, coin, CoinRows(env, coin, xs)),
        WindowScores(env, config, windows[..n], asOf, coin, CoinRows(env, coin, ys)), [Score(c, xs)], [Score(c, ys)]);
    }
  }

  lemma AllSameConcat(a: seq<ScoreResult>, b: seq<ScoreResult>, c: seq<ScoreResult>, d: seq<ScoreResult>)
    requires AllSameScores(a, b) && AllSameScores(c, d)
    ensures AllSameScores(a + c, b + d)
  {
  }

  /** Permuting the source rows changes no score, confidence, regime or count of any result. */
  lemma {:induction false} ScoresIgnoreRowOrder(env: Env, config: Config, asOf: int, coins: seq<string>,
                                                xs: seq<SourceRow>, ys: seq<SourceRow>, minutes: Option<seq<int>>)
    requires ValidEnv(env) && ValidConfig(config)
    requires multiset(xs) == multiset(ys)
    ensures AllSameScores(Scores(env, config, asOf, coins, xs, minutes), Scores(env, config, asOf, coins, ys, minutes))
  {
    if coins != [] {
      var n := |coins| - 1;
      var coin, windows := env.upper(coins[n]), SelectedWindows(config.windows, minutes);
      ScoresIgnoreRowOrder(env, config, asOf, coins[..n], xs, ys, minutes);
      WindowScoresPermute(env, config, windows, asOf, coin, xs, ys);
      AllSameConcat(
        Scores(env, config, asOf, coins[..n], xs, minutes), Scores(env, config, asOf, coins[..n], ys, minutes),
        WindowScores(env, config, windows, asOf, coin, CoinRows(env, coin, xs)),
        WindowScores(env, config, windows, asOf, coin, CoinRows(env, coin, ys)));
    }
  }
}
