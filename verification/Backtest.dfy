/**
 * Backtest aggregation: apps/server/src/backtest/metrics.ts, and the bucket expression of
 * apps/server/src/db/backtestRepository.ts that must agree with it.
 */
module Backtest {
  import opened Wrappers
  import opened Sequences

  datatype Sample = Sample(
    status: string, score: real, confidenceScore: real, directionalReturnPct: Option<real>,
    maxAdverseMovePct: Option<real>)

  datatype Summary = Summary(
    totalCount: nat, sampleCount: nat, pendingCount: nat, missingLabelCount: nat,
    averageForwardReturnPct: Option<real>, medianForwardReturnPct: Option<real>,
    winRate: Option<real>, lossRate: Option<real>,
    averageMaxAdverseMovePct: Option<real>, medianMaxAdverseMovePct: Option<real>,
    averageScore: Option<real>, averageConfidenceScore: Option<real>,
    statusCounts: map<string, nat>)

  datatype Bucket = Bucket(bucketStart: int, bucketEnd: int, summary: Summary)

  // ---- bucket starts ------------------------------------------------------------------------

  function FloorDiv(value: real, size: int): int
    requires size > 0
  {
    (value / size as real).Floor
  }

  /** `bucketStartFor`. */
  function BucketStartFor(value: real, size: int): int
    requires size > 0
  {
    if value >= 100.0 then (if 100 - size > 0 then 100 - size else 0)
    else if value <= 0.0 then 0
    else FloorDiv(value, size) * size
  }

  /** The query's `least(100 - size, greatest(0, floor(value / size) * size))`. */
  function SqlBucketStart(value: real, size: int): int
    requires size > 0
  {
    var raw := FloorDiv(value, size) * size;
    var low := if raw >= 0 then raw else 0;
    if 100 - size <= low then 100 - size else low
  }

  lemma FloorDivBounds(value: real, size: int)
    requires size > 0
    ensures (FloorDiv(value, size) * size) as real <= value < (FloorDiv(value, size) * size + size) as real
  {
    var k, q := FloorDiv(value, size), value / size as real;
    assert k as real <= q < (k + 1) as real;
    Scale(k as real, q, size as real);
    ScaleStrictly(q, (k + 1) as real, size as real);
    assert (k * size) as real == k as real * size as real;
    assert ((k + 1) * size) as real == (k + 1) as real * size as real;
  }

  lemma Scale(a: real, b: real, c: real)
    requires a <= b && c > 0.0
    ensures a * c <= b * c
  {
  }

  lemma ScaleStrictly(a: real, b: real, c: real)
    requires a < b && c > 0.0
    ensures a * c < b * c
  {
  }

  /** A multiple below the end of a bucket is at most its start. */
  lemma MultiplesApart(j: int, k: int, size: int)
    requires size > 0 && j * size < k * size + size
    ensures j * size <= k * size
  {
    assert (k + 1) * size == k * size + size;
    if k < j {
      Grows(k + 1, j, size);
    } else {
      Grows(j, k, size);
    }
  }

  lemma Grows(a: int, b: int, c: int)
    requires a <= b && c > 0
    ensures a * c <= b * c
  {
  }

  lemma TopBounds(size: int)
    requires size > 0
    ensures 100 / size * size <= 100 < 100 / size * size + size
    ensures 0 < 100 / size * size <==> size <= 100
    ensures 100 / size * size == 100 <==> 100 % size == 0
  {
    assert 100 == 100 / size * size + 100 % size;
  }

  /** `raw` is the bucket of `value` and `top` the last bucket start up to 100, both multiples of the size. */
  lemma StartsCompared(value: real, size: int, raw: int, top: int)
    requires size > 0 && raw == FloorDiv(value, size) * size && top == 100 / size * size
    requires raw as real <= value < (raw + size) as real
    requires top <= 100 < top + size
    requires raw < top + size ==> raw <= top
    requires top < raw + size ==> top <= raw
    requires 0 < raw + size ==> 0 <= raw
    requires raw < top ==> raw + size <= top
    requires 0 < top <==> size <= 100
    requires top == 100 <==> 100 % size == 0
    ensures BucketStartFor(value, size) == SqlBucketStart(value, size) <==>
            size <= 100 && (100 % size == 0 || value < top as real || value >= 100.0)
  {
    hide FloorDiv;
  }

  /** The two forms agree on a score exactly when it is outside the ragged last bucket. */
  lemma StartsAgreeAt(value: real, size: int)
    requires size > 0
    ensures BucketStartFor(value, size) == SqlBucketStart(value, size) <==>
            size <= 100 && (100 % size == 0 || value < (100 / size * size) as real || value >= 100.0)
  {
    hide BucketStartFor, SqlBucketStart;
    var j, k := FloorDiv(value, size), 100 / size;
    hide FloorDiv;
    FloorDivBounds(value, size);
    TopBounds(size);
    if j * size < k * size + size {
      MultiplesApart(j, k, size);
    }
    if k * size < j * size + size {
      MultiplesApart(k, j, size);
    }
    if 0 < j * size + size {
      MultiplesApart(0, j, size);
    }
    if j * size < k * size {
      assert (k - 1) * size + size == k * size;
      MultiplesApart(j, k - 1, size);
    }
    StartsCompared(value, size, j * size, k * size);
  }

  /** The TypeScript and the SQL bucket start agree on every score exactly when the size divides 100. */
  lemma StartsAgree(size: int)
    requires size > 0
    ensures (forall value: real :: BucketStartFor(value, size) == SqlBucketStart(value, size)) <==> 100 % size == 0
  {
    forall value: real {
      StartsAgreeAt(value, size);
    }
    if 100 % size != 0 {
      StartsAgreeAt((100 / size * size) as real, size);
    }
  }

  // ---- printed ranges -----------------------------------------------------------------------

  /** The end a bucket is printed with. */
  function BucketEndFor(start: int, size: int): int {
    if start + size < 100 then start + size else 100
  }

  /** The printed range holds its scores: it is closed at 100 and half-open elsewhere. */
  lemma RangeHolds(value: real, size: int)
    requires size > 0 && 0.0 <= value <= 100.0
    ensures var start := BucketStartFor(value, size);
      var end := BucketEndFor(start, size);
      0 <= start && start as real <= value && (value < end as real || value == 100.0 == end as real)
  {
    var j := FloorDiv(value, size);
    FloorDivBounds(value, size);
    if 0.0 < value < 100.0 {
      hide FloorDiv;
      MultiplesApart(0, j, size);
    }
  }

  ghost predicate RangesApart(size: int)
    requires size > 0
  {
    forall v: real, w: real | 0.0 <= v <= 100.0 && 0.0 <= w <= 100.0 &&
      BucketStartFor(v, size) < BucketStartFor(w, size) ::
      BucketEndFor(BucketStartFor(v, size), size) <= BucketStartFor(w, size)
  }

  lemma StartIsMultiple(value: real, size: int) returns (k: int)
    requires size > 0 && (size >= 100 || 100 % size == 0)
    ensures BucketStartFor(value, size) == k * size
  {
    k := if value >= 100.0 then (if size < 100 then 100 / size - 1 else 0) else if value <= 0.0 then 0
      else FloorDiv(value, size);
    if value >= 100.0 && size < 100 {
      assert 100 == 100 / size * size + 100 % size;
      assert (100 / size - 1) * size == 100 / size * size - size;
    }
  }

  lemma StartOfMultiple(k: int, size: int)
    requires size > 0 && 0 <= k && k * size < 100
    ensures BucketStartFor((k * size) as real, size) == k * size
  {
    assert (k * size) as real == k as real * size as real;
    assert k as real * size as real / size as real == k as real;
    assert FloorDiv((k * size) as real, size) == k;
  }

  /** The printed ranges of different buckets are disjoint exactly when the size divides 100 or one bucket holds all. */
  lemma RangesApartExactly(size: int)
    requires size > 0
    ensures RangesApart(size) <==> size >= 100 || 100 % size == 0
  {
    if size >= 100 || 100 % size == 0 {
      forall v: real, w: real | BucketStartFor(v, size) < BucketStartFor(w, size)
        ensures BucketEndFor(BucketStartFor(v, size), size) <= BucketStartFor(w, size)
      {
        var j := StartIsMultiple(v, size);
        var k := StartIsMultiple(w, size);
        hide BucketStartFor;
        if k * size < j * size + size {
          MultiplesApart(k, j, size);
        }
      }
    } else {
      RaggedTop(size);
    }
  }

  /** Otherwise the last bucket starts inside the one before it. */
  lemma RaggedTop(size: int)
    requires 0 < size < 100 && 100 % size != 0
    ensures !RangesApart(size)
  {
    var k := (100 - size) / size;
    assert 100 - size == k * size + (100 - size) % size;
    if (100 - size) % size == 0 {
      assert 100 == (k + 1) * size;
      Multiple(k + 1, size);
    }
    StartOfMultiple(k, size);
    var low := (k * size) as real;
    assert BucketStartFor(low, size) < BucketStartFor(100.0, size) < BucketEndFor(BucketStartFor(low, size), size);
  }

  lemma Multiple(k: int, size: int)
    requires size > 0
    ensures k * size % size == 0
  {
    var q, r := k * size / size, k * size % size;
    assert k * size == q * size + r;
    assert (k - q) * size == r;
    if k - q >= 1 {
      Grows(1, k - q, size);
    } else if k - q <= -1 {
      Grows(k - q, -1, size);
    }
  }

  // ---- summaries ----------------------------------------------------------------------------

  function Select(samples: seq<Sample>, p: Sample -> bool): seq<Sample> {
    if samples == [] then []
    else Select(samples[..|samples| - 1], p) + if p(samples[|samples| - 1]) then [samples[|samples| - 1]] else []
  }

  function Values(samples: seq<Sample>, field: Sample -> Option<real>): seq<real> {
    if samples == [] then []
    else
      Values(samples[..|samples| - 1], field) +
      match field(samples[|samples| - 1])
      case Some(v) => [v]
      case None => []
  }

  function StatusCounts(samples: seq<Sample>): map<string, nat> {
    if samples == [] then map[]
    else
      var counts, status := StatusCounts(samples[..|samples| - 1]), samples[|samples| - 1].status;
      counts[status := (if status in counts then counts[status] else 0) + 1]
  }

  function Average(values: seq<real>): Option<real> {
    if values == [] then None else Some(Sum(values) / |values| as real)
  }

  function Median(values: seq<real>): Option<real> {
    if values == [] then None
    else
      SortSorts(values);
      var sorted, mid := Sort(values), |values| / 2;
      if |values| % 2 == 1 then Some(sorted[mid]) else Some((sorted[mid - 1] + sorted[mid]) / 2.0)
  }

  function RatioOrNull(numerator: nat, denominator: nat): Option<real> {
    if denominator > 0 then Some(numerator as real / denominator as real) else None
  }

  function CountOf(values: seq<real>, p: real -> bool): nat {
    if values == [] then 0 else CountOf(values[..|values| - 1], p) + if p(values[|values| - 1]) then 1 else 0
  }

  predicate IsReady(s: Sample) {
    s.status == "ready" && s.directionalReturnPct.Some?
  }

  predicate IsPending(s: Sample) {
    s.status == "pending"
  }

  predicate IsUnlabelled(s: Sample) {
    s.status != "ready"
  }

  function DirectionalReturn(s: Sample): Option<real> {
    s.directionalReturnPct
  }

  function AdverseMove(s: Sample): Option<real> {
    s.maxAdverseMovePct
  }

  function ScoreOf(s: Sample): Option<real> {
    Some(s.score)
  }

  function ConfidenceOf(s: Sample): Option<real> {
    Some(s.confidenceScore)
  }

  predicate IsGain(v: real) {
    v > 0.0
  }

  predicate IsLoss(v: real) {
    v < 0.0
  }

  function Summarize(samples: seq<Sample>): Summary {
    var ready := Select(samples, IsReady);
    var moves := Values(ready, DirectionalReturn);
    var adverse := Values(ready, AdverseMove);
    Summary(
      |samples|, |ready|, |Select(samples, IsPending)|, |Select(samples, IsUnlabelled)|,
      Average(moves), Median(moves),
      RatioOrNull(CountOf(moves, IsGain), |ready|), RatioOrNull(CountOf(moves, IsLoss), |ready|),
      Average(adverse), Median(adverse),
      Average(Values(ready, ScoreOf)), Average(Values(ready, ConfidenceOf)),
      StatusCounts(samples))
  }

  lemma SelectMore(samples: seq<Sample>, s: Sample, p: Sample -> bool)
    ensures Select(samples + [s], p) == Select(samples, p) + if p(s) then [s] else []
  {
    assert (samples + [s])[..|samples|] == samples;
  }

  lemma ValuesMore(samples: seq<Sample>, s: Sample, field: Sample -> Option<real>)
    ensures Values(samples + [s], field) == Values(samples, field) + if field(s).Some? then [field(s).value] else []
  {
    assert (samples + [s])[..|samples|] == samples;
  }

  lemma CountMore(values: seq<real>, v: real, p: real -> bool)
    ensures CountOf(values + [v], p) == CountOf(values, p) + if p(v) then 1 else 0
  {
    assert (values + [v])[..|values|] == values;
  }

  method FilterSamples(samples: seq<Sample>, p: Sample -> bool) returns (kept: seq<Sample>)
    ensures kept == Select(samples, p)
  {
    kept := [];
    for i := 0 to |samples|
      invariant kept == Select(samples[..i], p)
    {
      SelectMore(samples[..i], samples[i], p);
      assert samples[..i + 1] == samples[..i] + [samples[i]];
      if p(samples[i]) {
        kept := kept + [samples[i]];
      }
    }
    assert samples[..|samples|] == samples;
  }

  /** Maps to a field and keeps the numbers. */
  method FieldValues(samples: seq<Sample>, field: Sample -> Option<real>) returns (values: seq<real>)
    ensures values == Values(samples, field)
  {
    values := [];
    for i := 0 to |samples|
      invariant values == Values(samples[..i], field)
    {
      ValuesMore(samples[..i], samples[i], field);
      assert samples[..i + 1] == samples[..i] + [samples[i]];
      var v := field(samples[i]);
      if v.Some? {
        values := values + [v.value];
      }
    }
    assert samples[..|samples|] == samples;
  }

  method CountValues(values: seq<real>, p: real -> bool) returns (n: nat)
    ensures n == CountOf(values, p)
  {
    n := 0;
    for i := 0 to |values|
      invariant n == CountOf(values[..i], p)
    {
      CountMore(values[..i], values[i], p);
      assert values[..i + 1] == values[..i] + [values[i]];
      if p(values[i]) {
        n := n + 1;
      }
    }
    assert values[..|values|] == values;
  }

  method CountStatuses(samples: seq<Sample>) returns (statusCounts: map<string, nat>)
    ensures statusCounts == StatusCounts(samples)
  {
    statusCounts := map[];
    for i := 0 to |samples|
      invariant statusCounts == StatusCounts(samples[..i])
    {
      assert samples[..i + 1][..i] == samples[..i];
      var status := samples[i].status;
      statusCounts := statusCounts[status := (if status in statusCounts then statusCounts[status] else 0) + 1];
    }
    assert samples[..|samples|] == samples;
  }

  method MeanOf(values: seq<real>) returns (mean: Option<real>)
    ensures mean == Average(values)
  {
    if values == [] {
      return None;
    }
    var sum := 0.0;
    for i := 0 to |values|
      invariant sum == Sum(values[..i])
    {
      assert values[..i + 1][..i] == values[..i];
      sum := sum + values[i];
    }
    assert values[..|values|] == values;
    mean := Some(sum / |values| as real);
  }

  method SummarizeBacktestSamples(samples: seq<Sample>) returns (summary: Summary)
    ensures summary == Summarize(samples)
    ensures AddsUp(samples, summary)
  {
    hide Select, Values, CountOf, StatusCounts, Average, Median, IsReady, IsPending, IsUnlabelled;
    hide DirectionalReturn, AdverseMove, ScoreOf, ConfidenceOf, IsGain, IsLoss, AddsUp;
    var statusCounts := CountStatuses(samples);
    var ready := FilterSamples(samples, IsReady);
    var moves := FieldValues(ready, DirectionalReturn);
    var adverse := FieldValues(ready, AdverseMove);
    var wins := CountValues(moves, IsGain);
    var losses := CountValues(moves, IsLoss);
    var pending := FilterSamples(samples, IsPending);
    var unlabelled := FilterSamples(samples, IsUnlabelled);
    var averageMove := MeanOf(moves);
    var averageAdverse := MeanOf(adverse);
    var scores := FieldValues(ready, ScoreOf);
    var averageScore := MeanOf(scores);
    var confidences := FieldValues(ready, ConfidenceOf);
    var averageConfidence := MeanOf(confidences);
    summary := Summary(
      |samples|, |ready|, |pending|, |unlabelled|, averageMove, Median(moves),
      RatioOrNull(wins, |ready|), RatioOrNull(losses, |ready|), averageAdverse, Median(adverse),
      averageScore, averageConfidence, statusCounts);
    SummaryAddsUp(samples);
  }

  // ---- bucketing ----------------------------------------------------------------------------

  function Members(samples: seq<Sample>, startOf: Sample -> int, start: int): seq<Sample> {
    Select(samples, (s: Sample) => startOf(s) == start)
  }

  ghost predicate Ascending(starts: seq<int>) {
    forall i, j | 0 <= i < j < |starts| :: starts[i] < starts[j]
  }

  function Starts(buckets: seq<Bucket>): seq<int> {
    seq(|buckets|, i requires 0 <= i < |buckets| => buckets[i].bucketStart)
  }

  /** Ascending buckets, one for each start that occurs, each summarizing exactly the samples that start there. */
  ghost predicate IsBucketing(samples: seq<Sample>, size: int, startOf: Sample -> int, buckets: seq<Bucket>) {
    && Ascending(Starts(buckets))
    && (forall s <- samples :: startOf(s) in Starts(buckets))
    && (forall b <- buckets :: Summarized(samples, size, startOf, b))
  }

  /** Puts a start into an ascending list. */
  function InsertStart(start: int, starts: seq<int>): seq<int> {
    if starts == [] || start < starts[0] then [start] + starts
    else [starts[0]] + InsertStart(start, starts[1..])
  }

  lemma {:induction false} InsertAscends(start: int, starts: seq<int>)
    requires Ascending(starts) && start !in starts
    ensures Ascending(InsertStart(start, starts))
    ensures forall x :: x in InsertStart(start, starts) <==> x == start || x in starts
  {
    if starts != [] && start > starts[0] {
      InsertAscends(start, starts[1..]);
      var rest := InsertStart(start, starts[1..]);
      forall i | 0 <= i < |rest|
        ensures starts[0] < rest[i]
      {
        assert rest[i] in rest;
      }
      assert starts == [starts[0]] + starts[1..];
    }
  }

  /** The map of groups holds exactly the samples of each start that occurs, in their order. */
  ghost predicate Grouped(samples: seq<Sample>, startOf: Sample -> int, groups: map<int, seq<Sample>>) {
    && (forall start: int :: Members(samples, startOf, start) == if start in groups then groups[start] else [])
    && (forall start <- groups :: groups[start] != [])
    && (forall s <- samples :: startOf(s) in groups)
  }

  lemma GroupedMore(samples: seq<Sample>, startOf: Sample -> int, groups: map<int, seq<Sample>>, s: Sample)
    requires Grouped(samples, startOf, groups)
    ensures var start := startOf(s);
      Grouped(samples + [s], startOf, groups[start := (if start in groups then groups[start] else []) + [s]])
  {
    hide Members;
    forall start: int {
      MembersMore(samples, startOf, s, start);
    }
  }

  lemma MembersMore(samples: seq<Sample>, startOf: Sample -> int, s: Sample, start: int)
    ensures Members(samples + [s], startOf, start) ==
            if startOf(s) == start then Members(samples, startOf, start) + [s] else Members(samples, startOf, start)
  {
    assert (samples + [s])[..|samples|] == samples;
  }

  method GroupSamples(samples: seq<Sample>, startOf: Sample -> int) returns (groups: map<int, seq<Sample>>)
    ensures Grouped(samples, startOf, groups)
  {
    hide Members;
    groups := map[];
    assert Grouped([], startOf, groups) by {
      NothingGrouped(startOf);
    }
    for i := 0 to |samples|
      invariant Grouped(samples[..i], startOf, groups)
    {
      hide Grouped;
      GroupedMore(samples[..i], startOf, groups, samples[i]);
      assert samples[..i + 1] == samples[..i] + [samples[i]];
      var start := startOf(samples[i]);
      var existing := if start in groups then groups[start] else [];
      groups := groups[start := existing + [samples[i]]];
    }
    assert samples[..|samples|] == samples;
  }

  lemma NothingGrouped(startOf: Sample -> int)
    ensures Grouped([], startOf, map[])
  {
  }

  lemma Inhabited(starts: set<int>)
    requires |starts| > 0
    ensures exists start :: start in starts
  {
    assert (forall start :: start !in starts) ==> starts == {};
  }

  method SortStarts(keys: set<int>) returns (starts: seq<int>)
    ensures Ascending(starts) && forall start :: start in starts <==> start in keys
  {
    var remaining := keys;
    starts := [];
    while |remaining| > 0
      invariant remaining <= keys && Ascending(starts)
      invariant forall start :: start in starts <==> start in keys - remaining
      decreases |remaining|
    {
      Inhabited(remaining);
      var start :| start in remaining;
      remaining := remaining - {start};
      InsertAscends(start, starts);
      starts := InsertStart(start, starts);
    }
  }

  ghost predicate Summarized(samples: seq<Sample>, size: int, startOf: Sample -> int, b: Bucket) {
    && b.bucketEnd == BucketEndFor(b.bucketStart, size)
    && Members(samples, startOf, b.bucketStart) != []
    && b.summary == Summarize(Members(samples, startOf, b.bucketStart))
  }

  method BucketBacktestSamples(samples: seq<Sample>, size: int, valueOf: Sample -> real) returns (buckets: seq<Bucket>)
    requires size > 0
    ensures IsBucketing(samples, size, s => BucketStartFor(valueOf(s), size), buckets)
  {
    hide Members, Summarize, BucketStartFor, AddsUp;
    var startOf := (s: Sample) => BucketStartFor(valueOf(s), size);
    var groups := GroupSamples(samples, startOf);
    var starts := SortStarts(groups.Keys);
    buckets := [];
    for i := 0 to |starts|
      invariant Starts(buckets) == starts[..i]
      invariant forall b <- buckets :: Summarized(samples, size, startOf, b)
    {
      var start := starts[i];
      assert start in starts;
      var summary := SummarizeBacktestSamples(groups[start]);
      buckets := buckets + [Bucket(start, BucketEndFor(start, size), summary)];
    }
    assert starts[..|starts|] == starts;
  }

  // ---- buckets add up -----------------------------------------------------------------------

  lemma {:induction false} SumBySame<T>(xs: seq<T>, f: T -> real, g: T -> real)
    requires forall x <- xs :: f(x) == g(x)
    ensures SumBy(xs, f) == SumBy(xs, g)
  {
    if xs != [] {
      SumBySame(xs[..|xs| - 1], f, g);
    }
  }

  /** Raising the weight of one of the distinct starts raises the sum by as much. */
  lemma {:induction false} SumByRaised(starts: seq<int>, f: int -> real, g: int -> real, x: int, d: real)
    requires Ascending(starts)
    requires forall st <- starts :: g(st) == f(st) + if st == x then d else 0.0
    ensures SumBy(starts, g) == SumBy(starts, f) + if x in starts then d else 0.0
  {
    if starts != [] {
      var n := |starts| - 1;
      SumByRaised(starts[..n], f, g, x, d);
      assert starts == starts[..n] + [starts[n]];
      assert x == starts[n] ==> x !in starts[..n];
    }
  }

  /** A weight summed bucket by bucket is the weight summed over all samples. */
  lemma {:induction false} MembersAddUp(samples: seq<Sample>, startOf: Sample -> int, starts: seq<int>,
                                        w: Sample -> real)
    requires Ascending(starts) && forall s <- samples :: startOf(s) in starts
    ensures SumBy(starts, st => SumBy(Members(samples, startOf, st), w)) == SumBy(samples, w)
  {
    var f := st => SumBy(Members(samples, startOf, st), w);
    if samples == [] {
      SumBySame(starts, f, st => 0.0);
      SumByZero(starts);
    } else {
      var n := |samples| - 1;
      var s, front := samples[n], samples[..n];
      var g := st => SumBy(Members(front, startOf, st), w);
      assert samples == front + [s];
      MembersAddUp(front, startOf, starts, w);
      forall st <- starts
        ensures f(st) == g(st) + if st == startOf(s) then w(s) else 0.0
      {
        MembersMore(front, startOf, s, st);
        SumByPush(Members(front, startOf, st), s, w);
      }
      SumByRaised(starts, g, f, startOf(s), w(s));
      SumByPush(front, s, w);
    }
  }

  lemma {:induction false} SumByZero(starts: seq<int>)
    ensures SumBy(starts, st => 0.0) == 0.0
  {
    if starts != [] {
      SumByZero(starts[..|starts| - 1]);
      SumBySame(starts[..|starts| - 1], st => 0.0, st => 0.0);
    }
  }

  function TotalOf(buckets: seq<Bucket>, measure: Summary -> real): real {
    Sum(seq(|buckets|, i requires 0 <= i < |buckets| => measure(buckets[i].summary)))
  }

  lemma {:induction false} TotalOverStarts(buckets: seq<Bucket>, measure: Summary -> real, f: int -> real)
    requires forall b <- buckets :: measure(b.summary) == f(b.bucketStart)
    ensures TotalOf(buckets, measure) == SumBy(Starts(buckets), f)
  {
    if buckets != [] {
      var front := buckets[..|buckets| - 1];
      TotalOverStarts(front, measure, f);
      var totals := seq(|buckets|, i requires 0 <= i < |buckets| => measure(buckets[i].summary));
      assert totals[..|buckets| - 1] == seq(|front|, i requires 0 <= i < |front| => measure(front[i].summary));
      assert Starts(buckets)[..|buckets| - 1] == Starts(front);
      assert buckets[|buckets| - 1] in buckets;
    }
  }

  /** What a summary measures as a sum over its samples adds up over the buckets. */
  lemma MeasureAddsUp(samples: seq<Sample>, size: int, startOf: Sample -> int, buckets: seq<Bucket>,
                      measure: Summary -> real, w: Sample -> real)
    requires IsBucketing(samples, size, startOf, buckets)
    requires forall xs :: measure(Summarize(xs)) == SumBy(xs, w)
    ensures TotalOf(buckets, measure) == measure(Summarize(samples))
  {
    hide Summarize, Members;
    var f := st => SumBy(Members(samples, startOf, st), w);
    forall b <- buckets
      ensures measure(b.summary) == f(b.bucketStart)
    {
      assert Summarized(samples, size, startOf, b);
    }
    TotalOverStarts(buckets, measure, f);
    MembersAddUp(samples, startOf, Starts(buckets), w);
  }

  function One(s: Sample): real {
    1.0
  }

  function OneIfReady(s: Sample): real {
    if IsReady(s) then 1.0 else 0.0
  }

  function OneIfPending(s: Sample): real {
    if IsPending(s) then 1.0 else 0.0
  }

  function OneIfUnlabelled(s: Sample): real {
    if IsUnlabelled(s) then 1.0 else 0.0
  }

  lemma {:induction false} SelectCounts(samples: seq<Sample>, p: Sample -> bool, w: Sample -> real)
    requires forall s :: w(s) == if p(s) then 1.0 else 0.0
    ensures |Select(samples, p)| as real == SumBy(samples, w)
  {
    if samples != [] {
      SelectCounts(samples[..|samples| - 1], p, w);
    }
  }

  lemma {:induction false} LengthCounts(samples: seq<Sample>)
    ensures |samples| as real == SumBy(samples, One)
  {
    if samples != [] {
      LengthCounts(samples[..|samples| - 1]);
    }
  }

  function Total(s: Summary): real {
    s.totalCount as real
  }

  function Ready(s: Summary): real {
    s.sampleCount as real
  }

  function Pending(s: Summary): real {
    s.pendingCount as real
  }

  function Missing(s: Summary): real {
    s.missingLabelCount as real
  }

  /** The sum of directional returns a summary stands for. */
  function ReturnSum(s: Summary): real {
    s.averageForwardReturnPct.GetOr(0.0) * s.sampleCount as real
  }

  function ScoreSum(s: Summary): real {
    s.averageScore.GetOr(0.0) * s.sampleCount as real
  }

  /** The number of gains a win rate stands for. */
  function Gains(s: Summary): real {
    s.winRate.GetOr(0.0) * s.sampleCount as real
  }

  function Losses(s: Summary): real {
    s.lossRate.GetOr(0.0) * s.sampleCount as real
  }

  function ReadyReturn(s: Sample): real {
    if IsReady(s) then s.directionalReturnPct.value else 0.0
  }

  function ReadyScore(s: Sample): real {
    if IsReady(s) then s.score else 0.0
  }

  function OneIfGain(s: Sample): real {
    if IsReady(s) && IsGain(s.directionalReturnPct.value) then 1.0 else 0.0
  }

  function OneIfLoss(s: Sample): real {
    if IsReady(s) && IsLoss(s.directionalReturnPct.value) then 1.0 else 0.0
  }

  lemma SumMore(values: seq<real>, v: real)
    ensures Sum(values + [v]) == Sum(values) + v
  {
    assert (values + [v])[..|values|] == values;
  }

  lemma {:induction false} FieldOfReady(samples: seq<Sample>, field: Sample -> Option<real>, w: Sample -> real)
    requires forall s | IsReady(s) :: field(s).Some? && w(s) == field(s).value
    requires forall s | !IsReady(s) :: w(s) == 0.0
    ensures var values := Values(Select(samples, IsReady), field);
      |values| == |Select(samples, IsReady)| && Sum(values) == SumBy(samples, w)
  {
    if samples != [] {
      hide IsReady, Values, Sum;
      var front, s := samples[..|samples| - 1], samples[|samples| - 1];
      FieldOfReady(front, field, w);
      var ready := Select(front, IsReady);
      if IsReady(s) {
        ValuesMore(ready, s, field);
        SumMore(Values(ready, field), field(s).value);
      } else {
        assert ready + [] == ready;
      }
    } else {
      assert Values(Select([], IsReady), field) == [];
    }
  }

  lemma {:induction false} CountOfReady(samples: seq<Sample>, p: real -> bool, w: Sample -> real)
    requires forall s :: w(s) == if IsReady(s) && p(s.directionalReturnPct.value) then 1.0 else 0.0
    ensures CountOf(Values(Select(samples, IsReady), DirectionalReturn), p) as real == SumBy(samples, w)
  {
    if samples != [] {
      hide Values, CountOf;
      var front, s := samples[..|samples| - 1], samples[|samples| - 1];
      CountOfReady(front, p, w);
      var ready := Select(front, IsReady);
      if IsReady(s) {
        ValuesMore(ready, s, DirectionalReturn);
        CountMore(Values(ready, DirectionalReturn), s.directionalReturnPct.value, p);
      } else {
        assert ready + [] == ready;
      }
    } else {
      assert Values(Select([], IsReady), DirectionalReturn) == [];
    }
  }

  lemma RatioTimesCount(numerator: nat, denominator: nat)
    requires numerator <= denominator
    ensures RatioOrNull(numerator, denominator).GetOr(0.0) * denominator as real == numerator as real
  {
    if denominator > 0 {
      DivideBack(numerator as real, denominator as real);
    }
  }

  lemma {:induction false} CountBounded(values: seq<real>, p: real -> bool)
    ensures CountOf(values, p) <= |values|
  {
    if values != [] {
      CountBounded(values[..|values| - 1], p);
    }
  }

  lemma ReturnsOfReady(samples: seq<Sample>)
    ensures var values := Values(Select(samples, IsReady), DirectionalReturn);
      |values| == |Select(samples, IsReady)| && Sum(values) == SumBy(samples, ReadyReturn)
  {
    hide Values, Select, Sum, SumBy;
    FieldOfReady(samples, DirectionalReturn, ReadyReturn);
  }

  lemma ScoresOfReady(samples: seq<Sample>)
    ensures var values := Values(Select(samples, IsReady), ScoreOf);
      |values| == |Select(samples, IsReady)| && Sum(values) == SumBy(samples, ReadyScore)
  {
    hide Values, Select, Sum, SumBy;
    FieldOfReady(samples, ScoreOf, ReadyScore);
  }

  lemma RatesOfReady(samples: seq<Sample>)
    ensures var moves := Values(Select(samples, IsReady), DirectionalReturn);
      && CountOf(moves, IsGain) as real == SumBy(samples, OneIfGain)
      && CountOf(moves, IsLoss) as real == SumBy(samples, OneIfLoss)
  {
    hide Values, Select, CountOf, SumBy;
    CountOfReady(samples, IsGain, OneIfGain);
    CountOfReady(samples, IsLoss, OneIfLoss);
  }

  lemma SummarySums(samples: seq<Sample>)
    ensures ReturnSum(Summarize(samples)) == SumBy(samples, ReadyReturn)
    ensures ScoreSum(Summarize(samples)) == SumBy(samples, ReadyScore)
  {
    hide Median, Average, Select, Values, CountOf, RatioOrNull, StatusCounts, SumBy, Sum;
    hide IsReady, IsPending, IsUnlabelled, ReadyReturn, ReadyScore, ScoreOf, DirectionalReturn;
    ReturnsOfReady(samples);
    ScoresOfReady(samples);
    AverageTimesCount(Values(Select(samples, IsReady), DirectionalReturn));
    AverageTimesCount(Values(Select(samples, IsReady), ScoreOf));
  }

  lemma SummaryRates(samples: seq<Sample>)
    ensures Gains(Summarize(samples)) == SumBy(samples, OneIfGain)
    ensures Losses(Summarize(samples)) == SumBy(samples, OneIfLoss)
  {
    hide Median, Average, Select, Values, CountOf, RatioOrNull, StatusCounts, SumBy, Sum;
    hide IsReady, IsPending, IsUnlabelled, IsGain, IsLoss, OneIfGain, OneIfLoss, DirectionalReturn;
    var ready := Select(samples, IsReady);
    var moves := Values(ready, DirectionalReturn);
    ReturnsOfReady(samples);
    RatesOfReady(samples);
    CountBounded(moves, IsGain);
    CountBounded(moves, IsLoss);
    RatioTimesCount(CountOf(moves, IsGain), |ready|);
    RatioTimesCount(CountOf(moves, IsLoss), |ready|);
  }

  /** The counts, rates and averages of a summary stand for sums over its samples, one by one. */
  ghost predicate AddsUp(samples: seq<Sample>, s: Summary) {
    && Total(s) == SumBy(samples, One) && Ready(s) == SumBy(samples, OneIfReady)
    && Pending(s) == SumBy(samples, OneIfPending) && Missing(s) == SumBy(samples, OneIfUnlabelled)
    && ReturnSum(s) == SumBy(samples, ReadyReturn) && ScoreSum(s) == SumBy(samples, ReadyScore)
    && Gains(s) == SumBy(samples, OneIfGain) && Losses(s) == SumBy(samples, OneIfLoss)
  }

  lemma SummaryAddsUp(samples: seq<Sample>)
    ensures AddsUp(samples, Summarize(samples))
  {
    hide Median, Average, Values, CountOf, RatioOrNull, StatusCounts, SumBy, ReturnSum, ScoreSum, Gains, Losses;
    LengthCounts(samples);
    SelectCounts(samples, IsReady, OneIfReady);
    SelectCounts(samples, IsPending, OneIfPending);
    SelectCounts(samples, IsUnlabelled, OneIfUnlabelled);
    SummarySums(samples);
    SummaryRates(samples);
  }

  lemma AverageTimesCount(values: seq<real>)
    ensures Average(values).GetOr(0.0) * |values| as real == Sum(values)
  {
    if values != [] {
      DivideBack(Sum(values), |values| as real);
    }
  }

  lemma DivideBack(a: real, b: real)
    requires b > 0.0
    ensures a / b * b == a
  {
  }

  /** Every sample lies in exactly one bucket. */
  lemma InOneBucket(samples: seq<Sample>, size: int, startOf: Sample -> int, buckets: seq<Bucket>, s: Sample)
    requires IsBucketing(samples, size, startOf, buckets) && s in samples
    ensures exists i | 0 <= i < |buckets| ::
              && s in Members(samples, startOf, buckets[i].bucketStart)
              && forall j | 0 <= j < |buckets| && j != i :: s !in Members(samples, startOf, buckets[j].bucketStart)
  {
    var i :| 0 <= i < |Starts(buckets)| && Starts(buckets)[i] == startOf(s);
    forall j | 0 <= j < |buckets|
      ensures s in Members(samples, startOf, buckets[j].bucketStart) <==> j == i
    {
      SelectMember(samples, x => startOf(x) == buckets[j].bucketStart, s);
      assert Starts(buckets)[j] == buckets[j].bucketStart;
    }
  }

  /** A score between 0 and 100 lies in the printed range of its bucket. */
  lemma InPrintedRange(samples: seq<Sample>, size: int, valueOf: Sample -> real, buckets: seq<Bucket>, b: Bucket,
                       s: Sample)
    requires size > 0 && IsBucketing(samples, size, x => BucketStartFor(valueOf(x), size), buckets) && b in buckets
    requires s in Members(samples, x => BucketStartFor(valueOf(x), size), b.bucketStart) && 0.0 <= valueOf(s) <= 100.0
    ensures b.bucketStart as real <= valueOf(s) &&
            (valueOf(s) < b.bucketEnd as real || valueOf(s) == 100.0 == b.bucketEnd as real)
  {
    var startOf := (x: Sample) => BucketStartFor(valueOf(x), size);
    assert Summarized(samples, size, startOf, b);
    SelectMember(samples, x => startOf(x) == b.bucketStart, s);
    SelectAgrees(samples, x => startOf(x) == b.bucketStart, x => BucketStartFor(valueOf(x), size) == b.bucketStart);
    RangeHolds(valueOf(s), size);
  }

  lemma {:induction false} SelectMember(samples: seq<Sample>, p: Sample -> bool, s: Sample)
    ensures s in Select(samples, p) <==> s in samples && p(s)
  {
    if samples != [] {
      SelectMember(samples[..|samples| - 1], p, s);
      assert samples == samples[..|samples| - 1] + [samples[|samples| - 1]];
    }
  }

  lemma SummaryCounts(samples: seq<Sample>)
    ensures var s := Summarize(samples);
      && Total(s) == |samples| as real && Ready(s) == s.sampleCount as real
      && Pending(s) == s.pendingCount as real && Missing(s) == s.missingLabelCount as real
  {
  }

  /**
   * The counts, gains, losses and sums of returns and scores of the buckets add up to those of the
   * summary over all samples.
   */
  lemma BucketsAddUp(samples: seq<Sample>, size: int, startOf: Sample -> int, buckets: seq<Bucket>)
    requires IsBucketing(samples, size, startOf, buckets)
    ensures TotalOf(buckets, Total) == |samples| as real
    ensures TotalOf(buckets, Ready) == Summarize(samples).sampleCount as real
    ensures TotalOf(buckets, Pending) == Summarize(samples).pendingCount as real
    ensures TotalOf(buckets, Missing) == Summarize(samples).missingLabelCount as real
    ensures TotalOf(buckets, ReturnSum) == ReturnSum(Summarize(samples))
    ensures TotalOf(buckets, ScoreSum) == ScoreSum(Summarize(samples))
    ensures TotalOf(buckets, Gains) == Gains(Summarize(samples))
    ensures TotalOf(buckets, Losses) == Losses(Summarize(samples))
  {
    hide IsBucketing, Summarize, SumBy, Total, Ready, Pending, Missing, ReturnSum, ScoreSum, Gains, Losses;
    forall xs: seq<Sample>
      ensures AddsUp(xs, Summarize(xs))
    {
      SummaryAddsUp(xs);
    }
    SummaryCounts(samples);
    MeasureAddsUp(samples, size, startOf, buckets, Total, One);
    MeasureAddsUp(samples, size, startOf, buckets, Ready, OneIfReady);
    MeasureAddsUp(samples, size, startOf, buckets, Pending, OneIfPending);
    MeasureAddsUp(samples, size, startOf, buckets, Missing, OneIfUnlabelled);
    MeasureAddsUp(samples, size, startOf, buckets, ReturnSum, ReadyReturn);
    MeasureAddsUp(samples, size, startOf, buckets, ScoreSum, ReadyScore);
    MeasureAddsUp(samples, size, startOf, buckets, Gains, OneIfGain);
    MeasureAddsUp(samples, size, startOf, buckets, Losses, OneIfLoss);
  }

  // ---- what a summary says ------------------------------------------------------------------

  /** The status table counts each status, and lists exactly the statuses that occur. */
  lemma {:induction false} StatusesCounted(samples: seq<Sample>, status: string)
    ensures var counts := StatusCounts(samples);
      (if status in counts then counts[status] else 0) == |Select(samples, (s: Sample) => s.status == status)|
    ensures status in StatusCounts(samples) <==> exists s <- samples :: s.status == status
  {
    if samples != [] {
      var n := |samples| - 1;
      StatusesCounted(samples[..n], status);
      assert samples == samples[..n] + [samples[n]];
      SelectAgrees(samples[..n], (s: Sample) => s.status == status, (s: Sample) => s.status == status);
    }
  }

  lemma {:induction false} SelectAgrees(samples: seq<Sample>, p: Sample -> bool, q: Sample -> bool)
    requires forall s :: p(s) == q(s)
    ensures Select(samples, p) == Select(samples, q)
  {
    if samples != [] {
      SelectAgrees(samples[..|samples| - 1], p, q);
    }
  }

  function Weight(p: real -> bool, v: real): real {
    if p(v) then 1.0 else 0.0
  }

  lemma {:induction false} CountIsSum(values: seq<real>, p: real -> bool)
    ensures CountOf(values, p) as real == SumBy(values, v => Weight(p, v))
  {
    if values != [] {
      CountIsSum(values[..|values| - 1], p);
      SumBySame(values[..|values| - 1], v => Weight(p, v), v => Weight(p, v));
    }
  }

  lemma CountIgnoresOrder(xs: seq<real>, ys: seq<real>, p: real -> bool)
    requires multiset(xs) == multiset(ys)
    ensures CountOf(xs, p) == CountOf(ys, p)
  {
    var w := v => Weight(p, v);
    CountIsSum(xs, p);
    CountIsSum(ys, p);
    SumBySame(xs, w, v => Weight(p, v));
    SumBySame(ys, w, v => Weight(p, v));
    SumByMonotone(xs, w, ys, w);
    SumByMonotone(ys, w, xs, w);
  }

  lemma {:induction false} CountUpTo(values: seq<real>, p: real -> bool, k: nat)
    requires k <= |values| && forall i | k <= i < |values| :: !p(values[i])
    ensures CountOf(values, p) <= k
  {
    if k < |values| {
      CountUpTo(values[..|values| - 1], p, k);
    } else if k > 0 {
      CountUpTo(values[..k - 1], p, k - 1);
    }
  }

  lemma {:induction false} CountFrom(values: seq<real>, p: real -> bool, k: nat)
    requires k <= |values| && forall i | 0 <= i < k :: !p(values[i])
    ensures CountOf(values, p) <= |values| - k
  {
    if k < |values| {
      CountFrom(values[..|values| - 1], p, k);
    } else {
      CountUpTo(values, p, 0);
    }
  }

  function Below(m: real): real -> bool {
    v => v < m
  }

  function Above(m: real): real -> bool {
    v => v > m
  }

  /** In a sorted list the middle has at most half of the values on either side. */
  lemma SortedMiddle(sorted: seq<real>, median: real)
    requires Sorted(sorted) && sorted != []
    requires var mid := |sorted| / 2;
      median == if |sorted| % 2 == 1 then sorted[mid] else (sorted[mid - 1] + sorted[mid]) / 2.0
    ensures 2 * CountOf(sorted, Below(median)) <= |sorted| && 2 * CountOf(sorted, Above(median)) <= |sorted|
  {
    hide CountOf;
    var mid := |sorted| / 2;
    CountUpTo(sorted, Below(median), mid);
    CountFrom(sorted, Above(median), |sorted| - mid);
  }

  /** At most half of the values lie below the median and at most half above it. */
  lemma MedianSplits(values: seq<real>)
    requires values != []
    ensures Median(values).Some?
    ensures 2 * CountOf(values, Below(Median(values).value)) <= |values|
    ensures 2 * CountOf(values, Above(Median(values).value)) <= |values|
  {
    hide CountOf, Sort, Sorted, Below, Above;
    SortSorts(values);
    var sorted, median := Sort(values), Median(values).value;
    CountIgnoresOrder(values, sorted, Below(median));
    CountIgnoresOrder(values, sorted, Above(median));
    SortedMiddle(sorted, median);
  }
}
