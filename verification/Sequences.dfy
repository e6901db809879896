/** Facts about sequences that several components need: sums, sub-multisets, sorting, first occurrences. */
module Sequences {

  function Sum(xs: seq<real>): real {
    if xs == [] then 0.0 else Sum(xs[..|xs| - 1]) + xs[|xs| - 1]
  }

  /** The sum of a weight over a sequence, taken from the left. */
  ghost function SumBy<T>(xs: seq<T>, weight: T -> real): real {
    if xs == [] then 0.0 else SumBy(xs[..|xs| - 1], weight) + weight(xs[|xs| - 1])
  }

  function Without<T>(xs: seq<T>, i: nat): seq<T>
    requires i < |xs|
  {
    xs[..i] + xs[i + 1..]
  }

  lemma WithoutMultiset<T>(xs: seq<T>, i: nat)
    requires i < |xs|
    ensures multiset(xs) == multiset(Without(xs, i)) + multiset{xs[i]}
  {
    assert xs == xs[..i] + [xs[i]] + xs[i + 1..];
  }

  lemma WithoutPush<T>(xs: seq<T>, x: T, i: nat)
    requires i < |xs|
    ensures Without(xs + [x], i) == Without(xs, i) + [x]
  {
    assert (xs + [x])[..i] == xs[..i];
    assert (xs + [x])[i + 1..] == xs[i + 1..] + [x];
  }

  lemma SumByPush<T>(xs: seq<T>, x: T, weight: T -> real)
    ensures SumBy(xs + [x], weight) == SumBy(xs, weight) + weight(x)
  {
    assert (xs + [x])[..|xs|] == xs;
  }

  lemma {:induction false} SumByWithout<T>(xs: seq<T>, weight: T -> real, i: nat)
    requires i < |xs|
    ensures SumBy(xs, weight) == SumBy(Without(xs, i), weight) + weight(xs[i])
  {
    hide SumBy, Without;
    var front, last := xs[..|xs| - 1], xs[|xs| - 1];
    assert xs == front + [last];
    SumByPush(front, last, weight);
    if i == |front| {
      WithoutLast(front, last);
    } else {
      SumByWithout(front, weight, i);
      WithoutPush(front, last, i);
      SumByPush(Without(front, i), last, weight);
    }
  }

  lemma WithoutLast<T>(xs: seq<T>, x: T)
    ensures Without(xs + [x], |xs|) == xs
  {
  }

  lemma SubMultisetCancel<T>(few: multiset<T>, many: multiset<T>, x: T)
    requires few + multiset{x} <= many + multiset{x}
    ensures few <= many
  {
    forall y | y in few
      ensures few[y] <= many[y]
    {
      assert (few + multiset{x})[y] <= (many + multiset{x})[y];
    }
  }

  /** A sum over fewer elements, each weighing no more, is no larger; order plays no part. */
  lemma {:induction false} SumByMonotone<T>(few: seq<T>, small: T -> real, many: seq<T>, large: T -> real)
    requires multiset(few) <= multiset(many)
    requires forall x <- few :: small(x) <= large(x)
    requires forall x <- many :: 0.0 <= large(x)
    ensures SumBy(few, small) <= SumBy(many, large)
  {
    if few == [] {
      SumByNonNegative(many, large);
    } else {
      var n := |few| - 1;
      var x := few[n];
      assert few == few[..n] + [x];
      assert multiset(few)[x] > 0;
      assert x in multiset(many);
      var i :| 0 <= i < |many| && many[i] == x;
      WithoutMultiset(many, i);
      SumByWithout(many, large, i);
      assert multiset(few) == multiset(few[..n]) + multiset{x};
      SubMultisetCancel(multiset(few[..n]), multiset(Without(many, i)), x);
      assert forall y <- Without(many, i) :: y in many;
      SumByMonotone(few[..n], small, Without(many, i), large);
    }
  }

  lemma {:induction false} SumByNonNegative<T>(xs: seq<T>, weight: T -> real)
    requires forall x <- xs :: 0.0 <= weight(x)
    ensures 0.0 <= SumBy(xs, weight)
  {
    if xs != [] {
      SumByNonNegative(xs[..|xs| - 1], weight);
    }
  }

  // ---- flat maps ---------------------------------------------------------------------------

  ghost function FlatMap<T, U>(xs: seq<T>, f: T -> seq<U>): seq<U> {
    if xs == [] then [] else FlatMap(xs[..|xs| - 1], f) + f(xs[|xs| - 1])
  }

  lemma {:induction false} FlatMapWithout<T, U>(xs: seq<T>, f: T -> seq<U>, i: nat)
    requires i < |xs|
    ensures multiset(FlatMap(xs, f)) == multiset(FlatMap(Without(xs, i), f)) + multiset(f(xs[i]))
  {
    hide FlatMap, Without;
    var front, last := xs[..|xs| - 1], xs[|xs| - 1];
    assert xs == front + [last];
    FlatMapPush(front, last, f);
    if i == |front| {
      WithoutLast(front, last);
    } else {
      FlatMapWithout(front, f, i);
      WithoutPush(front, last, i);
      FlatMapPush(Without(front, i), last, f);
    }
  }

  lemma FlatMapPush<T, U>(xs: seq<T>, x: T, f: T -> seq<U>)
    ensures FlatMap(xs + [x], f) == FlatMap(xs, f) + f(x)
  {
    assert (xs + [x])[..|xs|] == xs;
  }

  /** Reordering the input of a flat map only reorders its output. */
  lemma {:induction false} FlatMapPermutes<T, U>(xs: seq<T>, ys: seq<T>, f: T -> seq<U>)
    requires multiset(xs) == multiset(ys)
    ensures multiset(FlatMap(xs, f)) == multiset(FlatMap(ys, f))
  {
    if xs == [] {
      assert |multiset(ys)| == |ys|;
    } else {
      var n := |xs| - 1;
      assert xs == xs[..n] + [xs[n]];
      assert xs[n] in multiset(ys);
      var i :| 0 <= i < |ys| && ys[i] == xs[n];
      WithoutMultiset(ys, i);
      assert multiset(xs[..n]) == multiset(xs) - multiset{xs[n]};
      assert multiset(Without(ys, i)) == multiset(ys) - multiset{xs[n]};
      FlatMapPermutes(xs[..n], Without(ys, i), f);
      FlatMapWithout(ys, f, i);
    }
  }

  lemma {:induction false} FlatMapMember<T, U>(xs: seq<T>, f: T -> seq<U>, y: U)
    ensures y in FlatMap(xs, f) <==> exists x <- xs :: y in f(x)
  {
    if xs != [] {
      var n := |xs| - 1;
      assert xs == xs[..n] + [xs[n]];
      FlatMapMember(xs[..n], f, y);
    }
  }

  ghost predicate Distinct<T>(xs: seq<T>) {
    forall i, j :: 0 <= i < j < |xs| ==> xs[i] != xs[j]
  }

  /** Sequences without repetition: containing the same elements is containing the same multiset. */
  lemma {:induction false} DistinctSubset<T>(few: seq<T>, many: seq<T>)
    requires Distinct(few)
    requires forall x <- few :: x in many
    ensures multiset(few) <= multiset(many)
  {
    forall x | x in multiset(few)
      ensures multiset(few)[x] <= multiset(many)[x]
    {
      DistinctCount(few, x);
      assert x in many;
    }
  }

  lemma {:induction false} DistinctCount<T>(xs: seq<T>, x: T)
    requires Distinct(xs)
    ensures multiset(xs)[x] == if x in xs then 1 else 0
  {
    if xs != [] {
      var n := |xs| - 1;
      assert xs == xs[..n] + [xs[n]];
      DistinctCount(xs[..n], x);
    }
  }

  /** The distinct elements in order of first occurrence: the source's `[...new Set(xs)]`. */
  function FirstOccurrences<T(==,!new)>(xs: seq<T>): (r: seq<T>)
    ensures forall x :: x in r <==> x in xs
    ensures Distinct(r)
  {
    if xs == [] then []
    else
      var n := |xs| - 1;
      assert xs == xs[..n] + [xs[n]];
      var before := FirstOccurrences(xs[..n]);
      if xs[n] in before then before else before + [xs[n]]
  }

  lemma {:induction false} DistinctLength<T(!new)>(xs: seq<T>, elements: set<T>)
    requires Distinct(xs)
    requires forall x :: x in xs <==> x in elements
    ensures |xs| == |elements|
  {
    if xs == [] {
      assert elements == {};
    } else {
      var n := |xs| - 1;
      assert xs == xs[..n] + [xs[n]];
      DistinctLength(xs[..n], elements - {xs[n]});
    }
  }

  lemma SubsetSize<T>(few: set<T>, many: set<T>)
    requires few <= many
    ensures |few| <= |many|
  {
    assert many == few + (many - few);
  }

  // ---- sorting -----------------------------------------------------------------------------

  function Insert(x: real, xs: seq<real>): seq<real> {
    if xs == [] || x <= xs[0] then [x] + xs else [xs[0]] + Insert(x, xs[1..])
  }

  function Sort(xs: seq<real>): seq<real> {
    if xs == [] then [] else Insert(xs[0], Sort(xs[1..]))
  }

  ghost predicate Sorted(xs: seq<real>) {
    forall i, j :: 0 <= i < j < |xs| ==> xs[i] <= xs[j]
  }

  lemma {:induction false} InsertBoundedBelow(x: real, xs: seq<real>, low: real)
    requires low <= x
    requires forall i | 0 <= i < |xs| :: low <= xs[i]
    ensures forall i | 0 <= i < |Insert(x, xs)| :: low <= Insert(x, xs)[i]
  {
    if xs != [] && x > xs[0] {
      InsertBoundedBelow(x, xs[1..], low);
    }
  }

  lemma {:induction false} InsertKeeps(x: real, xs: seq<real>)
    ensures multiset(Insert(x, xs)) == multiset(xs) + multiset{x}
    ensures |Insert(x, xs)| == |xs| + 1
  {
    if xs != [] && x > xs[0] {
      InsertKeeps(x, xs[1..]);
      assert xs == [xs[0]] + xs[1..];
    }
  }

  lemma {:induction false} InsertSorts(x: real, xs: seq<real>)
    requires Sorted(xs)
    ensures Sorted(Insert(x, xs))
  {
    if xs != [] && x > xs[0] {
      InsertSorts(x, xs[1..]);
      InsertBoundedBelow(x, xs[1..], xs[0]);
    }
  }

  lemma {:induction false} SortSorts(xs: seq<real>)
    ensures Sorted(Sort(xs))
    ensures multiset(Sort(xs)) == multiset(xs)
    ensures |Sort(xs)| == |xs|
  {
    if xs != [] {
      SortSorts(xs[1..]);
      InsertSorts(xs[0], Sort(xs[1..]));
      InsertKeeps(xs[0], Sort(xs[1..]));
      assert xs == [xs[0]] + xs[1..];
    }
  }

  lemma SmallestFirst(xs: seq<real>, ys: seq<real>)
    requires Sorted(xs) && Sorted(ys) && multiset(xs) == multiset(ys) && xs != [] && ys != []
    ensures xs[0] == ys[0]
  {
    assert xs[0] in multiset(ys) && ys[0] in multiset(xs);
    var i :| 0 <= i < |ys| && ys[i] == xs[0];
    var j :| 0 <= j < |xs| && xs[j] == ys[0];
  }

  lemma TailMultiset<T>(xs: seq<T>)
    requires xs != []
    ensures multiset(xs[1..]) == multiset(xs) - multiset{xs[0]}
  {
    assert xs == [xs[0]] + xs[1..];
  }

  /** There is only one way to sort a multiset. */
  lemma {:induction false} SortedUnique(xs: seq<real>, ys: seq<real>)
    requires Sorted(xs) && Sorted(ys)
    requires multiset(xs) == multiset(ys)
    ensures xs == ys
  {
    assert |multiset(xs)| == |xs| && |multiset(ys)| == |ys|;
    if xs != [] {
      SmallestFirst(xs, ys);
      TailMultiset(xs);
      TailMultiset(ys);
      SortedUnique(xs[1..], ys[1..]);
      assert xs == [xs[0]] + xs[1..] && ys == [ys[0]] + ys[1..];
    }
  }

  lemma SortIgnoresOrder(xs: seq<real>, ys: seq<real>)
    requires multiset(xs) == multiset(ys)
    ensures Sort(xs) == Sort(ys)
  {
    SortSorts(xs);
    SortSorts(ys);
    SortedUnique(Sort(xs), Sort(ys));
  }
}
