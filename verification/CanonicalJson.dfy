/**
 * The canonical form behind the payload hash: `stabilize` in apps/server/src/db/eventRepository.ts.
 * Values are trees; an object lists its own keys in the order JavaScript enumerates them.
 */
module CanonicalJson {
  import opened Decimals
  import opened Sequences

  datatype Json =
    | Null
    | Bool(b: bool)
    | Number(n: real)
    | Text(s: string)
    | Array(items: seq<Json>)
    | Object(fields: seq<Field>)

  datatype Field = Field(key: string, value: Json)

  // ---- key orders ---------------------------------------------------------------------------

  /** The order of `Array.prototype.sort` on strings. */
  predicate TextBefore(a: string, b: string) {
    b != [] && (a == [] || a[0] < b[0] || (a[0] == b[0] && TextBefore(a[1..], b[1..])))
  }

  /** An array index: objects enumerate these keys first, by value. */
  predicate IsIndex(key: string) {
    key == Digits(Value(key)) && Value(key) < 0xFFFF_FFFF
  }

  predicate ValueBefore(a: string, b: string) {
    Value(a) < Value(b)
  }

  predicate KeyBefore(a: string, b: string) {
    if IsIndex(a) then IsIndex(b) ==> ValueBefore(a, b) else !IsIndex(b) && TextBefore(a, b)
  }

  type Order = (string, string) -> bool

  function InsertField(f: Field, fields: seq<Field>, before: Order): seq<Field> {
    if fields == [] || before(f.key, fields[0].key) then [f] + fields
    else [fields[0]] + InsertField(f, fields[1..], before)
  }

  function SortFields(fields: seq<Field>, before: Order): seq<Field> {
    if fields == [] then [] else InsertField(fields[0], SortFields(fields[1..], before), before)
  }

  function Select(fields: seq<Field>, index: bool): seq<Field> {
    if fields == [] then []
    else (if IsIndex(fields[0].key) == index then [fields[0]] else []) + Select(fields[1..], index)
  }

  /** `Object.fromEntries`: the new object enumerates index keys by value, then the rest as they came. */
  function FromEntries(entries: seq<Field>): seq<Field> {
    SortFields(Select(entries, true), ValueBefore) + Select(entries, false)
  }

  function Arrange(fields: seq<Field>): seq<Field> {
    FromEntries(SortFields(fields, TextBefore))
  }

  // ---- the canonical form -------------------------------------------------------------------

  function Stabilize(v: Json): Json {
    match v
    case Array(items) => Array(seq(|items|, i requires 0 <= i < |items| => Stabilize(items[i])))
    case Object(fields) =>
      Object(Arrange(seq(|fields|, i requires 0 <= i < |fields| => Field(fields[i].key, Stabilize(fields[i].value)))))
    case _ => v
  }

  predicate DistinctKeys(fields: seq<Field>) {
    forall i, j | 0 <= i < j < |fields| :: fields[i].key != fields[j].key
  }

  /** No object in the tree holds a key twice. */
  predicate WellFormed(v: Json) {
    match v
    case Array(items) => forall i | 0 <= i < |items| :: WellFormed(items[i])
    case Object(fields) => DistinctKeys(fields) && forall i | 0 <= i < |fields| :: WellFormed(fields[i].value)
    case _ => true
  }

  /** The same value but for the order of object keys, at any depth. */
  ghost predicate SameButForKeyOrder(a: Json, b: Json) {
    match a
    case Array(items) =>
      && b.Array? && |b.items| == |items|
      && forall i | 0 <= i < |items| :: SameButForKeyOrder(items[i], b.items[i])
    case Object(fields) =>
      && b.Object? && |b.fields| == |fields|
      && forall i | 0 <= i < |fields| :: HasCounterpart(fields[i], b.fields)
    case _ => a == b
  }

  ghost predicate HasCounterpart(f: Field, fields: seq<Field>) {
    exists j | 0 <= j < |fields| :: fields[j].key == f.key && SameButForKeyOrder(f.value, fields[j].value)
  }

  // ---- sorting ------------------------------------------------------------------------------

  ghost predicate Sorted(fields: seq<Field>, before: Order) {
    forall i, j | 0 <= i < j < |fields| :: before(fields[i].key, fields[j].key)
  }

  ghost predicate Transitive(before: Order) {
    forall a, b, c :: before(a, b) && before(b, c) ==> before(a, c)
  }

  /** The order decides between any two different keys present. */
  ghost predicate Decides(before: Order, fields: seq<Field>) {
    forall f, g | f in fields && g in fields && f.key != g.key :: before(f.key, g.key) || before(g.key, f.key)
  }

  lemma {:induction false} InsertKeepsFields(f: Field, fields: seq<Field>, before: Order)
    ensures multiset(InsertField(f, fields, before)) == multiset(fields) + multiset{f}
  {
    if fields != [] && !before(f.key, fields[0].key) {
      InsertKeepsFields(f, fields[1..], before);
      assert fields == [fields[0]] + fields[1..];
    }
  }

  lemma {:induction false} SortKeepsFields(fields: seq<Field>, before: Order)
    ensures multiset(SortFields(fields, before)) == multiset(fields)
  {
    if fields != [] {
      SortKeepsFields(fields[1..], before);
      InsertKeepsFields(fields[0], SortFields(fields[1..], before), before);
      assert fields == [fields[0]] + fields[1..];
    }
  }

  lemma SameMembers(xs: seq<Field>, ys: multiset<Field>)
    requires multiset(xs) == ys
    ensures forall f :: f in xs <==> f in ys
  {
    forall f
      ensures f in xs <==> f in multiset(xs)
    {
    }
  }

  lemma {:induction false} InsertSortsFields(f: Field, fields: seq<Field>, before: Order)
    requires Transitive(before) && Sorted(fields, before)
    requires forall g <- fields :: before(f.key, g.key) || before(g.key, f.key)
    ensures Sorted(InsertField(f, fields, before), before)
  {
    if fields != [] {
      if before(f.key, fields[0].key) {
        assert forall i | 0 < i < |fields| :: before(f.key, fields[i].key);
      } else {
        InsertSortsFields(f, fields[1..], before);
        var rest := InsertField(f, fields[1..], before);
        InsertKeepsFields(f, fields[1..], before);
        forall i | 0 <= i < |rest|
          ensures before(fields[0].key, rest[i].key)
        {
          assert rest[i] in multiset(rest);
          assert rest[i] == f || rest[i] in fields[1..];
        }
      }
    }
  }

  lemma {:induction false} SortSortsFields(fields: seq<Field>, before: Order)
    requires Transitive(before) && Decides(before, fields) && DistinctKeys(fields)
    ensures Sorted(SortFields(fields, before), before)
  {
    if fields != [] {
      var rest := SortFields(fields[1..], before);
      SortSortsFields(fields[1..], before);
      SortKeepsFields(fields[1..], before);
      SameMembers(rest, multiset(fields[1..]));
      forall g <- rest
        ensures before(fields[0].key, g.key) || before(g.key, fields[0].key)
      {
        assert g in fields[1..];
      }
      InsertSortsFields(fields[0], rest, before);
    }
  }

  ghost predicate Asymmetric(before: Order) {
    forall a, b :: before(a, b) ==> !before(b, a)
  }

  lemma HeadsAgree(xs: seq<Field>, ys: seq<Field>, before: Order)
    requires Sorted(xs, before) && Sorted(ys, before) && multiset(xs) == multiset(ys)
    requires Asymmetric(before) && xs != [] && ys != []
    ensures xs[0] == ys[0]
  {
    assert xs[0] in multiset(ys) && ys[0] in multiset(xs);
    var i :| 0 <= i < |xs| && xs[i] == ys[0];
    var j :| 0 <= j < |ys| && ys[j] == xs[0];
    assert i > 0 ==> before(xs[0].key, xs[i].key);
    assert j > 0 ==> before(ys[0].key, ys[j].key);
  }

  /** There is only one way to put fields in a strict order. */
  lemma {:induction false} SortedOnce(xs: seq<Field>, ys: seq<Field>, before: Order)
    requires Sorted(xs, before) && Sorted(ys, before) && multiset(xs) == multiset(ys)
    requires Asymmetric(before)
    ensures xs == ys
  {
    hide Asymmetric;
    assert |multiset(xs)| == |xs| && |multiset(ys)| == |ys|;
    if xs != [] {
      HeadsAgree(xs, ys, before);
      TailMultiset(xs);
      TailMultiset(ys);
      SortedOnce(xs[1..], ys[1..], before);
      assert xs == [xs[0]] + xs[1..] && ys == [ys[0]] + ys[1..];
    }
  }

  // ---- the two orders -----------------------------------------------------------------------

  lemma {:induction false} TextTransitive(a: string, b: string, c: string)
    requires TextBefore(a, b) && TextBefore(b, c)
    ensures TextBefore(a, c)
  {
    if a != [] && a[0] == b[0] == c[0] {
      TextTransitive(a[1..], b[1..], c[1..]);
    }
  }

  lemma {:induction false} TextDecides(a: string, b: string)
    ensures a == b || TextBefore(a, b) || TextBefore(b, a)
    ensures !(TextBefore(a, b) && TextBefore(b, a))
  {
    if a != [] && b != [] && a[0] == b[0] {
      TextDecides(a[1..], b[1..]);
      assert a == [a[0]] + a[1..] && b == [b[0]] + b[1..];
    }
  }

  lemma TextOrder(fields: seq<Field>)
    ensures Transitive(TextBefore) && Decides(TextBefore, fields)
  {
    forall a, b, c | TextBefore(a, b) && TextBefore(b, c) {
      TextTransitive(a, b, c);
    }
    forall a, b
      ensures a == b || TextBefore(a, b) || TextBefore(b, a)
    {
      TextDecides(a, b);
    }
  }

  lemma KeyOrder()
    ensures Asymmetric(KeyBefore)
  {
    forall a, b | KeyBefore(a, b)
      ensures !KeyBefore(b, a)
    {
      TextDecides(a, b);
    }
  }

  lemma {:induction false} SelectSplits(fields: seq<Field>)
    ensures multiset(Select(fields, true)) + multiset(Select(fields, false)) == multiset(fields)
  {
    if fields != [] {
      SelectSplits(fields[1..]);
      assert fields == [fields[0]] + fields[1..];
    }
  }

  lemma {:induction false} SelectSorted(fields: seq<Field>, index: bool, before: Order)
    requires Sorted(fields, before)
    ensures Sorted(Select(fields, index), before)
    ensures forall f <- Select(fields, index) :: f in fields && IsIndex(f.key) == index
  {
    if fields != [] {
      SelectSorted(fields[1..], index, before);
      forall f <- Select(fields[1..], index)
        ensures before(fields[0].key, f.key)
      {
        assert f in fields[1..];
      }
    }
  }

  /** Different index keys have different values, so sorting by value leaves nothing open. */
  lemma IndexKeysDecided(fields: seq<Field>)
    requires forall f <- fields :: IsIndex(f.key)
    ensures Decides(ValueBefore, fields) && Transitive(ValueBefore)
  {
  }

  lemma SortedDistinct(fields: seq<Field>, before: Order)
    requires Sorted(fields, before) && Asymmetric(before)
    ensures DistinctKeys(fields)
  {
    forall i, j | 0 <= i < j < |fields|
      ensures fields[i].key != fields[j].key
    {
      assert before(fields[i].key, fields[j].key);
    }
  }

  /** An object made from entries sorted as text enumerates its keys in the canonical order. */
  lemma ArrangeSorts(fields: seq<Field>)
    requires DistinctKeys(fields)
    ensures Sorted(Arrange(fields), KeyBefore) && multiset(Arrange(fields)) == multiset(fields)
  {
    hide TextBefore, ValueBefore, IsIndex, SortFields, Select;
    var entries := SortFields(fields, TextBefore);
    TextOrder(fields);
    SortSortsFields(fields, TextBefore);
    SortKeepsFields(fields, TextBefore);
    var indices, texts := Select(entries, true), Select(entries, false);
    SelectSplits(entries);
    SelectSorted(entries, true, TextBefore);
    SelectSorted(entries, false, TextBefore);
    TextAsymmetric();
    SortedDistinct(indices, TextBefore);
    IndexKeysDecided(indices);
    SortSortsFields(indices, ValueBefore);
    SortKeepsFields(indices, ValueBefore);
    var sorted := SortFields(indices, ValueBefore);
    SameMembers(sorted, multiset(indices));
    JoinSorted(sorted, texts);
  }

  lemma TextAsymmetric()
    ensures Asymmetric(TextBefore)
  {
    forall a, b | TextBefore(a, b)
      ensures !TextBefore(b, a)
    {
      TextDecides(a, b);
    }
  }

  lemma JoinSorted(indices: seq<Field>, texts: seq<Field>)
    requires Sorted(indices, ValueBefore) && forall f <- indices :: IsIndex(f.key)
    requires Sorted(texts, TextBefore) && forall f <- texts :: !IsIndex(f.key)
    ensures Sorted(indices + texts, KeyBefore)
  {
    hide TextBefore, ValueBefore, IsIndex;
    var all := indices + texts;
    forall i, j | 0 <= i < j < |all|
      ensures KeyBefore(all[i].key, all[j].key)
    {
      assert all[i] == if i < |indices| then indices[i] else texts[i - |indices|];
      assert all[j] == if j < |indices| then indices[j] else texts[j - |indices|];
    }
  }

  // ---- what the canonical form keeps and forgets --------------------------------------------

  ghost function Stable(fields: seq<Field>): seq<Field> {
    seq(|fields|, i requires 0 <= i < |fields| => Field(fields[i].key, Stabilize(fields[i].value)))
  }

  lemma StabilizeObject(fields: seq<Field>)
    ensures Stabilize(Object(fields)) == Object(Arrange(Stable(fields)))
  {
    assert Stable(fields) ==
           seq(|fields|, i requires 0 <= i < |fields| => Field(fields[i].key, Stabilize(fields[i].value)));
  }

  /** Fields of a stabilized object are fields of the original with stabilized values. */
  lemma StableMembers(fields: seq<Field>)
    requires DistinctKeys(fields)
    ensures forall f :: f in Arrange(Stable(fields)) <==> f in Stable(fields)
    ensures Sorted(Arrange(Stable(fields)), KeyBefore) && DistinctKeys(Arrange(Stable(fields)))
  {
    hide Arrange;
    ArrangeSorts(Stable(fields));
    SameMembers(Arrange(Stable(fields)), multiset(Stable(fields)));
    KeyOrder();
    SortedDistinct(Arrange(Stable(fields)), KeyBefore);
  }

  lemma ArrangeSorted(fields: seq<Field>)
    requires Sorted(fields, KeyBefore)
    ensures Arrange(fields) == fields
  {
    hide Arrange, KeyBefore;
    KeyOrder();
    SortedDistinct(fields, KeyBefore);
    ArrangeSorts(fields);
    SortedOnce(Arrange(fields), fields, KeyBefore);
  }

  /** The canonical form of a canonical form is itself. */
  lemma {:induction false} StabilizeTwice(v: Json)
    requires WellFormed(v)
    ensures WellFormed(Stabilize(v)) && Stabilize(Stabilize(v)) == Stabilize(v)
  {
    match v
    case Array(items) =>
      forall i | 0 <= i < |items| {
        StabilizeTwice(items[i]);
      }
    case Object(fields) =>
      hide Arrange, KeyBefore;
      forall i | 0 <= i < |fields| {
        StabilizeTwice(fields[i].value);
      }
      var arranged := Arrange(Stable(fields));
      StabilizeObject(fields);
      StableMembers(fields);
      forall k | 0 <= k < |arranged|
        ensures WellFormed(arranged[k].value) && Stabilize(arranged[k].value) == arranged[k].value
      {
        assert arranged[k] in Stable(fields);
      }
      assert Stable(arranged) == arranged;
      StabilizeObject(arranged);
      ArrangeSorted(arranged);
    case _ =>
  }

  lemma SameItems(xs: seq<Json>, ys: seq<Json>)
    requires |xs| == |ys| && forall i | 0 <= i < |xs| ::
               Stabilize(xs[i]) == Stabilize(ys[i]) <==> SameButForKeyOrder(xs[i], ys[i])
    ensures Stabilize(Array(xs)) == Stabilize(Array(ys)) <==> SameButForKeyOrder(Array(xs), Array(ys))
  {
    var p, q := Stabilize(Array(xs)).items, Stabilize(Array(ys)).items;
    assert forall i | 0 <= i < |xs| :: p[i] == Stabilize(xs[i]) && q[i] == Stabilize(ys[i]);
    if SameButForKeyOrder(Array(xs), Array(ys)) {
      assert p == q;
    } else {
      var i :| 0 <= i < |xs| && !SameButForKeyOrder(xs[i], ys[i]);
      assert p[i] != q[i];
    }
  }

  /** Each field has a counterpart with the same key and the same canonical value. */
  ghost predicate Matched(xs: seq<Field>, ys: seq<Field>) {
    |xs| == |ys| && forall f <- Stable(xs) :: f in Stable(ys)
  }

  lemma MatchedArrange(xs: seq<Field>, ys: seq<Field>)
    requires DistinctKeys(xs) && DistinctKeys(ys)
    ensures Matched(xs, ys) <==> Arrange(Stable(xs)) == Arrange(Stable(ys))
  {
    hide Arrange, KeyBefore;
    var p, q := Stable(xs), Stable(ys);
    StableMembers(xs);
    StableMembers(ys);
    ArrangeSorts(p);
    ArrangeSorts(q);
    assert |multiset(p)| == |p| && |multiset(q)| == |q|;
    if Matched(xs, ys) {
      assert Distinct(p);
      DistinctSubset(p, q);
      SameSize(multiset(p), multiset(q));
      KeyOrder();
      SortedOnce(Arrange(p), Arrange(q), KeyBefore);
    }
    assert Arrange(p) == Arrange(q) ==> |p| == |q|;
  }

  lemma SameSize<T>(few: multiset<T>, many: multiset<T>)
    requires few <= many && |few| == |many|
    ensures few == many
  {
    assert many == few + (many - few);
  }

  lemma SameFields(xs: seq<Field>, ys: seq<Field>)
    requires DistinctKeys(xs) && DistinctKeys(ys)
    requires forall i, j | 0 <= i < |xs| && 0 <= j < |ys| ::
               Stabilize(xs[i].value) == Stabilize(ys[j].value) <==> SameButForKeyOrder(xs[i].value, ys[j].value)
    ensures Stabilize(Object(xs)) == Stabilize(Object(ys)) <==> SameButForKeyOrder(Object(xs), Object(ys))
  {
    hide Arrange, Stabilize;
    StabilizeObject(xs);
    StabilizeObject(ys);
    MatchedArrange(xs, ys);
    var p, q := Stable(xs), Stable(ys);
    forall i | 0 <= i < |p|
      ensures p[i] in q <==> HasCounterpart(xs[i], ys)
    {
      if HasCounterpart(xs[i], ys) {
        var j :| 0 <= j < |ys| && ys[j].key == xs[i].key && SameButForKeyOrder(xs[i].value, ys[j].value);
        assert p[i] == q[j];
      }
      if p[i] in q {
        var j :| 0 <= j < |q| && q[j] == p[i];
        assert ys[j].key == xs[i].key && SameButForKeyOrder(xs[i].value, ys[j].value);
      }
    }
  }

  /** Two payloads have one canonical form exactly when they differ only in the order of object keys. */
  lemma {:induction false} SameForm(a: Json, b: Json)
    requires WellFormed(a) && WellFormed(b)
    ensures Stabilize(a) == Stabilize(b) <==> SameButForKeyOrder(a, b)
    decreases a
  {
    if a.Array? && b.Array? && |a.items| == |b.items| {
      forall i | 0 <= i < |a.items| {
        SameForm(a.items[i], b.items[i]);
      }
      SameItems(a.items, b.items);
    } else if a.Object? && b.Object? {
      forall i, j | 0 <= i < |a.fields| && 0 <= j < |b.fields| {
        SameForm(a.fields[i].value, b.fields[j].value);
      }
      SameFields(a.fields, b.fields);
    } else if a.Array? && b.Array? {
      assert |Stabilize(a).items| == |a.items| && |Stabilize(b).items| == |b.items|;
    }
  }
}
