/**
 Metrics, caches and the one way a cache ever grows.

 What a metric computes from its samples belongs to a crate outside this model, so a metric is the
 free structure over that crate: its kind and the samples it has taken in, in order. Merging
 appends the samples and is refused exactly when the kinds differ, leaving the older metric as it was.
 */
module Metrics {

  type Bytes = seq<bv8>

  datatype Name = Name(bytes: Bytes)

  // A sample, as an exact number: rounding is not modelled.
  type Value = real

  datatype Kind = Counter | DiffCounter | Timer | Gauge

  datatype Metric = Metric(kind: Kind, samples: seq<Value>)

  datatype Entry = Entry(name: Name, metric: Metric)

  type Cache = map<Name, Metric>

  datatype Option<+T> = None | Some(value: T)

  /** A merge into this cache would be refused: the name is taken by another kind. */
  predicate Refuses(c: Cache, e: Entry) {
    e.name in c && c[e.name].kind != e.metric.kind
  }

  /** One entry arrives in a cache. */
  function Update(c: Cache, e: Entry): Cache {
    c[e.name := if e.name in c then Absorb(c[e.name], e.metric) else e.metric]
  }

  /** Entries arrive in a cache one after another. */
  function AddAll(c: Cache, l: seq<Entry>): Cache {
    if l == [] then c else Update(AddAll(c, Front(l)), Last(l))
  }

  /** The entries of `l` that are refused while `l` is added to `c`. */
  function Refused(c: Cache, l: seq<Entry>): seq<Entry> {
    if l == [] then []
    else if Refuses(AddAll(c, Front(l)), Last(l)) then Refused(c, Front(l)) + [Last(l)]
    else Refused(c, Front(l))
  }

  /** A whole cache is poured into another. Names are distinct, so no order needs to be named. */
  function MergeInto(into: Cache, from: Cache): Cache {
    map x | x in into.Keys + from.Keys ::
      if x !in from then into[x]
      else if x !in into then from[x]
      else Absorb(into[x], from[x])
  }

  /** The older metric after a newer one is merged into it. */
  function Absorb(older: Metric, newer: Metric): Metric {
    if older.kind != newer.kind then older else Metric(older.kind, older.samples + newer.samples)
  }

  /** What is refused while `from` is poured into `into`. */
  function Conflicts(into: Cache, from: Cache): Cache {
    map x | x in from && x in into && into[x].kind != from[x].kind :: from[x]
  }

  function Front<T>(l: seq<T>): seq<T>
    requires l != []
  {
    l[..|l| - 1]
  }

  function Last<T>(l: seq<T>): T
    requires l != []
  {
    l[|l| - 1]
  }

  /** Lists joined one after another. */
  function Concat<T>(ls: seq<seq<T>>): seq<T> {
    if ls == [] then [] else Concat(Front(ls)) + Last(ls)
  }

  lemma {:induction false} ConcatHead<T>(l: seq<T>, ls: seq<seq<T>>)
    ensures Concat([l] + ls) == l + Concat(ls)
  {
    if ls == [] {
      assert [l] + ls == [l] && Front([l]) == [] && l + [] == l;
      assert Concat([l]) == Concat(Front([l])) + l == l;
    } else {
      ConcatHead(l, Front(ls));
      assert Front([l] + ls) == [l] + Front(ls) && Last([l] + ls) == Last(ls);
      Associative(l, Concat(Front(ls)), Last(ls));
    }
  }

  /** The values that are there, in order. */
  function Somes<T>(l: seq<Option<T>>): seq<T> {
    if l == [] then []
    else Somes(Front(l)) + if Last(l).Some? then [Last(l).value] else []
  }

  /** The samples a cache holds under a name. */
  function At(c: Cache, x: Name): seq<Value> {
    if x in c then c[x].samples else []
  }

  /** All the samples a list of entries brings for a name, in order. */
  function Stream(l: seq<Entry>, x: Name): seq<Value> {
    if l == [] then []
    else if Last(l).name == x then Stream(Front(l), x) + Last(l).metric.samples
    else Stream(Front(l), x)
  }

  /** The samples a list brings for a name under one kind. */
  function OfKind(l: seq<Entry>, x: Name, k: Kind): seq<Value> {
    if l == [] then []
    else if Last(l).name == x && Last(l).metric.kind == k then OfKind(Front(l), x, k) + Last(l).metric.samples
    else OfKind(Front(l), x, k)
  }

  predicate Named(l: seq<Entry>, x: Name) {
    l != [] && (Named(Front(l), x) || Last(l).name == x)
  }

  /** The kind under which a name first appears. */
  function FirstKind(l: seq<Entry>, x: Name): Kind
    requires Named(l, x)
  {
    if Named(Front(l), x) then FirstKind(Front(l), x) else Last(l).metric.kind
  }

  /** Every name is used under one kind only, the one `kinds` gives. */
  ghost predicate Typed(l: seq<Entry>, kinds: Name -> Kind) {
    forall i :: 0 <= i < |l| ==> l[i].metric.kind == kinds(l[i].name)
  }

  ghost predicate TypedCache(c: Cache, kinds: Name -> Kind) {
    forall x :: x in c ==> c[x].kind == kinds(x)
  }

  /** Two caches hold the same metrics up to the order of the samples. */
  ghost predicate SameUpToOrder(a: Cache, b: Cache) {
    && a.Keys == b.Keys
    && forall x :: x in a ==> a[x].kind == b[x].kind && multiset(a[x].samples) == multiset(b[x].samples)
  }

  /** How many times a value is held under a name. */
  function Count(c: Cache, x: Name, v: Value): nat {
    multiset(At(c, x))[v]
  }

  /** How many times a list of entries brings a value for a name. */
  function CountList(l: seq<Entry>, x: Name, v: Value): nat {
    multiset(Stream(l, x))[v]
  }

  /** The whole content of a cache after a list has been added: first kind wins, the others are skipped. */
  lemma {:induction false} AddAllContent(c: Cache, l: seq<Entry>, x: Name)
    ensures x in AddAll(c, l) <==> x in c || Named(l, x)
    ensures x in c ==>
      AddAll(c, l)[x] == Metric(c[x].kind, c[x].samples + OfKind(l, x, c[x].kind))
    ensures x !in c && Named(l, x) ==>
      AddAll(c, l)[x] == Metric(FirstKind(l, x), OfKind(l, x, FirstKind(l, x)))
  {
    if l == [] {
      if x in c {
        assert c[x].samples + [] == c[x].samples;
      }
    } else {
      AddAllContent(c, Front(l), x);
      UnnamedOfKind(Front(l), x);
      if x in c {
        var k := c[x].kind;
        assert c[x].samples + (OfKind(Front(l), x, k) + Last(l).metric.samples)
            == (c[x].samples + OfKind(Front(l), x, k)) + Last(l).metric.samples;
      }
    }
  }

  lemma {:induction false} UnnamedOfKind(l: seq<Entry>, x: Name)
    ensures !Named(l, x) ==> forall k :: OfKind(l, x, k) == []
  {
    if l != [] {
      UnnamedOfKind(Front(l), x);
    }
  }

  lemma {:induction false} TypedStream(l: seq<Entry>, x: Name, kinds: Name -> Kind)
    requires Typed(l, kinds)
    ensures OfKind(l, x, kinds(x)) == Stream(l, x)
    ensures Named(l, x) ==> FirstKind(l, x) == kinds(x)
    ensures !Named(l, x) ==> Stream(l, x) == []
  {
    if l != [] {
      TypedStream(Front(l), x, kinds);
    }
  }

  /** With one kind per name nothing is refused and a cache is plain concatenation, name by name. */
  lemma {:induction false} TypedAddAll(c: Cache, l: seq<Entry>, kinds: Name -> Kind)
    requires TypedCache(c, kinds) && Typed(l, kinds)
    ensures TypedCache(AddAll(c, l), kinds)
    ensures forall x :: At(AddAll(c, l), x) == At(c, x) + Stream(l, x)
    ensures forall x :: x in AddAll(c, l) <==> x in c || Named(l, x)
    ensures Refused(c, l) == []
  {
    forall x
      ensures At(AddAll(c, l), x) == At(c, x) + Stream(l, x)
      ensures x in AddAll(c, l) <==> x in c || Named(l, x)
      ensures x in AddAll(c, l) ==> AddAll(c, l)[x].kind == kinds(x)
    {
      AddAllContent(c, l, x);
      TypedStream(l, x, kinds);
    }
    if l != [] {
      TypedAddAll(c, Front(l), kinds);
    }
  }

  /** How many times one entry brings a value for a name. */
  function CountOne(e: Entry, x: Name, v: Value): nat {
    if e.name == x then multiset(e.metric.samples)[v] else 0
  }

  lemma CountListStep(l: seq<Entry>, e: Entry, x: Name, v: Value)
    ensures CountList(l + [e], x, v) == CountList(l, x, v) + CountOne(e, x, v)
  {
    assert Front(l + [e]) == l;
  }

  lemma CountListLast(l: seq<Entry>, x: Name, v: Value)
    requires l != []
    ensures CountList(l, x, v) == CountList(Front(l), x, v) + CountOne(Last(l), x, v)
  {
    assert l == Front(l) + [Last(l)];
    CountListStep(Front(l), Last(l), x, v);
  }

  lemma UpdateCount(c: Cache, e: Entry, x: Name, v: Value)
    ensures Count(Update(c, e), x, v) + (if Refuses(c, e) then CountOne(e, x, v) else 0)
         == Count(c, x, v) + CountOne(e, x, v)
  {
  }

  /** Nothing is created or destroyed by adding a list: it is in the cache or among the refused. */
  lemma {:induction false} AddAllCount(c: Cache, l: seq<Entry>, x: Name, v: Value)
    ensures Count(AddAll(c, l), x, v) + CountList(Refused(c, l), x, v) == Count(c, x, v) + CountList(l, x, v)
  {
    if l != [] {
      AddAllCount(c, Front(l), x, v);
      CountListLast(l, x, v);
      CountListStep(Refused(c, Front(l)), Last(l), x, v);
      UpdateCount(AddAll(c, Front(l)), Last(l), x, v);
    }
  }

  /** The same for pouring one cache into another. */
  lemma MergeIntoCount(into: Cache, from: Cache, x: Name, v: Value)
    ensures Count(MergeInto(into, from), x, v) + Count(Conflicts(into, from), x, v)
         == Count(into, x, v) + Count(from, x, v)
  {
  }

  lemma TypedMerge(a: Cache, b: Cache, kinds: Name -> Kind)
    requires TypedCache(a, kinds) && TypedCache(b, kinds)
    ensures TypedCache(MergeInto(a, b), kinds)
    ensures Conflicts(a, b) == map[]
    ensures forall x :: At(MergeInto(a, b), x) == At(a, x) + At(b, x)
    ensures MergeInto(a, b).Keys == a.Keys + b.Keys
  {
  }

  lemma {:induction false} StreamConcat(a: seq<Entry>, b: seq<Entry>, x: Name)
    ensures Stream(a + b, x) == Stream(a, x) + Stream(b, x)
    ensures Named(a + b, x) <==> Named(a, x) || Named(b, x)
  {
    if b == [] {
      assert a + b == a;
    } else {
      StreamConcat(a, Front(b), x);
      assert Front(a + b) == a + Front(b);
      assert Last(a + b) == Last(b);
    }
  }

  lemma Associative<T>(a: seq<T>, b: seq<T>, c: seq<T>)
    ensures a + (b + c) == (a + b) + c
  {
  }

  lemma CountListConcat(a: seq<Entry>, b: seq<Entry>, x: Name, v: Value)
    ensures CountList(a + b, x, v) == CountList(a, x, v) + CountList(b, x, v)
  {
    StreamConcat(a, b, x);
  }

  lemma {:induction false} AddAllConcat(c: Cache, a: seq<Entry>, b: seq<Entry>)
    ensures AddAll(c, a + b) == AddAll(AddAll(c, a), b)
    ensures Refused(c, a + b) == Refused(c, a) + Refused(AddAll(c, a), b)
  {
    if b == [] {
      assert a + b == a;
    } else {
      AddAllConcat(c, a, Front(b));
      assert Front(a + b) == a + Front(b);
      assert Last(a + b) == Last(b);
    }
  }
}
