/** Sums of a measure over a sequence or a map, and loops that take a map apart. */
module Sums {
  import opened Metrics

  function Sum<T>(s: seq<T>, f: T -> nat): nat {
    if s == [] then 0 else Sum(Front(s), f) + f(Last(s))
  }

  /** `c` taken `k` times. */
  function Repeat(k: nat, c: nat): nat {
    if k == 0 then 0 else Repeat(k - 1, c) + c
  }

  lemma {:induction false} RepeatSum(k: nat, a: nat, b: nat)
    ensures Repeat(k, a + b) == Repeat(k, a) + Repeat(k, b)
  {
    if k > 0 {
      RepeatSum(k - 1, a, b);
    }
  }

  lemma {:induction false} RepeatZero(k: nat)
    ensures Repeat(k, 0) == 0
  {
    if k > 0 {
      RepeatZero(k - 1);
    }
  }

  lemma {:induction false} SumConcat<T>(a: seq<T>, b: seq<T>, f: T -> nat)
    ensures Sum(a + b, f) == Sum(a, f) + Sum(b, f)
  {
    if b == [] {
      assert a + b == a;
    } else {
      SumConcat(a, Front(b), f);
      assert Front(a + b) == a + Front(b) && Last(a + b) == Last(b);
    }
  }

  lemma SumSplit<T>(s: seq<T>, i: nat, f: T -> nat)
    requires i < |s|
    ensures Sum(s, f) == Sum(s[..i], f) + f(s[i]) + Sum(s[i + 1..], f)
  {
    assert s == s[..i + 1] + s[i + 1..];
    SumConcat(s[..i + 1], s[i + 1..], f);
    SumPrefix(s, i + 1, f);
  }

  lemma SumWithout<T>(s: seq<T>, i: nat, f: T -> nat)
    requires i < |s|
    ensures Sum(s, f) == Sum(s[..i] + s[i + 1..], f) + f(s[i])
  {
    SumSplit(s, i, f);
    SumConcat(s[..i], s[i + 1..], f);
  }

  lemma SumHead<T>(s: seq<T>, f: T -> nat)
    requires s != []
    ensures Sum(s, f) == f(s[0]) + Sum(s[1..], f)
  {
    SumWithout(s, 0, f);
    assert s[..0] + s[1..] == s[1..];
  }

  lemma SumUpdate<T>(s: seq<T>, i: nat, t: T, f: T -> nat)
    requires i < |s|
    ensures Sum(s[i := t], f) + f(s[i]) == Sum(s, f) + f(t)
  {
    SumSplit(s, i, f);
    SumSplit(s[i := t], i, f);
    assert s[i := t][..i] == s[..i] && s[i := t][i + 1..] == s[i + 1..];
  }

  lemma SumPrefix<T>(s: seq<T>, k: nat, f: T -> nat)
    requires 0 < k <= |s|
    ensures Sum(s[..k], f) == Sum(s[..k - 1], f) + f(s[k - 1])
  {
    assert Front(s[..k]) == s[..k - 1];
  }

  lemma SumAppend<T>(s: seq<T>, t: T, f: T -> nat)
    ensures Sum(s + [t], f) == Sum(s, f) + f(t)
  {
    assert Front(s + [t]) == s;
  }

  lemma {:induction false} SumZero<T>(s: seq<T>, f: T -> nat)
    requires forall i :: 0 <= i < |s| ==> f(s[i]) == 0
    ensures Sum(s, f) == 0
  {
    if s != [] {
      SumZero(Front(s), f);
    }
  }

  /** Term by term no more, so in total no more, and in total the same only if term by term the same. */
  lemma {:induction false} SumTight<A, B>(a: seq<A>, f: A -> nat, b: seq<B>, g: B -> nat)
    requires |a| == |b| && forall i :: 0 <= i < |a| ==> f(a[i]) <= g(b[i])
    ensures Sum(a, f) <= Sum(b, g)
    ensures Sum(a, f) == Sum(b, g) ==> forall i :: 0 <= i < |a| ==> f(a[i]) == g(b[i])
  {
    if a != [] {
      SumTight(Front(a), f, Front(b), g);
      assert forall i :: 0 <= i < |a| - 1 ==> a[i] == Front(a)[i] && b[i] == Front(b)[i];
    }
  }

  lemma {:induction false} SumSame<A, B>(a: seq<A>, f: A -> nat, b: seq<B>, g: B -> nat)
    requires |a| == |b| && forall i :: 0 <= i < |a| ==> f(a[i]) == g(b[i])
    ensures Sum(a, f) == Sum(b, g)
  {
    if a != [] {
      SumSame(Front(a), f, Front(b), g);
    }
  }

  lemma BagOfFront<T>(a: seq<T>)
    requires a != []
    ensures multiset(a) == multiset(Front(a)) + multiset{Last(a)}
  {
    assert a == Front(a) + [Last(a)];
  }

  lemma BagWithout<T>(b: seq<T>, i: nat)
    requires i < |b|
    ensures multiset(b) == multiset(b[..i] + b[i + 1..]) + multiset{b[i]}
  {
    assert b == (b[..i] + [b[i]]) + b[i + 1..];
  }

  lemma BagCancel<T>(a: multiset<T>, b: multiset<T>, t: T)
    requires a + multiset{t} == b + multiset{t}
    ensures a == b
  {
    assert a == (a + multiset{t}) - multiset{t};
    assert b == (b + multiset{t}) - multiset{t};
  }

  lemma PermutationRest<T>(a: seq<T>, b: seq<T>, i: nat)
    requires a != [] && i < |b| && multiset(a) == multiset(b) && b[i] == Last(a)
    ensures multiset(Front(a)) == multiset(b[..i] + b[i + 1..])
  {
    BagOfFront(a);
    BagWithout(b, i);
    BagCancel(multiset(Front(a)), multiset(b[..i] + b[i + 1..]), b[i]);
  }

  /** A sum does not depend on the order of its terms. */
  lemma {:induction false} SumPermutation<T>(a: seq<T>, b: seq<T>, f: T -> nat)
    requires multiset(a) == multiset(b)
    ensures Sum(a, f) == Sum(b, f)
  {
    if a == [] {
      assert |multiset(b)| == 0;
    } else {
      assert Last(a) in multiset(b);
      var i :| 0 <= i < |b| && b[i] == Last(a);
      PermutationRest(a, b, i);
      SumPermutation(Front(a), b[..i] + b[i + 1..], f);
      SumWithout(b, i, f);
    }
  }

  /** The sum of a measure over the entries of a map. */
  ghost function SumMap<K, V>(m: map<K, V>, f: (K, V) -> nat): nat {
    if m == map[] then 0 else var k :| k in m; f(k, m[k]) + SumMap(m - {k}, f)
  }

  lemma RemoveTwo<K, V>(m: map<K, V>, k: K, j: K)
    ensures (m - {k}) - {j} == (m - {j}) - {k}
  {
    assert (m - {k}) - {j} == m - {k, j} == (m - {j}) - {k};
  }

  /** Any entry may be taken out first. */
  lemma {:induction false} SumMapRemove<K, V>(m: map<K, V>, k: K, f: (K, V) -> nat)
    requires k in m
    ensures SumMap(m, f) == f(k, m[k]) + SumMap(m - {k}, f)
    decreases |m|
  {
    var j :| j in m && SumMap(m, f) == f(j, m[j]) + SumMap(m - {j}, f);
    if j != k {
      assert (m - {j}).Keys == m.Keys - {j};
      SumMapRemove(m - {j}, k, f);
      assert (m - {k}).Keys == m.Keys - {k};
      SumMapRemove(m - {k}, j, f);
      RemoveTwo(m, k, j);
    }
  }

  lemma SumMapPut<K, V>(m: map<K, V>, k: K, v: V, f: (K, V) -> nat)
    ensures SumMap(m[k := v], f) == f(k, v) + SumMap(m - {k}, f)
  {
    SumMapRemove(m[k := v], k, f);
    assert m[k := v] - {k} == m - {k};
  }

  /** A map split in two by key: what a loop over it has taken, and what is left. */
  ghost predicate Split<K(!new), V>(whole: map<K, V>, taken: map<K, V>, rest: map<K, V>) {
    && (forall x :: x in whole <==> x in taken || x in rest)
    && (forall x :: x in taken ==> x !in rest && taken[x] == whole[x])
    && (forall x :: x in rest ==> rest[x] == whole[x])
  }

  lemma SplitStep<K(!new), V>(whole: map<K, V>, taken: map<K, V>, rest: map<K, V>, key: K)
    requires Split(whole, taken, rest) && key in rest
    ensures Split(whole, taken[key := rest[key]], rest - {key})
  {
  }

  lemma Smaller<K, V>(rest: map<K, V>, key: K)
    requires key in rest
    ensures |rest - {key}| < |rest|
  {
    assert (rest - {key}).Keys == rest.Keys - {key};
  }

  lemma SplitEnd<K(!new), V>(whole: map<K, V>, taken: map<K, V>, rest: map<K, V>)
    requires Split(whole, taken, rest) && |rest| == 0
    ensures taken == whole
  {
    assert rest.Keys == {};
  }
}
