/**
 Snapshots on their way to a peer: the caches of all workers are flattened into one numbered list,
 and the peer adds that list to a long cache. Whatever order the maps are walked in, the peer ends
 up as if every cache had been poured in whole.
 */
module Snapshots {
  import opened Metrics
  import opened TaskRunners
  import opened Sums

  /** `l` names every entry of `c` once, in some order. */
  ghost predicate IsListing(c: Cache, l: seq<Entry>) {
    if l == [] then
      c == map[]
    else
      var e := Last(l);
      e.name in c && c[e.name] == e.metric && IsListing(c - {e.name}, Front(l))
  }

  /** `l` lists the caches one after another, each in some order of its own. */
  ghost predicate IsFlattening(caches: seq<Cache>, l: seq<Entry>) {
    if caches == [] then
      l == []
    else
      var n := |l| - |Last(caches)|;
      n >= 0 && IsFlattening(Front(caches), l[..n]) && IsListing(Last(caches), l[n..])
  }

  /** All the caches poured into one, first to last. */
  function MergeAll(into: Cache, caches: seq<Cache>): Cache {
    if caches == [] then into else MergeInto(MergeAll(into, Front(caches)), Last(caches))
  }

  function TotalLen(caches: seq<Cache>): nat {
    if caches == [] then 0 else TotalLen(Front(caches)) + |Last(caches)|
  }

  function CountAll(caches: seq<Cache>, x: Name, v: Value): nat {
    Sum(caches, CacheOf(x, v))
  }

  function CacheOf(x: Name, v: Value): Cache -> nat {
    (c: Cache) => Count(c, x, v)
  }

  /** What a name holds across the caches, one after another. */
  function AtAll(caches: seq<Cache>, x: Name): seq<Value> {
    if caches == [] then [] else AtAll(Front(caches), x) + At(Last(caches), x)
  }

  /** The caches that hold anything. */
  function Retain(caches: seq<Cache>): seq<Cache> {
    if caches == [] then []
    else Retain(Front(caches)) + if |Last(caches)| > 0 then [Last(caches)] else []
  }

  lemma AppendCache(into: Cache, caches: seq<Cache>, c: Cache, x: Name, v: Value)
    ensures MergeAll(into, caches + [c]) == MergeInto(MergeAll(into, caches), c)
    ensures CountAll(caches + [c], x, v) == CountAll(caches, x, v) + Count(c, x, v)
  {
    assert Front(caches + [c]) == caches && Last(caches + [c]) == c;
  }

  // ---------- listings ----------

  lemma ListingStep(c: Cache, l: seq<Entry>, name: Name, metric: Metric)
    requires IsListing(c, l) && name !in c
    ensures IsListing(c[name := metric], l + [Entry(name, metric)])
  {
    assert Front(l + [Entry(name, metric)]) == l;
    assert c[name := metric] - {name} == c;
  }

  lemma {:induction false} ListingLen(c: Cache, l: seq<Entry>)
    requires IsListing(c, l)
    ensures |l| == |c|
  {
    if l != [] {
      var less := c - {Last(l).name};
      ListingLen(less, Front(l));
      assert less.Keys == c.Keys - {Last(l).name};
    }
  }

  lemma PutBack(c: Cache, name: Name)
    requires name in c
    ensures (c - {name})[name := c[name]] == c
  {
  }

  /** Adding a listing entry by entry is pouring the cache in, whatever the kinds. */
  lemma {:induction false} AddListing(into: Cache, c: Cache, l: seq<Entry>)
    requires IsListing(c, l)
    ensures AddAll(into, l) == MergeInto(into, c)
  {
    if l == [] {
      MergeNothing(into);
    } else {
      var e := Last(l);
      AddListing(into, c - {e.name}, Front(l));
      DrainStep(into, c - {e.name}, e.name, e.metric);
      PutBack(c, e.name);
    }
  }

  lemma {:induction false} CountListing(c: Cache, l: seq<Entry>, x: Name, v: Value)
    requires IsListing(c, l)
    ensures CountList(l, x, v) == Count(c, x, v)
  {
    if l != [] {
      var e := Last(l);
      CountListing(c - {e.name}, Front(l), x, v);
      assert l == Front(l) + [e];
      CountListStep(Front(l), e, x, v);
    }
  }

  // ---------- flattenings ----------

  lemma {:induction false} CountFlattening(caches: seq<Cache>, l: seq<Entry>, x: Name, v: Value)
    requires IsFlattening(caches, l)
    ensures CountList(l, x, v) == CountAll(caches, x, v)
  {
    if caches != [] {
      var n := |l| - |Last(caches)|;
      CountFlattening(Front(caches), l[..n], x, v);
      CountListing(Last(caches), l[n..], x, v);
      assert l == l[..n] + l[n..];
      CountListConcat(l[..n], l[n..], x, v);
    }
  }

  /** A peer that adds a flattened snapshot has poured in every cache of it, names repeated across workers included. */
  lemma {:induction false} SnapshotRoundTrip(long: Cache, caches: seq<Cache>, l: seq<Entry>)
    requires IsFlattening(caches, l)
    ensures AddAll(long, l) == MergeAll(long, caches)
  {
    if caches != [] {
      var n := |l| - |Last(caches)|;
      SnapshotRoundTrip(long, Front(caches), l[..n]);
      AddListing(MergeAll(long, Front(caches)), Last(caches), l[n..]);
      AddAllSplit(long, l, n);
    }
  }

  lemma AddAllSplit(c: Cache, l: seq<Entry>, n: nat)
    requires n <= |l|
    ensures AddAll(c, l) == AddAll(AddAll(c, l[..n]), l[n..])
  {
    assert l == l[..n] + l[n..];
    AddAllConcat(c, l[..n], l[n..]);
  }

  ghost predicate AllTyped(caches: seq<Cache>, kinds: Name -> Kind) {
    forall i :: 0 <= i < |caches| ==> TypedCache(caches[i], kinds)
  }

  lemma {:induction false} MergeAllTyped(long: Cache, caches: seq<Cache>, kinds: Name -> Kind)
    requires TypedCache(long, kinds) && AllTyped(caches, kinds)
    ensures TypedCache(MergeAll(long, caches), kinds)
  {
    if caches != [] {
      MergeAllTyped(long, Front(caches), kinds);
      TypedMerge(MergeAll(long, Front(caches)), Last(caches), kinds);
    }
  }

  /** With one kind per name: the peer's samples for a name grow by what each worker held, in worker order. */
  lemma {:induction false} SnapshotSamples(long: Cache, caches: seq<Cache>, kinds: Name -> Kind, x: Name)
    requires TypedCache(long, kinds) && AllTyped(caches, kinds)
    ensures At(MergeAll(long, caches), x) == At(long, x) + AtAll(caches, x)
  {
    if caches != [] {
      var front, c := Front(caches), Last(caches);
      SnapshotSamples(long, front, kinds, x);
      MergeAllTyped(long, front, kinds);
      TypedMerge(MergeAll(long, front), c, kinds);
      Associative(At(long, x), AtAll(front, x), At(c, x));
    }
  }

  /** Leaving out the empty caches changes nothing a peer will see. */
  lemma {:induction false} RetainSame(into: Cache, caches: seq<Cache>)
    ensures MergeAll(into, Retain(caches)) == MergeAll(into, caches)
  {
    if caches != [] {
      RetainSame(into, Front(caches));
      var kept := Retain(Front(caches));
      if |Last(caches)| > 0 {
        AppendCache(into, kept, Last(caches), Name([]), 0.0);
      } else {
        assert Last(caches) == map[] && kept + [] == kept;
        MergeNothing(MergeAll(into, Front(caches)));
      }
    }
  }

  lemma {:induction false} RetainCount(caches: seq<Cache>, x: Name, v: Value)
    ensures CountAll(Retain(caches), x, v) == CountAll(caches, x, v)
  {
    if caches != [] {
      RetainCount(Front(caches), x, v);
      var kept := Retain(Front(caches));
      if |Last(caches)| > 0 {
        AppendCache(map[], kept, Last(caches), x, v);
      } else {
        assert Last(caches) == map[] && kept + [] == kept;
      }
    }
  }

  /** Only empty caches are left out, and all of them. */
  lemma {:induction false} RetainOnlyFull(caches: seq<Cache>)
    ensures forall c :: c in Retain(caches) <==> c in caches && c != map[]
  {
    if caches != [] {
      RetainOnlyFull(Front(caches));
      assert caches == Front(caches) + [Last(caches)];
      assert |Last(caches)| > 0 <==> Last(caches) != map[];
    }
  }

  // ---------- the sender ----------

  lemma FlatteningStep(caches: seq<Cache>, l: seq<Entry>, c: Cache, m: seq<Entry>)
    requires IsFlattening(caches, l) && IsListing(c, m)
    ensures IsFlattening(caches + [c], l + m)
  {
    ListingLen(c, m);
    assert Front(caches + [c]) == caches;
    assert (l + m)[..|l|] == l && (l + m)[|l|..] == m;
  }

  method CountFlat(caches: seq<Cache>) returns (n: nat)
    ensures n == TotalLen(caches)
  {
    n := 0;
    for i := 0 to |caches|
      invariant n == TotalLen(caches[..i])
    {
      assert Front(caches[..i + 1]) == caches[..i];
      n := n + |caches[i]|;
    }
    assert caches[..|caches|] == caches;
  }

  ghost predicate Filled(slots: seq<Option<Entry>>, done: seq<Entry>) {
    && |done| <= |slots|
    && (forall i :: 0 <= i < |done| ==> slots[i] == Some(done[i]))
    && (forall i :: |done| <= i < |slots| ==> slots[i] == None)
  }

  /** Writes one cache into the free slots from `at` on, one slot per entry. */
  method FillOne(slots: array<Option<Entry>>, ghost done: seq<Entry>, at: nat, c: Cache)
    returns (ghost m: seq<Entry>, next: nat)
    requires at == |done| && at + |c| <= slots.Length
    requires Filled(slots[..], done)
    modifies slots
    ensures IsListing(c, m)
    ensures next == at + |c|
    ensures Filled(slots[..], done + m)
  {
    m, next := [], at;
    var rest := c;
    ghost var taken: Cache := map[];
    while |rest| > 0
      invariant Split(c, taken, rest) && IsListing(taken, m)
      invariant |m| + |rest| == |c| && next == at + |m|
      invariant Filled(slots[..], done + m)
      decreases |rest|
    {
      var name :| name in rest;
      SplitStep(c, taken, rest, name);
      assert (rest - {name}).Keys == rest.Keys - {name};
      ListingStep(taken, m, name, rest[name]);
      slots[next] := Some(Entry(name, rest[name]));
      taken, m := taken[name := rest[name]], m + [Entry(name, rest[name])];
      next, rest := next + 1, rest - {name};
    }
    SplitEnd(c, taken, rest);
  }

  /** Fills a message of exactly the counted length: every slot is written once, with one entry of one cache. */
  method Flatten(caches: seq<Cache>) returns (message: seq<Option<Entry>>, ghost l: seq<Entry>)
    ensures |message| == |l| == TotalLen(caches)
    ensures forall i :: 0 <= i < |message| ==> message[i] == Some(l[i])
    ensures IsFlattening(caches, l)
  {
    var flatLen := CountFlat(caches);
    var slots := new Option<Entry>[flatLen](_ => None);
    var idx := 0;
    l := [];
    assert caches[..0] == [];
    for i := 0 to |caches|
      invariant idx == |l| == TotalLen(caches[..i])
      invariant Filled(slots[..], l)
      invariant IsFlattening(caches[..i], l)
    {
      assert caches[..i + 1] == caches[..i] + [caches[i]];
      LenSplit(caches, i);
      ghost var m;
      m, idx := FillOne(slots, l, idx, caches[i]);
      FlatteningStep(caches[..i], l, caches[i], m);
      ListingLen(caches[i], m);
      l := l + m;
    }
    assert caches[..|caches|] == caches;
    message := slots[..];
  }

  /** Leaves out the empty caches. */
  method RetainFull(caches: seq<Cache>) returns (full: seq<Cache>)
    ensures full == Retain(caches)
  {
    full := [];
    for i := 0 to |caches|
      invariant full == Retain(caches[..i])
    {
      assert Front(caches[..i + 1]) == caches[..i];
      if |caches[i]| > 0 {
        full := full + [caches[i]];
      }
    }
    assert caches[..|caches|] == caches;
  }

  /** The peer's side: every slot that decodes is pushed, in order, and one that does not is skipped. */
  method Decode(message: seq<Option<Entry>>) returns (metrics: seq<Entry>)
    ensures metrics == Somes(message)
  {
    metrics := [];
    for i := 0 to |message|
      invariant metrics == Somes(message[..i])
    {
      assert Front(message[..i + 1]) == message[..i];
      if message[i].Some? {
        metrics := metrics + [message[i].value];
      }
    }
    assert message[..|message|] == message;
  }

  /** A message in which every slot decodes, and no other, gives back as many as slots: the list written into it. */
  lemma {:induction false} AllDecode(message: seq<Option<Entry>>)
    ensures |Somes(message)| <= |message|
    ensures |Somes(message)| == |message| <==> forall i :: 0 <= i < |message| ==> message[i].Some?
    ensures |Somes(message)| == |message| ==> forall i :: 0 <= i < |message| ==> message[i] == Some(Somes(message)[i])
  {
    if message != [] {
      AllDecode(Front(message));
      assert forall i :: 0 <= i < |message| - 1 ==> message[i] == Front(message)[i];
      assert message[|message| - 1] == Last(message);
    }
  }

  /** From the workers' answers at the sender to the long cache at the peer. */
  method Transfer(answers: seq<Cache>, long: Cache) returns (after: Cache)
    ensures after == MergeAll(long, answers)
  {
    var full := RetainFull(answers);
    var message, l := Flatten(full);
    var metrics := Decode(message);
    var errors: nat;
    after, errors := UpdateAll(long, metrics);
    AllDecode(message);
    assert metrics == l;
    SnapshotRoundTrip(long, full, l);
    RetainSame(long, answers);
  }

  lemma {:induction false} LenSplit(caches: seq<Cache>, i: nat)
    requires i < |caches|
    ensures TotalLen(caches[..i + 1]) == TotalLen(caches[..i]) + |caches[i]| <= TotalLen(caches)
    decreases |caches|
  {
    assert Front(caches[..i + 1]) == caches[..i];
    if i + 1 < |caches| {
      LenSplit(Front(caches), i);
      assert Front(caches)[..i + 1] == caches[..i + 1] && Front(caches)[..i] == caches[..i];
    } else {
      assert caches[..i + 1] == caches;
    }
  }
}
