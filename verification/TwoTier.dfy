/**
 The two caches of a worker against one flat cache.

 `Live` lists what one flat cache would have been fed: everything since the last rotation, after what
 was still unshared when that rotation came. The worker keeps `long` and `short` apart, and yet
 pouring `short` into `long` gives the flat cache: sample for sample as long as no peer snapshot
 arrives, up to the order of samples when one does, and, when a name is used under several kinds,
 exactly when `TiersAgree` holds of every name.
 */
module TwoTier {
  import opened Metrics
  import opened TaskRunners

  /** What a task brings to either cache. */
  function Brought(p: Parser, w: Worker, t: Task): seq<Entry> {
    if t.AddSnapshot? then t.list else Ingested(p, w, t)
  }

  /** What the worker took in since it last gave a snapshot. */
  function Unshared(p: Parser, ts: seq<Task>): seq<Entry> {
    if ts == [] then []
    else if Last(ts).TakeSnapshot? then []
    else Unshared(p, Front(ts)) + Ingested(p, RunAll(p, Front(ts)), Last(ts))
  }

  /** What one flat cache would have been fed. */
  function Live(p: Parser, ts: seq<Task>): seq<Entry> {
    if ts == [] then []
    else if Last(ts).Rotate? then Unshared(p, Front(ts))
    else Live(p, Front(ts)) + Brought(p, RunAll(p, Front(ts)), Last(ts))
  }

  predicate NoPeers(ts: seq<Task>) {
    forall i :: 0 <= i < |ts| ==> !ts[i].AddSnapshot?
  }

  /** `short` is exactly what came in since the last snapshot, whatever the kinds and whatever else happened. */
  lemma {:induction false} ShortIsUnshared(p: Parser, ts: seq<Task>)
    ensures RunAll(p, ts).short == AddAll(map[], Unshared(p, ts))
  {
    if ts != [] {
      var before, t := Front(ts), Last(ts);
      ShortIsUnshared(p, before);
      AddAllConcat(map[], Unshared(p, before), Ingested(p, RunAll(p, before), t));
    }
  }

  lemma NoPeersFront(ts: seq<Task>)
    requires ts != []
    ensures NoPeers(ts) <==> NoPeers(Front(ts)) && !Last(ts).AddSnapshot?
  {
    assert forall i :: 0 <= i < |ts| - 1 ==> Front(ts)[i] == ts[i];
    assert ts[|ts| - 1] == Last(ts);
  }

  // ---------- several kinds under one name ----------

  /** A round for each entry. */
  function Singles(l: seq<Entry>): seq<seq<Entry>> {
    if l == [] then [] else Singles(Front(l)) + [[Last(l)]]
  }

  /**
   What went into `long` since the last rotation, in rounds that were each gathered before they were poured in:
   a snapshot pours in all that was unshared, a peer's entries come one by one.
   */
  function Rounds(p: Parser, ts: seq<Task>): seq<seq<Entry>> {
    if ts == [] then []
    else match Last(ts)
      case TakeSnapshot => Rounds(p, Front(ts)) + [Unshared(p, Front(ts))]
      case AddSnapshot(list) => Rounds(p, Front(ts)) + Singles(list)
      case Rotate => []
      case _ => Rounds(p, Front(ts))
  }

  /** Those rounds and the unfinished one. */
  function AllRounds(p: Parser, ts: seq<Task>): seq<seq<Entry>> {
    Rounds(p, ts) + [Unshared(p, ts)]
  }

  /** Each round gathered in a cache of its own, then poured into one. */
  function Tiered(rs: seq<seq<Entry>>): Cache {
    if rs == [] then map[] else MergeInto(Tiered(Front(rs)), AddAll(map[], Last(rs)))
  }

  /** The list brings a sample for the name under the kind. */
  predicate Brings(l: seq<Entry>, x: Name, k: Kind) {
    exists i :: 0 <= i < |l| && l[i].name == x && l[i].metric.kind == k && l[i].metric.samples != []
  }

  predicate HasKind(l: seq<Entry>, x: Name, k: Kind) {
    exists i :: 0 <= i < |l| && l[i].name == x && l[i].metric.kind == k
  }

  /** The round uses the name, and first under a kind other than `k`. */
  predicate Stray(r: seq<Entry>, x: Name, k: Kind) {
    Named(r, x) && FirstKind(r, x) != k
  }

  /** No round that opened with another kind goes on to bring samples of the kind the name had first. */
  predicate Coherent(rs: seq<seq<Entry>>, x: Name) {
    Named(Concat(rs), x) ==>
      var k := FirstKind(Concat(rs), x);
      forall i :: 0 <= i < |rs| ==> Stray(rs[i], x, k) ==> !Brings(rs[i], x, k)
  }

  /** Samples of kind `k` in rounds that do not open with it: the round's own cache refuses them. */
  function LostSamples(rs: seq<seq<Entry>>, x: Name, k: Kind): nat {
    if rs == [] then 0
    else LostSamples(Front(rs), x, k) + if Stray(Last(rs), x, k) then |OfKind(Last(rs), x, k)| else 0
  }

  function Kept(rs: seq<seq<Entry>>, x: Name, k: Kind): seq<Value> {
    if rs == [] then []
    else Kept(Front(rs), x, k) + if Stray(Last(rs), x, k) then [] else OfKind(Last(rs), x, k)
  }

  lemma {:induction false} OfKindConcat(a: seq<Entry>, b: seq<Entry>, x: Name, k: Kind)
    ensures OfKind(a + b, x, k) == OfKind(a, x, k) + OfKind(b, x, k)
  {
    if b == [] {
      assert a + b == a;
    } else {
      OfKindConcat(a, Front(b), x, k);
      assert Front(a + b) == a + Front(b) && Last(a + b) == Last(b);
    }
  }

  lemma {:induction false} FirstKindConcat(a: seq<Entry>, b: seq<Entry>, x: Name)
    requires Named(a + b, x)
    ensures Named(a, x) ==> FirstKind(a + b, x) == FirstKind(a, x)
    ensures !Named(a, x) ==> Named(b, x) && FirstKind(a + b, x) == FirstKind(b, x)
  {
    StreamConcat(a, b, x);
    if b == [] {
      assert a + b == a;
    } else {
      assert Front(a + b) == a + Front(b) && Last(a + b) == Last(b);
      StreamConcat(a, Front(b), x);
      if Named(a + Front(b), x) {
        FirstKindConcat(a, Front(b), x);
      }
    }
  }

  lemma {:induction false} OfKindEmpty(l: seq<Entry>, x: Name, k: Kind)
    ensures OfKind(l, x, k) == [] <==> !Brings(l, x, k)
  {
    if l != [] {
      OfKindEmpty(Front(l), x, k);
      var e := Last(l);
      assert l[|l| - 1] == e;
      if Brings(Front(l), x, k) {
        var front := Front(l);
        var i :| 0 <= i < |front| && front[i].name == x && front[i].metric.kind == k && front[i].metric.samples != [];
        assert l[i] == front[i];
      } else if Brings(l, x, k) {
        var i :| 0 <= i < |l| && l[i].name == x && l[i].metric.kind == k && l[i].metric.samples != [];
        assert i < |Front(l)| ==> Front(l)[i] == l[i];
      }
    }
  }

  /** A tiered cache holds, under each name, the first kind's samples from the rounds that open with it. */
  lemma {:induction false} TieredContent(rs: seq<seq<Entry>>, x: Name)
    ensures x in Tiered(rs) <==> Named(Concat(rs), x)
    ensures Named(Concat(rs), x) ==>
      var k := FirstKind(Concat(rs), x); Tiered(rs)[x] == Metric(k, Kept(rs, x, k))
    ensures !Named(Concat(rs), x) ==> forall k :: Kept(rs, x, k) == []
  {
    if rs != [] {
      var front, r := Front(rs), Last(rs);
      TieredContent(front, x);
      AddAllContent(map[], r, x);
      UnnamedOfKind(r, x);
      StreamConcat(Concat(front), r, x);
      if Named(Concat(rs), x) {
        FirstKindConcat(Concat(front), r, x);
      }
    }
  }

  lemma {:induction false} KeptOrLost(rs: seq<seq<Entry>>, x: Name, k: Kind)
    ensures |Kept(rs, x, k)| + LostSamples(rs, x, k) == |OfKind(Concat(rs), x, k)|
    ensures LostSamples(rs, x, k) == 0 ==> Kept(rs, x, k) == OfKind(Concat(rs), x, k)
  {
    if rs != [] {
      KeptOrLost(Front(rs), x, k);
      OfKindConcat(Concat(Front(rs)), Last(rs), x, k);
    }
  }

  lemma {:induction false} LostNothing(rs: seq<seq<Entry>>, x: Name, k: Kind)
    ensures LostSamples(rs, x, k) == 0 <==> forall i :: 0 <= i < |rs| ==> Stray(rs[i], x, k) ==> !Brings(rs[i], x, k)
  {
    if rs != [] {
      var front, r := Front(rs), Last(rs);
      LostNothing(front, x, k);
      OfKindEmpty(r, x, k);
      assert forall i :: 0 <= i < |front| ==> rs[i] == front[i];
      assert rs[|front|] == r;
    }
  }

  /** The tiers lose exactly `LostSamples` of a name against the flat cache of the same entries. */
  lemma TieredAgainstFlat(rs: seq<seq<Entry>>, x: Name)
    ensures x in Tiered(rs) <==> x in AddAll(map[], Concat(rs))
    ensures x in Tiered(rs) ==>
      && Named(Concat(rs), x)
      && var tiers, flat, k := Tiered(rs)[x], AddAll(map[], Concat(rs))[x], FirstKind(Concat(rs), x);
      && tiers.kind == flat.kind == k
      && |tiers.samples| + LostSamples(rs, x, k) == |flat.samples|
      && (tiers == flat <==> Coherent(rs, x))
  {
    TieredContent(rs, x);
    AddAllContent(map[], Concat(rs), x);
    if Named(Concat(rs), x) {
      var k := FirstKind(Concat(rs), x);
      KeptOrLost(rs, x, k);
      LostNothing(rs, x, k);
    }
  }

  lemma TieredAppend(rs: seq<seq<Entry>>, r: seq<Entry>)
    ensures Tiered(rs + [r]) == MergeInto(Tiered(rs), AddAll(map[], r))
    ensures Concat(rs + [r]) == Concat(rs) + r
  {
    assert Front(rs + [r]) == rs && Last(rs + [r]) == r;
  }

  lemma PourOne(c: Cache, e: Entry)
    ensures MergeInto(c, AddAll(map[], [e])) == Update(c, e)
  {
    assert Front([e]) == [] && AddAll(map[], [e]) == map[][e.name := e.metric];
    MergeNothing(c);
    DrainStep(c, map[], e.name, e.metric);
  }

  /** Entries poured in one by one are entries added. */
  lemma {:induction false} TieredSingles(rs: seq<seq<Entry>>, l: seq<Entry>)
    ensures Tiered(rs + Singles(l)) == AddAll(Tiered(rs), l)
    ensures Concat(rs + Singles(l)) == Concat(rs) + l
  {
    if l == [] {
      assert rs + [] == rs && Concat(rs) + [] == Concat(rs);
    } else {
      TieredSingles(rs, Front(l));
      assert rs + Singles(l) == (rs + Singles(Front(l))) + [[Last(l)]];
      TieredAppend(rs + Singles(Front(l)), [Last(l)]);
      PourOne(Tiered(rs + Singles(Front(l))), Last(l));
      assert l == Front(l) + [Last(l)];
    }
  }

  lemma {:induction false} RoundsInLong(p: Parser, ts: seq<Task>)
    ensures RunAll(p, ts).long == Tiered(Rounds(p, ts))
  {
    if ts != [] {
      var front, t := Front(ts), Last(ts);
      RoundsInLong(p, front);
      if t.TakeSnapshot? {
        ShortIsUnshared(p, front);
        TieredAppend(Rounds(p, front), Unshared(p, front));
      } else if t.AddSnapshot? {
        TieredSingles(Rounds(p, front), t.list);
      }
    }
  }

  lemma TiersAreRounds(p: Parser, ts: seq<Task>)
    ensures MergeInto(RunAll(p, ts).long, RunAll(p, ts).short) == Tiered(AllRounds(p, ts))
    ensures Concat(AllRounds(p, ts)) == Concat(Rounds(p, ts)) + Unshared(p, ts)
  {
    RoundsInLong(p, ts);
    ShortIsUnshared(p, ts);
    TieredAppend(Rounds(p, ts), Unshared(p, ts));
  }

  /** Two lists bring the same for a name, whatever the order. */
  ghost predicate SameFor(a: seq<Entry>, b: seq<Entry>, x: Name) {
    && (Named(a, x) <==> Named(b, x))
    && forall k :: multiset(OfKind(a, x, k)) == multiset(OfKind(b, x, k)) && (HasKind(a, x, k) <==> HasKind(b, x, k))
  }

  lemma HasKindConcat(a: seq<Entry>, b: seq<Entry>, x: Name, k: Kind)
    ensures HasKind(a + b, x, k) <==> HasKind(a, x, k) || HasKind(b, x, k)
  {
    assert forall i :: 0 <= i < |a| ==> (a + b)[i] == a[i];
    assert forall i :: 0 <= i < |b| ==> (a + b)[|a| + i] == b[i];
  }

  lemma SameForAppend(a: seq<Entry>, b: seq<Entry>, l: seq<Entry>, x: Name)
    requires SameFor(a, b, x)
    ensures SameFor(a + l, b + l, x)
  {
    StreamConcat(a, l, x);
    StreamConcat(b, l, x);
    forall k
      ensures multiset(OfKind(a + l, x, k)) == multiset(OfKind(b + l, x, k))
      ensures HasKind(a + l, x, k) <==> HasKind(b + l, x, k)
    {
      OfKindConcat(a, l, x, k);
      OfKindConcat(b, l, x, k);
      HasKindConcat(a, l, x, k);
      HasKindConcat(b, l, x, k);
    }
  }

  lemma SameForSwap(a: seq<Entry>, b: seq<Entry>, l: seq<Entry>, x: Name)
    ensures SameFor((a + l) + b, (a + b) + l, x)
  {
    StreamConcat(a + l, b, x);
    StreamConcat(a, l, x);
    StreamConcat(a + b, l, x);
    StreamConcat(a, b, x);
    forall k
      ensures multiset(OfKind((a + l) + b, x, k)) == multiset(OfKind((a + b) + l, x, k))
      ensures HasKind((a + l) + b, x, k) <==> HasKind((a + b) + l, x, k)
    {
      OfKindConcat(a + l, b, x, k);
      OfKindConcat(a, l, x, k);
      OfKindConcat(a + b, l, x, k);
      OfKindConcat(a, b, x, k);
      HasKindConcat(a + l, b, x, k);
      HasKindConcat(a, l, x, k);
      HasKindConcat(a + b, l, x, k);
      HasKindConcat(a, b, x, k);
    }
  }

  /** The rounds bring what a flat cache would have been fed; only a peer's entries come in another place. */
  lemma {:induction false} RoundsBringLive(p: Parser, ts: seq<Task>, x: Name)
    ensures SameFor(Concat(Rounds(p, ts)) + Unshared(p, ts), Live(p, ts), x)
    ensures NoPeers(ts) ==> Concat(Rounds(p, ts)) + Unshared(p, ts) == Live(p, ts)
  {
    if ts != [] {
      var front, t := Front(ts), Last(ts);
      var rs, u, live := Rounds(p, front), Unshared(p, front), Live(p, front);
      RoundsBringLive(p, front, x);
      NoPeersFront(ts);
      if t.TakeSnapshot? {
        TieredAppend(rs, u);
        assert Concat(rs + [u]) + [] == Concat(rs) + u && live + [] == live;
      } else if t.Rotate? {
        assert [] + (u + []) == u;
      } else if t.AddSnapshot? {
        TieredSingles(rs, t.list);
        assert u + [] == u;
        SameForAppend(Concat(rs) + u, live, t.list, x);
        SameForSwap(Concat(rs), u, t.list, x);
      } else {
        var l := Ingested(p, RunAll(p, front), t);
        SameForAppend(Concat(rs) + u, live, l, x);
        Associative(Concat(rs), u, l);
      }
    }
  }

  /** The first kind of the name to reach a round is `k`, and no round loses samples of it. */
  ghost predicate RoundsGive(p: Parser, ts: seq<Task>, x: Name, k: Kind) {
    Named(Concat(AllRounds(p, ts)), x) ==>
      FirstKind(Concat(AllRounds(p, ts)), x) == k && Coherent(AllRounds(p, ts), x)
  }

  /** That kind is the one a flat cache gives the name. */
  ghost predicate TiersAgree(p: Parser, ts: seq<Task>, x: Name) {
    Named(Live(p, ts), x) ==> RoundsGive(p, ts, x, FirstKind(Live(p, ts), x))
  }

  /** What the tiers hold of a name, against what came in under a kind. */
  lemma TiersHold(p: Parser, ts: seq<Task>, x: Name, k: Kind)
    ensures
      var tiers, live := Tiered(AllRounds(p, ts)), OfKind(Live(p, ts), x, k);
      && (x in tiers <==> Named(Live(p, ts), x))
      && (x in tiers ==>
            && (tiers[x].kind == k ==> |tiers[x].samples| <= |live|)
            && (tiers[x].kind == k && |tiers[x].samples| == |live| <==> RoundsGive(p, ts, x, k))
            && (RoundsGive(p, ts, x, k) ==> multiset(tiers[x].samples) == multiset(live)))
  {
    var rs, live := AllRounds(p, ts), Live(p, ts);
    TiersAreRounds(p, ts);
    RoundsBringLive(p, ts, x);
    TieredContent(rs, x);
    KeptOrLost(rs, x, k);
    LostNothing(rs, x, k);
    SameSize(OfKind(live, x, k), OfKind(Concat(rs), x, k));
  }

  lemma SameSize<T>(a: seq<T>, b: seq<T>)
    requires multiset(a) == multiset(b)
    ensures |a| == |b|
  {
    assert |multiset(a)| == |a| && |multiset(b)| == |b|;
  }

  lemma NameAgreesIff(p: Parser, ts: seq<Task>, x: Name)
    ensures
      var tiers, flat := Tiered(AllRounds(p, ts)), AddAll(map[], Live(p, ts));
      && (x in tiers <==> x in flat)
      && (x in tiers <==> Named(Live(p, ts), x))
      && (x in tiers ==>
            (tiers[x].kind == flat[x].kind && multiset(tiers[x].samples) == multiset(flat[x].samples)
             <==> TiersAgree(p, ts, x)))
  {
    var tiers, flat := Tiered(AllRounds(p, ts)), AddAll(map[], Live(p, ts));
    AddAllContent(map[], Live(p, ts), x);
    TiersHold(p, ts, x, Counter);
    if Named(Live(p, ts), x) {
      TiersHold(p, ts, x, FirstKind(Live(p, ts), x));
      if multiset(tiers[x].samples) == multiset(flat[x].samples) {
        SameSize(tiers[x].samples, flat[x].samples);
      }
    }
  }

  /**
   For every run, peers and any mix of kinds included: `long` and `short` together are the flat cache up to
   sample order, if and only if for every name the first kind to reach a round is the first that came, and no
   round that opened with another kind went on to receive samples of it.
   */
  lemma TwoTierIsFlatIff(p: Parser, ts: seq<Task>)
    ensures SameUpToOrder(MergeInto(RunAll(p, ts).long, RunAll(p, ts).short), AddAll(map[], Live(p, ts)))
       <==> forall x :: TiersAgree(p, ts, x)
  {
    var tiers, flat := Tiered(AllRounds(p, ts)), AddAll(map[], Live(p, ts));
    TiersAreRounds(p, ts);
    forall x
      ensures x in tiers <==> x in flat
      ensures x !in tiers ==> TiersAgree(p, ts, x)
      ensures x in tiers ==>
        (tiers[x].kind == flat[x].kind && multiset(tiers[x].samples) == multiset(flat[x].samples)
         <==> TiersAgree(p, ts, x))
    {
      NameAgreesIff(p, ts, x);
    }
  }

  /** Without peers the same condition, now of the rounds alone, gives the flat cache sample for sample. */
  lemma TwoTierIsFlatExactlyIff(p: Parser, ts: seq<Task>)
    requires NoPeers(ts)
    ensures MergeInto(RunAll(p, ts).long, RunAll(p, ts).short) == AddAll(map[], Live(p, ts))
       <==> forall x :: Coherent(AllRounds(p, ts), x)
  {
    TiersAreRounds(p, ts);
    RoundsBringLive(p, ts, Name([]));
    TieredIsFlatIff(AllRounds(p, ts));
  }

  lemma TieredIsFlatIff(rs: seq<seq<Entry>>)
    ensures Tiered(rs) == AddAll(map[], Concat(rs)) <==> forall x :: Coherent(rs, x)
  {
    var tiers, flat := Tiered(rs), AddAll(map[], Concat(rs));
    forall x
      ensures x in tiers <==> x in flat
      ensures x in tiers ==> (tiers[x] == flat[x] <==> Coherent(rs, x))
      ensures x !in tiers ==> Coherent(rs, x)
    {
      TieredAgainstFlat(rs, x);
      TieredContent(rs, x);
    }
  }

  // ---------- one kind per name ----------

  lemma {:induction false} FirstKindIsHad(l: seq<Entry>, x: Name)
    requires Named(l, x)
    ensures HasKind(l, x, FirstKind(l, x))
  {
    if Named(Front(l), x) {
      FirstKindIsHad(Front(l), x);
      assert forall i :: 0 <= i < |Front(l)| ==> Front(l)[i] == l[i];
    } else {
      assert l[|l| - 1] == Last(l);
    }
  }

  lemma {:induction false} RoundIsPart(rs: seq<seq<Entry>>, i: nat, x: Name, k: Kind)
    requires i < |rs| && HasKind(rs[i], x, k)
    ensures HasKind(Concat(rs), x, k)
  {
    HasKindConcat(Concat(Front(rs)), Last(rs), x, k);
    if i < |rs| - 1 {
      RoundIsPart(Front(rs), i, x, k);
    }
  }

  /** When all that came in uses a name under one kind, so does every round, and none is astray. */
  lemma TypedRoundsGive(p: Parser, ts: seq<Task>, kinds: Name -> Kind, x: Name)
    requires Typed(Live(p, ts), kinds)
    ensures RoundsGive(p, ts, x, kinds(x))
  {
    var rs := AllRounds(p, ts);
    TiersAreRounds(p, ts);
    RoundsBringLive(p, ts, x);
    assert forall k :: HasKind(Concat(rs), x, k) ==> k == kinds(x);
    if Named(Concat(rs), x) {
      FirstKindIsHad(Concat(rs), x);
      forall i | 0 <= i < |rs|
        ensures !Stray(rs[i], x, kinds(x))
      {
        if Named(rs[i], x) {
          FirstKindIsHad(rs[i], x);
          RoundIsPart(rs, i, x, FirstKind(rs[i], x));
        }
      }
    }
  }

  /** For every run with one kind per name, `long` and `short` together are the flat cache up to sample order. */
  lemma TwoTierRefinesFlat(p: Parser, ts: seq<Task>, kinds: Name -> Kind)
    requires Typed(Live(p, ts), kinds)
    ensures SameUpToOrder(MergeInto(RunAll(p, ts).long, RunAll(p, ts).short), AddAll(map[], Live(p, ts)))
  {
    forall x
      ensures TiersAgree(p, ts, x)
    {
      TypedRoundsGive(p, ts, kinds, x);
      TypedStream(Live(p, ts), x, kinds);
    }
    TwoTierIsFlatIff(p, ts);
  }

  /** Without peer snapshots nothing is even reordered. */
  lemma TwoTierIsFlat(p: Parser, ts: seq<Task>, kinds: Name -> Kind)
    requires Typed(Live(p, ts), kinds) && NoPeers(ts)
    ensures MergeInto(RunAll(p, ts).long, RunAll(p, ts).short) == AddAll(map[], Live(p, ts))
  {
    forall x
      ensures Coherent(AllRounds(p, ts), x)
    {
      TypedRoundsGive(p, ts, kinds, x);
    }
    TwoTierIsFlatExactlyIff(p, ts);
  }

  // ---------- runs outside the condition ----------

  /** A peer snapshot does reorder: local sample 1 then peer sample 2 is held as 2 then 1. */
  lemma PeersReorder(x: Name)
    ensures
      var one, two := Entry(x, Metric(Timer, [1.0])), Entry(x, Metric(Timer, [2.0]));
      var p: Parser := (b: Bytes) => Parsed([], 0);
      var ts := [AddMetric(one), AddSnapshot([two])];
      var w := RunAll(p, ts);
      && MergeInto(w.long, w.short)[x].samples == [2.0, 1.0]
      && AddAll(map[], Live(p, ts))[x].samples == [1.0, 2.0]
  {
    var one, two := Entry(x, Metric(Timer, [1.0])), Entry(x, Metric(Timer, [2.0]));
    var p: Parser := (b: Bytes) => Parsed([], 0);
    var ts := [AddMetric(one), AddSnapshot([two])];
    assert Front(ts) == [AddMetric(one)];
    assert Front([AddMetric(one)]) == [];
    assert RunAll(p, [AddMetric(one)]) == Worker(map[], AddAll(map[], [one]), map[]);
    assert Live(p, [AddMetric(one)]) == [one];
    assert Live(p, ts) == [one] + [two];
    AddAllConcat(map[], [one], [two]);
    assert AddAll(map[], [one]) == map[x := one.metric];
    assert AddAll(map[], [two]) == map[x := two.metric];
    assert AddAll(map[x := one.metric], [two])[x].samples == [1.0] + [2.0];
    assert MergeInto(map[x := two.metric], map[x := one.metric])[x].samples == [2.0] + [1.0];
  }

  lemma RunStep(p: Parser, ts: seq<Task>, t: Task)
    ensures RunAll(p, ts + [t]) == Apply(p, RunAll(p, ts), t)
    ensures Unshared(p, ts + [t]) == if t.TakeSnapshot? then [] else Unshared(p, ts) + Ingested(p, RunAll(p, ts), t)
    ensures Live(p, ts + [t]) == if t.Rotate? then Unshared(p, ts) else Live(p, ts) + Brought(p, RunAll(p, ts), t)
  {
    assert Front(ts + [t]) == ts && Last(ts + [t]) == t;
  }

  lemma AddOne(c: Cache, e: Entry)
    ensures AddAll(c, [e]) == Update(c, e)
  {
    assert Front([e]) == [];
  }

  /** Counter, snapshot, then a gauge and a counter: the second counter is lost where a flat cache keeps it. */
  lemma MixedKindsLose(p: Parser, x: Name)
    ensures
      var c, g := Entry(x, Metric(Counter, [1.0])), Entry(x, Metric(Gauge, [2.0]));
      var ts := [AddMetric(c), TakeSnapshot, AddMetric(g), AddMetric(c)];
      var w := RunAll(p, ts);
      && MergeInto(w.long, w.short) == map[x := Metric(Counter, [1.0])]
      && AddAll(map[], Live(p, ts)) == map[x := Metric(Counter, [1.0, 1.0])]
  {
    var c, g := Entry(x, Metric(Counter, [1.0])), Entry(x, Metric(Gauge, [2.0]));
    var none: seq<Task> := [];
    var t1 := none + [AddMetric(c)];
    var t2 := t1 + [TakeSnapshot];
    var t3 := t2 + [AddMetric(g)];
    var ts := t3 + [AddMetric(c)];
    RunStep(p, none, AddMetric(c));
    RunStep(p, t1, TakeSnapshot);
    RunStep(p, t2, AddMetric(g));
    RunStep(p, t3, AddMetric(c));
    assert ts == [AddMetric(c), TakeSnapshot, AddMetric(g), AddMetric(c)];
    AddOne(map[], c);
    AddOne(map[], g);
    AddOne(map[x := g.metric], c);
    assert RunAll(p, ts).short == map[x := g.metric];
    MergeNothing(map[]);
    assert RunAll(p, ts).long == MergeInto(map[], map[x := c.metric]) == map[x := c.metric];
    assert Live(p, ts) == [c] + [g] + [c];
    AddAllConcat(map[], [c] + [g], [c]);
    AddAllConcat(map[], [c], [g]);
    AddOne(map[x := c.metric], g);
    AddOne(map[x := c.metric], c);
    assert [1.0] + [1.0] == [1.0, 1.0];
  }

  /** A local gauge, then a counter from a peer: the name ends up a counter where a flat cache has a gauge. */
  lemma PeersChangeKind(p: Parser, x: Name)
    ensures
      var c, g := Entry(x, Metric(Counter, [1.0])), Entry(x, Metric(Gauge, [2.0]));
      var ts := [AddMetric(g), AddSnapshot([c])];
      var w := RunAll(p, ts);
      && MergeInto(w.long, w.short) == map[x := c.metric]
      && AddAll(map[], Live(p, ts)) == map[x := g.metric]
  {
    var c, g := Entry(x, Metric(Counter, [1.0])), Entry(x, Metric(Gauge, [2.0]));
    var none: seq<Task> := [];
    var first := none + [AddMetric(g)];
    RunStep(p, none, AddMetric(g));
    RunStep(p, first, AddSnapshot([c]));
    assert first + [AddSnapshot([c])] == [AddMetric(g), AddSnapshot([c])];
    AddOne(map[], c);
    AddOne(map[], g);
    assert RunAll(p, first + [AddSnapshot([c])]) == Worker(map[x := c.metric], map[x := g.metric], map[]);
    MergeRefused(x, c.metric, g.metric);
    assert Live(p, first + [AddSnapshot([c])]) == [g] + [c];
    AddAllConcat(map[], [g], [c]);
    AddOne(map[x := g.metric], c);
    UpdateRefused(x, g.metric, c.metric);
  }

  lemma MergeRefused(x: Name, a: Metric, b: Metric)
    requires a.kind != b.kind
    ensures MergeInto(map[x := a], map[x := b]) == map[x := a]
  {
  }

  lemma UpdateRefused(x: Name, a: Metric, b: Metric)
    requires a.kind != b.kind
    ensures Update(map[x := a], Entry(x, b)) == map[x := a]
  {
  }
}
