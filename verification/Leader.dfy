/**
 The leader's side of a rotation: the caches of its workers arrive in any order and are folded into one.
 With one kind per name the result is the flat cache of everything the workers were given, however it
 was split among them. With several, the first cache to arrive decides the kind of a name, and the two
 if-and-only-ifs here say exactly when that does not matter.
 */
module Leader {
  import opened Metrics
  import opened TaskRunners
  import opened TwoTier
  import opened Snapshots
  import opened Sums

  /** Folds the arrived caches into one, entry by entry. */
  method Accumulate(arrived: seq<Cache>) returns (acc: Cache, aggErrors: nat)
    ensures acc == MergeAll(map[], arrived)
    ensures aggErrors == ConflictsIn(arrived)
  {
    acc, aggErrors := map[], 0;
    for i := 0 to |arrived|
      invariant acc == MergeAll(map[], arrived[..i])
      invariant aggErrors == ConflictsIn(arrived[..i])
    {
      assert Front(arrived[..i + 1]) == arrived[..i];
      var errors;
      acc, errors := Drain(acc, arrived[i]);
      aggErrors := aggErrors + errors;
    }
    assert arrived[..|arrived|] == arrived;
  }

  function ConflictsIn(caches: seq<Cache>): nat {
    if caches == [] then 0
    else ConflictsIn(Front(caches)) + |Conflicts(MergeAll(map[], Front(caches)), Last(caches))|
  }

  /** What a worker hands out when a snapshot is taken and it is then rotated. */
  function RotatedOut(p: Parser, ts: seq<Task>): Cache {
    Reply(RunAll(p, ts + [TakeSnapshot]), Rotate).value
  }

  lemma RotatedIsBothTiers(p: Parser, ts: seq<Task>)
    ensures RotatedOut(p, ts) == MergeInto(RunAll(p, ts).long, RunAll(p, ts).short)
  {
    assert Front(ts + [TakeSnapshot]) == ts;
  }

  // ---------- any arrival order ----------

  /** Wherever a cache holds the name, it does so under this kind. */
  ghost predicate OfOneKind(caches: seq<Cache>, x: Name, k: Kind) {
    forall i :: 0 <= i < |caches| && x in caches[i] ==> caches[i][x].kind == k
  }

  /** No two of the caches hold a name under different kinds. */
  ghost predicate Agreeing(caches: seq<Cache>) {
    forall x, i, j :: 0 <= i < |caches| && 0 <= j < |caches| && x in caches[i] && x in caches[j] ==>
      caches[i][x].kind == caches[j][x].kind
  }

  function SizeAt(x: Name): Cache -> nat {
    (c: Cache) => |At(c, x)|
  }

  lemma {:induction false} AccumulatedNames(caches: seq<Cache>, x: Name)
    ensures x in MergeAll(map[], caches) <==> exists i :: 0 <= i < |caches| && x in caches[i]
  {
    if caches != [] {
      AccumulatedNames(Front(caches), x);
      var front := Front(caches);
      assert forall i :: 0 <= i < |front| ==> caches[i] == front[i];
      assert caches[|front|] == Last(caches);
    }
  }

  /** Under one kind nothing of a name is refused: the samples are those of all the caches. */
  lemma {:induction false} AccumulatedSamples(caches: seq<Cache>, x: Name, k: Kind)
    requires OfOneKind(caches, x, k)
    ensures
      var acc := MergeAll(map[], caches);
      && (x in acc ==> acc[x].kind == k)
      && At(acc, x) == AtAll(caches, x)
  {
    if caches != [] {
      assert caches[|caches| - 1] == Last(caches);
      AccumulatedSamples(Front(caches), x, k);
    }
  }

  lemma {:induction false} SamplesSum(caches: seq<Cache>, x: Name, v: Value)
    ensures |AtAll(caches, x)| == Sum(caches, SizeAt(x))
    ensures multiset(AtAll(caches, x))[v] == Sum(caches, CacheOf(x, v))
  {
    if caches != [] {
      SamplesSum(Front(caches), x, v);
    }
  }

  lemma SameMembers<T>(a: seq<T>, b: seq<T>, i: nat)
    requires multiset(a) == multiset(b) && i < |a|
    ensures exists j :: 0 <= j < |b| && b[j] == a[i]
  {
    assert a[i] in multiset(b);
  }

  lemma SameNames(a: seq<Cache>, b: seq<Cache>, x: Name)
    requires multiset(a) == multiset(b)
    ensures x in MergeAll(map[], a) <==> x in MergeAll(map[], b)
  {
    AccumulatedNames(a, x);
    AccumulatedNames(b, x);
    if x in MergeAll(map[], a) {
      var i :| 0 <= i < |a| && x in a[i];
      SameMembers(a, b, i);
    }
    if x in MergeAll(map[], b) {
      var j :| 0 <= j < |b| && x in b[j];
      SameMembers(b, a, j);
    }
  }

  lemma SameKinds(a: seq<Cache>, b: seq<Cache>, x: Name, k: Kind)
    requires multiset(a) == multiset(b) && OfOneKind(a, x, k)
    ensures OfOneKind(b, x, k)
  {
    forall j | 0 <= j < |b| && x in b[j]
      ensures b[j][x].kind == k
    {
      SameMembers(b, a, j);
    }
  }

  lemma SameSamples(a: seq<Cache>, b: seq<Cache>, x: Name)
    requires multiset(a) == multiset(b)
    ensures multiset(AtAll(a, x)) == multiset(AtAll(b, x))
  {
    forall v: Value
      ensures multiset(AtAll(a, x))[v] == multiset(AtAll(b, x))[v]
    {
      SamplesSum(a, x, v);
      SamplesSum(b, x, v);
      SumPermutation(a, b, CacheOf(x, v));
    }
  }

  /** Whatever order agreeing caches arrive in, the leader holds the same names, kinds and samples. */
  lemma ArrivalOrder(a: seq<Cache>, b: seq<Cache>)
    requires Agreeing(a) && multiset(a) == multiset(b)
    ensures SameUpToOrder(MergeAll(map[], a), MergeAll(map[], b))
  {
    var l, r := MergeAll(map[], a), MergeAll(map[], b);
    forall x
      ensures x in l <==> x in r
      ensures x in l ==> l[x].kind == r[x].kind && multiset(l[x].samples) == multiset(r[x].samples)
    {
      SameNames(a, b, x);
      AccumulatedNames(a, x);
      if x in l {
        var i :| 0 <= i < |a| && x in a[i];
        var k := a[i][x].kind;
        SameKinds(a, b, x, k);
        AccumulatedSamples(a, x, k);
        AccumulatedSamples(b, x, k);
        SameSamples(a, b, x);
      }
    }
  }

  /** The i-th to the front. */
  function InFront(a: seq<Cache>, i: nat): seq<Cache>
    requires i < |a|
  {
    [a[i]] + (a[..i] + a[i + 1..])
  }

  lemma InFrontArrives(a: seq<Cache>, i: nat)
    requires i < |a|
    ensures multiset(InFront(a, i)) == multiset(a)
  {
    BagWithout(a, i);
  }

  /** The first cache that holds a name decides its kind. */
  lemma {:induction false} FirstDecides(caches: seq<Cache>, x: Name)
    requires caches != [] && x in caches[0]
    ensures x in MergeAll(map[], caches) && MergeAll(map[], caches)[x].kind == caches[0][x].kind
  {
    if |caches| == 1 {
      assert Front(caches) == [] && Last(caches) == caches[0];
      assert MergeAll(map[], caches) == MergeInto(map[], caches[0]);
    } else {
      FirstDecides(Front(caches), x);
    }
  }

  /** Every arrival order gives the same as this one. */
  ghost predicate AnyOrder(a: seq<Cache>) {
    forall b :: multiset(a) == multiset(b) ==> SameUpToOrder(MergeAll(map[], a), MergeAll(map[], b))
  }

  /** The order of arrival does not matter if and only if no name is held under different kinds. */
  lemma ArrivalOrderIff(a: seq<Cache>)
    ensures AnyOrder(a) <==> Agreeing(a)
  {
    if Agreeing(a) {
      forall b | multiset(a) == multiset(b)
        ensures SameUpToOrder(MergeAll(map[], a), MergeAll(map[], b))
      {
        ArrivalOrder(a, b);
      }
    }
    if AnyOrder(a) {
      forall x, i, j | 0 <= i < |a| && 0 <= j < |a| && x in a[i] && x in a[j]
        ensures a[i][x].kind == a[j][x].kind
      {
        KindInFront(a, i, x);
        KindInFront(a, j, x);
      }
    }
  }

  lemma KindInFront(a: seq<Cache>, i: nat, x: Name)
    requires AnyOrder(a) && i < |a| && x in a[i]
    ensures x in MergeAll(map[], a) && MergeAll(map[], a)[x].kind == a[i][x].kind
  {
    InFrontArrives(a, i);
    FirstDecides(InFront(a, i), x);
    assert SameUpToOrder(MergeAll(map[], a), MergeAll(map[], InFront(a, i)));
  }

  /** The fold counts no error exactly when no name is held under different kinds. */
  lemma {:induction false} NoErrorsIff(caches: seq<Cache>)
    ensures ConflictsIn(caches) == 0 <==> Agreeing(caches)
  {
    if caches != [] {
      var front, c := Front(caches), Last(caches);
      NoErrorsIff(front);
      assert caches == front + [c];
      if Agreeing(caches) {
        AgreeingFront(front, c);
        AgreeingNoConflict(front, c);
      } else if Agreeing(front) {
        ConflictShows(front, c);
      } else {
        assert ConflictsIn(front) > 0;
      }
    }
  }

  lemma AgreeingFront(front: seq<Cache>, c: Cache)
    requires Agreeing(front + [c])
    ensures Agreeing(front)
  {
    assert forall i :: 0 <= i < |front| ==> (front + [c])[i] == front[i];
  }

  lemma AgreeingNoConflict(front: seq<Cache>, c: Cache)
    requires Agreeing(front + [c])
    ensures Conflicts(MergeAll(map[], front), c) == map[]
  {
    var all, acc := front + [c], MergeAll(map[], front);
    forall x | x in c && x in acc
      ensures acc[x].kind == c[x].kind
    {
      assert all[|front|] == c;
      forall i | 0 <= i < |front| && x in front[i]
        ensures front[i][x].kind == c[x].kind
      {
        assert all[i] == front[i];
      }
      AccumulatedSamples(front, x, c[x].kind);
    }
  }

  lemma ConflictShows(front: seq<Cache>, c: Cache)
    requires Agreeing(front) && !Agreeing(front + [c])
    ensures |Conflicts(MergeAll(map[], front), c)| > 0
  {
    var all: seq<Cache> := front + [c];
    var acc := MergeAll(map[], front);
    var x, i, j :| 0 <= i < |all| && 0 <= j < |all| && x in all[i] && x in all[j] && all[i][x].kind != all[j][x].kind;
    assert all[|front|] == c;
    var h := if i < |front| then i else j;
    assert h < |front| && all[h] == front[h] && x in c && front[h][x].kind != c[x].kind;
    AccumulatedNames(front, x);
    AccumulatedSamples(front, x, front[h][x].kind);
    assert x in Conflicts(acc, c);
  }

  /** One worker counted a name as a counter and another as a gauge: whichever arrives first wins. */
  lemma FirstArrivalWins(x: Name, c: Metric, g: Metric)
    requires c.kind == Counter && g.kind == Gauge
    ensures MergeAll(map[], [map[x := c], map[x := g]]) == map[x := c]
    ensures MergeAll(map[], [map[x := g], map[x := c]]) == map[x := g]
  {
    MergeTwo(map[x := c], map[x := g]);
    MergeTwo(map[x := g], map[x := c]);
  }

  lemma MergeTwo(a: Cache, b: Cache)
    ensures MergeAll(map[], [a, b]) == MergeInto(a, b)
  {
    assert Front([a, b]) == [a] && Front([a]) == [];
    assert MergeAll(map[], [a]) == MergeInto(map[], a) == a;
  }

  // ---------- any assignment to workers ----------

  /** The entries that `owner` gives to worker `w`. */
  function Shard(entries: seq<Entry>, owner: seq<nat>, w: nat): seq<Entry>
    requires |owner| == |entries|
  {
    if entries == [] then []
    else Shard(Front(entries), Front(owner), w) + if Last(owner) == w then [Last(entries)] else []
  }

  function Shards(entries: seq<Entry>, owner: seq<nat>, workers: nat): seq<seq<Entry>>
    requires |owner| == |entries|
  {
    seq(workers, w requires 0 <= w < workers => Shard(entries, owner, w))
  }

  /** A measure of entries summed over a list. */
  function Total(f: Entry -> nat): seq<Entry> -> nat {
    (l: seq<Entry>) => Sum(l, f)
  }

  /** Splitting a list among workers neither loses nor repeats an entry, by whatever measure. */
  lemma {:induction false} ShardsPartition(entries: seq<Entry>, owner: seq<nat>, workers: nat, f: Entry -> nat)
    requires |owner| == |entries| && forall i :: 0 <= i < |owner| ==> owner[i] < workers
    ensures Sum(Shards(entries, owner, workers), Total(f)) == Sum(entries, f)
  {
    if entries == [] {
      SumZero(Shards(entries, owner, workers), Total(f));
    } else {
      assert owner[|owner| - 1] < workers;
      var before, w, e := Shards(Front(entries), Front(owner), workers), Last(owner), Last(entries);
      ShardsPartition(Front(entries), Front(owner), workers, f);
      ShardsGrow(entries, owner, workers);
      SumUpdate(before, w, before[w] + [e], Total(f));
      SumAppend(before[w], e, f);
    }
  }

  lemma ShardsGrow(entries: seq<Entry>, owner: seq<nat>, workers: nat)
    requires |owner| == |entries| > 0 && Last(owner) < workers
    ensures
      var before, w := Shards(Front(entries), Front(owner), workers), Last(owner);
      Shards(entries, owner, workers) == before[w := before[w] + [Last(entries)]]
  {
    var before, w := Shards(Front(entries), Front(owner), workers), Last(owner);
    forall i | 0 <= i < workers
      ensures Shard(entries, owner, i) == before[w := before[w] + [Last(entries)]][i]
    {
      assert before[i] + [] == before[i];
    }
  }

  lemma {:induction false} ShardNames(entries: seq<Entry>, owner: seq<nat>, w: nat, x: Name)
    requires |owner| == |entries|
    ensures Named(Shard(entries, owner, w), x) ==> Named(entries, x)
  {
    if entries != [] {
      ShardNames(Front(entries), Front(owner), w, x);
      var before := Shard(Front(entries), Front(owner), w);
      if Last(owner) == w {
        StreamConcat(before, [Last(entries)], x);
        assert Front([Last(entries)]) == [];
      } else {
        assert before + [] == before;
      }
    }
  }

  lemma {:induction false} SomeShardNames(entries: seq<Entry>, owner: seq<nat>, x: Name) returns (w: nat)
    requires |owner| == |entries| && Named(entries, x)
    ensures w in owner && Named(Shard(entries, owner, w), x)
  {
    if Named(Front(entries), x) {
      w := SomeShardNames(Front(entries), Front(owner), x);
      var before := Shard(Front(entries), Front(owner), w);
      StreamConcat(before, if Last(owner) == w then [Last(entries)] else [], x);
      assert forall o :: o in Front(owner) ==> o in owner;
    } else {
      w := Last(owner);
      var before := Shard(Front(entries), Front(owner), w);
      assert Front(before + [Last(entries)]) == before;
    }
  }

  lemma {:induction false} ShardTyped(entries: seq<Entry>, owner: seq<nat>, w: nat, kinds: Name -> Kind)
    requires |owner| == |entries| && Typed(entries, kinds)
    ensures Typed(Shard(entries, owner, w), kinds)
  {
    if entries != [] {
      ShardTyped(Front(entries), Front(owner), w, kinds);
    }
  }

  /** The samples of a name and kind, and how often a value is among them, as sums over the entries. */
  function SizeOf(x: Name, k: Kind): Entry -> nat {
    (e: Entry) => if e.name == x && e.metric.kind == k then |e.metric.samples| else 0
  }

  function ValueOf(x: Name, k: Kind, v: Value): Entry -> nat {
    (e: Entry) => if e.name == x && e.metric.kind == k then multiset(e.metric.samples)[v] else 0
  }

  lemma {:induction false} OfKindSum(l: seq<Entry>, x: Name, k: Kind, v: Value)
    ensures |OfKind(l, x, k)| == Sum(l, SizeOf(x, k))
    ensures multiset(OfKind(l, x, k))[v] == Sum(l, ValueOf(x, k, v))
  {
    if l != [] {
      OfKindSum(Front(l), x, k, v);
    }
  }

  /** The workers' task lists bring each worker its shard, in any batches and with any snapshots between them. */
  ghost predicate Feeds(p: Parser, tasks: seq<seq<Task>>, entries: seq<Entry>, owner: seq<nat>)
    requires |owner| == |entries|
  {
    && (forall i :: 0 <= i < |owner| ==> owner[i] < |tasks|)
    && (forall w :: 0 <= w < |tasks| ==> Live(p, tasks[w]) == Shard(entries, owner, w))
  }

  function AllRotated(p: Parser, tasks: seq<seq<Task>>): seq<Cache> {
    seq(|tasks|, w requires 0 <= w < |tasks| => RotatedOut(p, tasks[w]))
  }

  /** What one worker rotates out of a name. */
  lemma RotatedShard(p: Parser, ts: seq<Task>, x: Name, k: Kind)
    ensures
      var out, live := RotatedOut(p, ts), OfKind(Live(p, ts), x, k);
      && (x in out <==> Named(Live(p, ts), x))
      && (x in out ==>
            && (out[x].kind == k ==> |At(out, x)| <= |live|)
            && (out[x].kind == k && |At(out, x)| == |live| <==> RoundsGive(p, ts, x, k))
            && (RoundsGive(p, ts, x, k) ==> multiset(At(out, x)) == multiset(live)))
      && (x !in out ==> At(out, x) == live == [] && RoundsGive(p, ts, x, k))
  {
    RotatedIsBothTiers(p, ts);
    TiersAreRounds(p, ts);
    TiersHold(p, ts, x, k);
    RoundsBringLive(p, ts, x);
    UnnamedOfKind(Live(p, ts), x);
  }

  lemma RotatedNames(p: Parser, tasks: seq<seq<Task>>, entries: seq<Entry>, owner: seq<nat>, x: Name)
    requires |owner| == |entries| && Feeds(p, tasks, entries, owner)
    ensures x in MergeAll(map[], AllRotated(p, tasks)) <==> Named(entries, x)
  {
    var rotated := AllRotated(p, tasks);
    AccumulatedNames(rotated, x);
    if x in MergeAll(map[], rotated) {
      var w :| 0 <= w < |rotated| && x in rotated[w];
      RotatedShard(p, tasks[w], x, Counter);
      ShardNames(entries, owner, w, x);
    }
    if Named(entries, x) {
      var w := SomeShardNames(entries, owner, x);
      RotatedShard(p, tasks[w], x, Counter);
      assert x in rotated[w];
    }
  }

  /** Every worker's rounds give the name the kind it had first among all the entries, and lose none of it. */
  ghost predicate WorkersAgree(p: Parser, tasks: seq<seq<Task>>, entries: seq<Entry>, x: Name) {
    Named(entries, x) ==> forall w :: 0 <= w < |tasks| ==> RoundsGive(p, tasks[w], x, FirstKind(entries, x))
  }

  /** Whatever order the rotated caches arrive in, the leader accumulates the flat cache up to sample order. */
  ghost predicate AlwaysFlat(p: Parser, tasks: seq<seq<Task>>, entries: seq<Entry>) {
    forall arrived :: multiset(arrived) == multiset(AllRotated(p, tasks)) ==>
      SameUpToOrder(MergeAll(map[], arrived), AddAll(map[], entries))
  }

  lemma AgreeingKinds(p: Parser, tasks: seq<seq<Task>>, entries: seq<Entry>, owner: seq<nat>, x: Name)
    requires |owner| == |entries| && Feeds(p, tasks, entries, owner)
    requires Named(entries, x) && WorkersAgree(p, tasks, entries, x)
    ensures OfOneKind(AllRotated(p, tasks), x, FirstKind(entries, x))
  {
    var rotated: seq<Cache> := AllRotated(p, tasks);
    forall w | 0 <= w < |rotated| && x in rotated[w]
      ensures rotated[w][x].kind == FirstKind(entries, x)
    {
      RotatedShard(p, tasks[w], x, FirstKind(entries, x));
    }
  }

  lemma AgreeingCount(p: Parser, tasks: seq<seq<Task>>, entries: seq<Entry>, owner: seq<nat>, x: Name, v: Value)
    requires |owner| == |entries| && Feeds(p, tasks, entries, owner)
    requires Named(entries, x) && WorkersAgree(p, tasks, entries, x)
    ensures Sum(AllRotated(p, tasks), CacheOf(x, v)) == multiset(OfKind(entries, x, FirstKind(entries, x)))[v]
  {
    var k, shards := FirstKind(entries, x), Shards(entries, owner, |tasks|);
    forall w | 0 <= w < |tasks|
      ensures CacheOf(x, v)(AllRotated(p, tasks)[w]) == Total(ValueOf(x, k, v))(shards[w])
    {
      RotatedShard(p, tasks[w], x, k);
      OfKindSum(shards[w], x, k, v);
    }
    SumSame(AllRotated(p, tasks), CacheOf(x, v), shards, Total(ValueOf(x, k, v)));
    ShardsPartition(entries, owner, |tasks|, ValueOf(x, k, v));
    OfKindSum(entries, x, k, v);
  }

  lemma AgreeingIsFlat(p: Parser, tasks: seq<seq<Task>>, entries: seq<Entry>, owner: seq<nat>,
                       arrived: seq<Cache>, x: Name)
    requires |owner| == |entries| && Feeds(p, tasks, entries, owner) && WorkersAgree(p, tasks, entries, x)
    requires multiset(arrived) == multiset(AllRotated(p, tasks))
    ensures
      var acc, flat := MergeAll(map[], arrived), AddAll(map[], entries);
      && (x in acc <==> x in flat)
      && (x in acc ==> acc[x].kind == flat[x].kind && multiset(acc[x].samples) == multiset(flat[x].samples))
  {
    var rotated, acc := AllRotated(p, tasks), MergeAll(map[], arrived);
    SameNames(arrived, rotated, x);
    RotatedNames(p, tasks, entries, owner, x);
    AddAllContent(map[], entries, x);
    if Named(entries, x) {
      var k := FirstKind(entries, x);
      AgreeingKinds(p, tasks, entries, owner, x);
      SameKinds(rotated, arrived, x, k);
      AccumulatedSamples(arrived, x, k);
      forall v: Value
        ensures multiset(acc[x].samples)[v] == multiset(OfKind(entries, x, k))[v]
      {
        SamplesSum(arrived, x, v);
        SumPermutation(arrived, rotated, CacheOf(x, v));
        AgreeingCount(p, tasks, entries, owner, x, v);
      }
    }
  }

  lemma FlatKinds(p: Parser, tasks: seq<seq<Task>>, entries: seq<Entry>, owner: seq<nat>, x: Name)
    requires |owner| == |entries| && Feeds(p, tasks, entries, owner)
    requires AlwaysFlat(p, tasks, entries) && Named(entries, x)
    ensures OfOneKind(AllRotated(p, tasks), x, FirstKind(entries, x))
  {
    var rotated: seq<Cache> := AllRotated(p, tasks);
    AddAllContent(map[], entries, x);
    forall w | 0 <= w < |rotated| && x in rotated[w]
      ensures rotated[w][x].kind == FirstKind(entries, x)
    {
      InFrontArrives(rotated, w);
      FirstDecides(InFront(rotated, w), x);
      assert SameUpToOrder(MergeAll(map[], InFront(rotated, w)), AddAll(map[], entries));
    }
  }

  /** All of a name's samples arrived, and no worker has more than its share, so each has all of it. */
  lemma FlatSizes(p: Parser, tasks: seq<seq<Task>>, entries: seq<Entry>, owner: seq<nat>, x: Name)
    requires |owner| == |entries| && Feeds(p, tasks, entries, owner)
    requires AlwaysFlat(p, tasks, entries) && Named(entries, x)
    ensures WorkersAgree(p, tasks, entries, x)
  {
    var rotated, k, shards := AllRotated(p, tasks), FirstKind(entries, x), Shards(entries, owner, |tasks|);
    FlatKinds(p, tasks, entries, owner, x);
    forall w | 0 <= w < |tasks|
      ensures SizeAt(x)(rotated[w]) <= Total(SizeOf(x, k))(shards[w])
      ensures SizeAt(x)(rotated[w]) == Total(SizeOf(x, k))(shards[w]) ==> RoundsGive(p, tasks[w], x, k)
    {
      RotatedShard(p, tasks[w], x, k);
      OfKindSum(shards[w], x, k, 0.0);
    }
    RotatedTotal(p, tasks, entries, x);
    ShardsPartition(entries, owner, |tasks|, SizeOf(x, k));
    OfKindSum(entries, x, k, 0.0);
    SumTight(rotated, SizeAt(x), shards, Total(SizeOf(x, k)));
  }

  lemma RotatedTotal(p: Parser, tasks: seq<seq<Task>>, entries: seq<Entry>, x: Name)
    requires AlwaysFlat(p, tasks, entries) && Named(entries, x)
    requires OfOneKind(AllRotated(p, tasks), x, FirstKind(entries, x))
    ensures Sum(AllRotated(p, tasks), SizeAt(x)) == |OfKind(entries, x, FirstKind(entries, x))|
  {
    var rotated, k := AllRotated(p, tasks), FirstKind(entries, x);
    AddAllContent(map[], entries, x);
    AccumulatedSamples(rotated, x, k);
    SamplesSum(rotated, x, 0.0);
    assert SameUpToOrder(MergeAll(map[], rotated), AddAll(map[], entries));
    SameSize(AtAll(rotated, x), OfKind(entries, x, k));
  }

  /**
   For any assignment of the entries to any number of workers, any batching of each worker's share, any snapshots
   taken in between and any mix of kinds: the leader accumulates the flat cache of all the entries in every arrival
   order, if and only if every worker's rounds give each name its first kind and lose none of it.
   */
  lemma ShardIndependenceIff(p: Parser, tasks: seq<seq<Task>>, entries: seq<Entry>, owner: seq<nat>)
    requires |owner| == |entries| && Feeds(p, tasks, entries, owner)
    ensures AlwaysFlat(p, tasks, entries) <==> forall x :: WorkersAgree(p, tasks, entries, x)
  {
    if forall x :: WorkersAgree(p, tasks, entries, x) {
      forall arrived | multiset(arrived) == multiset(AllRotated(p, tasks))
        ensures SameUpToOrder(MergeAll(map[], arrived), AddAll(map[], entries))
      {
        forall x
          ensures
            var acc, flat := MergeAll(map[], arrived), AddAll(map[], entries);
            && (x in acc <==> x in flat)
            && (x in acc ==> acc[x].kind == flat[x].kind && multiset(acc[x].samples) == multiset(flat[x].samples))
        {
          AgreeingIsFlat(p, tasks, entries, owner, arrived, x);
        }
      }
    }
    if AlwaysFlat(p, tasks, entries) {
      forall x
        ensures WorkersAgree(p, tasks, entries, x)
      {
        if Named(entries, x) {
          FlatSizes(p, tasks, entries, owner, x);
        }
      }
    }
  }

  /** Shard independence: with one kind per name the leader always accumulates the flat cache, up to sample order. */
  lemma ShardIndependence(p: Parser, tasks: seq<seq<Task>>, entries: seq<Entry>, owner: seq<nat>,
                          arrived: seq<Cache>, kinds: Name -> Kind)
    requires |owner| == |entries| && Typed(entries, kinds) && Feeds(p, tasks, entries, owner)
    requires multiset(arrived) == multiset(AllRotated(p, tasks))
    ensures SameUpToOrder(MergeAll(map[], arrived), AddAll(map[], entries))
  {
    forall x
      ensures WorkersAgree(p, tasks, entries, x)
    {
      TypedStream(entries, x, kinds);
      forall w | 0 <= w < |tasks|
        ensures RoundsGive(p, tasks[w], x, kinds(x))
      {
        ShardTyped(entries, owner, w, kinds);
        TypedRoundsGive(p, tasks[w], kinds, x);
      }
    }
    ShardIndependenceIff(p, tasks, entries, owner);
  }
}
