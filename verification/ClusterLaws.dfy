/**
 What the replication protocol promises over whole runs: nothing is lost or counted twice without a
 delivery to blame for it, nothing received from a peer is ever sent on, and once the traffic has
 settled all nodes have accounted for the same samples.
 */
module ClusterLaws {
  import opened Metrics
  import opened TaskRunners
  import opened Snapshots
  import opened Sums
  import opened Clusters

  function IngestedOf(x: Name, v: Value): Node -> nat { (a: Node) => CountList(a.ingested, x, v) }
  function SharedOf(x: Name, v: Value): Node -> nat { (a: Node) => Shared(a, x, v) }
  function RoundOf(x: Name, v: Value): Node -> nat { (a: Node) => InRound(a, x, v) }

  /** Not in any snapshot yet, or refused on the way in. */
  function KeptBackOf(x: Name, v: Value): Node -> nat {
    (a: Node) => CountList(a.refused, x, v) + InShort(a, x, v)
  }

  /** Sent to `to` but not delivered, because under way or given up. */
  function MissingOf(to: nat, x: Name, v: Value): Flight -> nat {
    (f: Flight) => if f.to == to && f.copies == 0 then CountAll(f.caches, x, v) else 0
  }

  /** Delivered to `to` more than once: the copies after the first. */
  function ExtraOf(to: nat, x: Name, v: Value): Flight -> nat {
    (f: Flight) => if f.to == to && f.copies > 0 then Repeat(f.copies - 1, CountAll(f.caches, x, v)) else 0
  }

  function SentToOf(to: nat, x: Name, v: Value): Flight -> nat {
    (f: Flight) => if f.to == to then CountAll(f.caches, x, v) else 0
  }

  // ---------- summing the invariants over the cluster ----------

  lemma {:induction false} SumSnapshots(nodes: seq<Node>, x: Name, v: Value)
    requires forall n :: 0 <= n < |nodes| ==> OneSnapshot(nodes[n], x, v)
    ensures Sum(nodes, IngestedOf(x, v)) == Sum(nodes, KeptBackOf(x, v)) + Sum(nodes, SharedOf(x, v))
  {
    if nodes != [] {
      SumSnapshots(Front(nodes), x, v);
      assert OneSnapshot(nodes[|nodes| - 1], x, v);
    }
  }

  lemma {:induction false} DeliveryBalance(flights: seq<Flight>, to: nat, x: Name, v: Value)
    ensures Sum(flights, DeliveredOf(to, x, v)) + Sum(flights, MissingOf(to, x, v))
         == Sum(flights, SentToOf(to, x, v)) + Sum(flights, ExtraOf(to, x, v))
  {
    if flights != [] {
      DeliveryBalance(Front(flights), to, x, v);
    }
  }

  /** What the first `k` nodes sent to `to`. */
  function SentByFirst(flights: seq<Flight>, k: nat, to: nat, x: Name, v: Value): nat {
    if k == 0 then 0 else SentByFirst(flights, k - 1, to, x, v) + Sum(flights, SentOf(k - 1, to, x, v))
  }

  lemma {:induction false} FirstOfAppended(flights: seq<Flight>, f: Flight, k: nat, to: nat, x: Name, v: Value)
    ensures SentByFirst(flights + [f], k, to, x, v)
         == SentByFirst(flights, k, to, x, v) + if f.to == to && f.from < k then CountAll(f.caches, x, v) else 0
  {
    if k > 0 {
      FirstOfAppended(flights, f, k - 1, to, x, v);
      SumAppend(flights, f, SentOf(k - 1, to, x, v));
    }
  }

  lemma {:induction false} FirstOfNone(k: nat, to: nat, x: Name, v: Value)
    ensures SentByFirst([], k, to, x, v) == 0
  {
    if k > 0 {
      FirstOfNone(k - 1, to, x, v);
    }
  }

  /** Every flight has a sender, so summing by sender and summing outright agree. */
  lemma {:induction false} SentBySender(flights: seq<Flight>, k: nat, to: nat, x: Name, v: Value)
    requires forall i :: 0 <= i < |flights| ==> flights[i].from < k
    ensures Sum(flights, SentToOf(to, x, v)) == SentByFirst(flights, k, to, x, v)
  {
    if flights == [] {
      FirstOfNone(k, to, x, v);
    } else {
      SentBySender(Front(flights), k, to, x, v);
      FirstOfAppended(Front(flights), Last(flights), k, to, x, v);
      assert flights == Front(flights) + [Last(flights)];
    }
  }

  /** What the first `k` nodes published, each as often as it lists `n`. */
  function Published(s: Cluster, k: nat, n: nat, x: Name, v: Value): int
    requires k <= |s.nodes| && k <= |s.peers|
  {
    if k == 0 then 0
    else
      var m := k - 1;
      Published(s, m, n, x, v)
        + Repeat(Times(s.peers[m], n), Shared(s.nodes[m], x, v))
        - Repeat(Times(s.peers[m], n), InRound(s.nodes[m], x, v))
  }

  lemma {:induction false} PublishedIsSent(s: Cluster, k: nat, n: nat, x: Name, v: Value)
    requires k <= |s.nodes| && k <= |s.peers|
    requires forall m :: 0 <= m < k ==> FlightPerListing(s, m, n, x, v)
    ensures Published(s, k, n, x, v) == SentByFirst(s.flights, k, n, x, v)
  {
    if k > 0 {
      PublishedIsSent(s, k - 1, n, x, v);
      assert FlightPerListing(s, k - 1, n, x, v);
    }
  }

  /** Each node lists every other node once and itself never. */
  predicate FullMesh(s: Cluster) {
    forall m, n :: 0 <= m < |s.peers| && 0 <= n < |s.nodes| ==> Times(s.peers[m], n) == if m == n then 0 else 1
  }

  lemma PublishedInMesh(s: Cluster, n: nat, k: nat, x: Name, v: Value)
    requires |s.peers| == |s.nodes| && FullMesh(s) && n < |s.nodes| && 0 < k <= |s.nodes|
    ensures
      var a := s.nodes[k - 1];
      Published(s, k, n, x, v) == Published(s, k - 1, n, x, v)
        + if n == k - 1 then 0 else Shared(a, x, v) - InRound(a, x, v)
  {
    assert Times(s.peers[k - 1], n) == if k - 1 == n then 0 else 1;
    Once(Shared(s.nodes[k - 1], x, v));
    Once(InRound(s.nodes[k - 1], x, v));
  }

  /** In a full mesh what the others shared is in their open rounds or was sent to `n`. */
  lemma {:induction false} SharedWith(s: Cluster, n: nat, k: nat, x: Name, v: Value)
    requires |s.peers| == |s.nodes| && FullMesh(s) && n < |s.nodes| && k <= |s.nodes|
    ensures
      var own := if n < k then Shared(s.nodes[n], x, v) else 0;
      var ownRound := if n < k then InRound(s.nodes[n], x, v) else 0;
      Sum(s.nodes[..k], SharedOf(x, v)) + ownRound
        == own + Sum(s.nodes[..k], RoundOf(x, v)) + Published(s, k, n, x, v)
  {
    if k > 0 {
      SharedWith(s, n, k - 1, x, v);
      SumPrefix(s.nodes, k, SharedOf(x, v));
      SumPrefix(s.nodes, k, RoundOf(x, v));
      PublishedInMesh(s, n, k, x, v);
    }
  }

  lemma Once(c: nat)
    ensures Repeat(1, c) == c && Repeat(0, c) == 0
  {
    assert Repeat(0, c) == 0;
  }

  // ---------- the laws ----------

  /**
   Conservation under any node lists, in every state of every run and at every node, for every name and value:
   what a node has accounted for, plus what was sent to it and did not arrive, is what it shared itself, plus
   what each node published as often as that node lists it, plus the repeated deliveries.
   */
  lemma ListedConservation(p: Parser, states: seq<Cluster>, steps: seq<Step>, i: nat, n: nat, x: Name, v: Value)
    requires IsRun(p, states, steps) && i < |states| && n < |states[i].nodes|
    ensures
      var s := states[i];
      && |s.peers| == |s.nodes|
      && Accounted(s.nodes[n], x, v) + Sum(s.flights, MissingOf(n, x, v))
         == Shared(s.nodes[n], x, v) + Published(s, |s.nodes|, n, x, v) + Sum(s.flights, ExtraOf(n, x, v))
  {
    var s := states[i];
    RunInvariant(p, states, steps, i, x, v);
    DeliveryBalance(s.flights, n, x, v);
    SentBySender(s.flights, |s.nodes|, n, x, v);
    PublishedIsSent(s, |s.nodes|, n, x, v);
    assert LongSide(s, n, x, v);
  }

  /**
   Conservation in a full mesh, in every state of every run and at every node, for every name and value:
   what the node has accounted for, plus what is kept back anywhere, plus what waits in the open rounds
   of other nodes, plus what was sent to the node and did not arrive, is what was ever taken in anywhere
   plus the repeated deliveries to the node.
   */
  lemma Conservation(p: Parser, states: seq<Cluster>, steps: seq<Step>, i: nat, n: nat, x: Name, v: Value)
    requires IsRun(p, states, steps) && i < |states| && n < |states[i].nodes| && FullMesh(states[i])
    ensures
      var s := states[i];
      Accounted(s.nodes[n], x, v) + Sum(s.nodes, KeptBackOf(x, v))
        + Sum(s.nodes, RoundOf(x, v)) - InRound(s.nodes[n], x, v) + Sum(s.flights, MissingOf(n, x, v))
        == Sum(s.nodes, IngestedOf(x, v)) + Sum(s.flights, ExtraOf(n, x, v))
  {
    var s := states[i];
    RunInvariant(p, states, steps, i, x, v);
    ListedConservation(p, states, steps, i, n, x, v);
    SumSnapshots(s.nodes, x, v);
    SharedWith(s, n, |s.nodes|, x, v);
    assert s.nodes[..|s.nodes|] == s.nodes;
  }

  /**
   No echo: what a node has ever put in snapshots together with what it still holds unshared is what it
   took in itself, less what it refused; so no snapshot carries anything a peer sent.
   */
  lemma NoEcho(p: Parser, states: seq<Cluster>, steps: seq<Step>, i: nat, f: nat, x: Name, v: Value)
    requires IsRun(p, states, steps) && i < |states| && f < |states[i].flights|
    ensures
      var flight := states[i].flights[f];
      && flight.from < |states[i].nodes|
      && var a := states[i].nodes[flight.from];
      CountAll(flight.caches, x, v) + InRound(a, x, v) + InShort(a, x, v) + CountList(a.refused, x, v)
        <= CountList(a.ingested, x, v)
  {
    var s := states[i];
    var flight := s.flights[f];
    RunInvariant(p, states, steps, i, x, v);
    assert FlightOk(flight, |s.nodes|);
    assert FromShared(s, flight, x, v);
    assert OneSnapshot(s.nodes[flight.from], x, v);
  }

  /** A node that lists a peer once sends it each sample it took in, did not refuse and has shared, once. */
  lemma EachSampleOnce(p: Parser, states: seq<Cluster>, steps: seq<Step>, i: nat, m: nat, n: nat, x: Name, v: Value)
    requires IsRun(p, states, steps) && i < |states|
    requires m < |states[i].nodes| && m < |states[i].peers| && Times(states[i].peers[m], n) == 1
    ensures
      var a := states[i].nodes[m];
      CountList(a.ingested, x, v) == CountList(a.refused, x, v) + InShort(a, x, v) + InRound(a, x, v)
        + Sum(states[i].flights, SentOf(m, n, x, v))
  {
    RunInvariant(p, states, steps, i, x, v);
    var a := states[i].nodes[m];
    assert OneSnapshot(a, x, v);
    assert FlightPerListing(states[i], m, n, x, v);
    Once(Shared(a, x, v));
    Once(InRound(a, x, v));
  }

  /** A round has a place for the answer of every worker. */
  ghost predicate RoundsSized(s: Cluster) {
    forall n :: 0 <= n < |s.nodes| && s.nodes[n].round.Some? ==> |s.nodes[n].round.value| == |s.nodes[n].workers|
  }

  lemma {:induction false} RunRoundsSized(p: Parser, states: seq<Cluster>, steps: seq<Step>, i: nat)
    requires IsRun(p, states, steps) && i < |states|
    ensures RoundsSized(states[i])
  {
    if i == 0 {
      forall n | 0 <= n < |states[0].nodes|
        ensures states[0].nodes[n].round == None
      {
        assert states[0].nodes[n] == NewNode(|states[0].nodes[n].workers|);
      }
    } else {
      RunRoundsSized(p, states, steps, i - 1);
      assert states[i - 1 + 1] == Next(p, states[i - 1], steps[i - 1]);
    }
  }

  /** In every run a snapshot goes out only with the answer of every worker in it: none is left behind. */
  lemma SnapshotsAreWhole(p: Parser, states: seq<Cluster>, steps: seq<Step>, i: nat)
    requires IsRun(p, states, steps) && i < |steps| && steps[i].Publish?
    ensures
      && steps[i].n < |states[i].nodes|
      && var a := states[i].nodes[steps[i].n];
      && a.round.Some? && |a.round.value| == |Somes(a.round.value)| == |a.workers|
      && forall w :: 0 <= w < |a.workers| ==> a.round.value[w] == Some(Somes(a.round.value)[w])
  {
    RunRoundsSized(p, states, steps, i);
    assert Enabled(states[i], steps[i]);
    AllThere(states[i].nodes[steps[i].n].round.value);
  }

  lemma {:induction false} AllThere<T>(l: seq<Option<T>>)
    requires forall i :: 0 <= i < |l| ==> l[i].Some?
    ensures |Somes(l)| == |l| && forall i :: 0 <= i < |l| ==> l[i] == Some(Somes(l)[i])
  {
    if l != [] {
      AllThere(Front(l));
      assert Last(l) == l[|l| - 1];
    }
  }

  /** No snapshot under way carries an empty cache. */
  ghost predicate FlightsFull(s: Cluster) {
    forall f, c :: 0 <= f < |s.flights| && c in s.flights[f].caches ==> c != map[]
  }

  lemma {:induction false} RunFlightsFull(p: Parser, states: seq<Cluster>, steps: seq<Step>, i: nat)
    requires IsRun(p, states, steps) && i < |states|
    ensures FlightsFull(states[i])
  {
    if i > 0 {
      RunFlightsFull(p, states, steps, i - 1);
      var s, l := states[i - 1], steps[i - 1];
      assert states[i - 1 + 1] == Next(p, s, l);
      if l.Publish? {
        var caches := Retain(Somes(s.nodes[l.n].round.value));
        RetainOnlyFull(Somes(s.nodes[l.n].round.value));
        FanFlights(l.n, s.peers[l.n], caches);
      }
    }
  }

  /** A peer gets at most four copies of a snapshot: one attempt and three retries. */
  lemma AtMostFourCopies(p: Parser, states: seq<Cluster>, steps: seq<Step>, i: nat, f: nat)
    requires IsRun(p, states, steps) && i < |states| && f < |states[i].flights|
    ensures states[i].flights[f].copies <= 4
  {
    RunInvariant(p, states, steps, i, Name([]), 0.0);
    assert FlightOk(states[i].flights[f], |states[i].nodes|);
  }

  // ---------- one kind per name ----------

  ghost predicate WorkerTyped(w: Worker, kinds: Name -> Kind) {
    TypedCache(w.long, kinds) && TypedCache(w.short, kinds)
  }

  /** All a node holds is of the kinds, and nothing was ever refused there. */
  ghost predicate NodeTyped(a: Node, kinds: Name -> Kind) {
    && (forall i :: 0 <= i < |a.workers| ==> WorkerTyped(a.workers[i], kinds))
    && (forall i :: 0 <= i < |a.inbox| ==> Typed(a.inbox[i].list, kinds))
    && (a.round.Some? ==>
          forall i :: 0 <= i < |a.round.value| && a.round.value[i].Some? ==> TypedCache(a.round.value[i].value, kinds))
    && a.refused == [] && a.rejected == []
    && (forall i :: 0 <= i < |a.conflicts| ==> a.conflicts[i] == map[])
  }

  ghost predicate ClusterTyped(s: Cluster, kinds: Name -> Kind) {
    && (forall n :: 0 <= n < |s.nodes| ==> NodeTyped(s.nodes[n], kinds))
    && (forall f :: 0 <= f < |s.flights| ==> AllTyped(s.flights[f].caches, kinds))
  }

  /** Everything ever taken in anywhere uses each name under one kind. */
  ghost predicate OneKindPerName(s: Cluster, kinds: Name -> Kind) {
    forall n :: 0 <= n < |s.nodes| ==> Typed(s.nodes[n].ingested, kinds)
  }

  lemma {:induction false} ListingTyped(c: Cache, l: seq<Entry>, kinds: Name -> Kind)
    requires IsListing(c, l) && TypedCache(c, kinds)
    ensures Typed(l, kinds)
  {
    if l != [] {
      ListingTyped(c - {Last(l).name}, Front(l), kinds);
    }
  }

  lemma {:induction false} FlatteningTyped(caches: seq<Cache>, l: seq<Entry>, kinds: Name -> Kind)
    requires IsFlattening(caches, l) && AllTyped(caches, kinds)
    ensures Typed(l, kinds)
  {
    if caches != [] {
      var n := |l| - |Last(caches)|;
      FlatteningTyped(Front(caches), l[..n], kinds);
      ListingTyped(Last(caches), l[n..], kinds);
      assert l == l[..n] + l[n..];
    }
  }

  lemma {:induction false} AnswersTyped(r: seq<Option<Cache>>, kinds: Name -> Kind)
    requires forall i :: 0 <= i < |r| && r[i].Some? ==> TypedCache(r[i].value, kinds)
    ensures AllTyped(Somes(r), kinds)
  {
    if r != [] {
      AnswersTyped(Front(r), kinds);
      var before := Somes(Front(r));
      if Last(r).Some? {
        assert r[|r| - 1].Some?;
        assert Front(before + [Last(r).value]) == before;
      } else {
        assert before + [] == before;
      }
    }
  }

  lemma {:induction false} RetainTyped(caches: seq<Cache>, kinds: Name -> Kind)
    requires AllTyped(caches, kinds)
    ensures AllTyped(Retain(caches), kinds)
  {
    if caches != [] {
      RetainTyped(Front(caches), kinds);
      var kept := Retain(Front(caches));
      if |Last(caches)| > 0 {
        assert Front(kept + [Last(caches)]) == kept;
      } else {
        assert kept + [] == kept;
      }
    }
  }

  lemma IngestTyped(p: Parser, a: Node, w: nat, t: Task, kinds: Name -> Kind)
    requires w < |a.workers| && (t.Parse? || t.AddMetric? || t.AddMetrics?)
    requires NodeTyped(a, kinds) && Typed(a.ingested + Ingested(p, a.workers[w], t), kinds)
    ensures NodeTyped(IngestAt(p, a, w, t), kinds)
  {
    var list := Ingested(p, a.workers[w], t);
    TypedSuffix(a.ingested, list, kinds);
    assert WorkerTyped(a.workers[w], kinds);
    TypedAddAll(a.workers[w].short, list, kinds);
  }

  lemma TypedSuffix(a: seq<Entry>, b: seq<Entry>, kinds: Name -> Kind)
    requires Typed(a + b, kinds)
    ensures Typed(a, kinds) && Typed(b, kinds)
  {
    forall i | 0 <= i < |a| ensures a[i].metric.kind == kinds(a[i].name) { assert (a + b)[i] == a[i]; }
    forall i | 0 <= i < |b| ensures b[i].metric.kind == kinds(b[i].name) { assert (a + b)[|a| + i] == b[i]; }
  }

  lemma RotateTyped(p: Parser, a: Node, w: nat, kinds: Name -> Kind)
    requires w < |a.workers| && NodeTyped(a, kinds)
    ensures NodeTyped(RotateAt(p, a, w), kinds)
  {
    assert WorkerTyped(a.workers[w], kinds);
  }

  lemma AnswerTyped(p: Parser, a: Node, w: nat, kinds: Name -> Kind)
    requires Awaits(a, w) && NodeTyped(a, kinds)
    ensures NodeTyped(AnswerAt(p, a, w), kinds)
  {
    assert WorkerTyped(a.workers[w], kinds);
    TypedMerge(a.workers[w].long, a.workers[w].short, kinds);
  }

  lemma AcceptTyped(p: Parser, a: Node, i: nat, kinds: Name -> Kind)
    requires i < |a.inbox| && a.inbox[i].worker < |a.workers| && NodeTyped(a, kinds)
    ensures NodeTyped(AcceptAt(p, a, i), kinds)
  {
    var letter := a.inbox[i];
    assert WorkerTyped(a.workers[letter.worker], kinds);
    TypedAddAll(a.workers[letter.worker].long, letter.list, kinds);
  }

  lemma PutTyped(s: Cluster, n: nat, b: Node, kinds: Name -> Kind)
    requires ClusterTyped(s, kinds) && n < |s.nodes| && NodeTyped(b, kinds)
    ensures ClusterTyped(Put(s, n, b), kinds)
  {
  }

  lemma PublishTyped(p: Parser, s: Cluster, n: nat, kinds: Name -> Kind)
    requires Enabled(s, Publish(n)) && ClusterTyped(s, kinds)
    ensures ClusterTyped(Next(p, s, Publish(n)), kinds)
  {
    var a := s.nodes[n];
    assert NodeTyped(a, kinds);
    PutTyped(s, n, a.(round := None), kinds);
    AnswersTyped(a.round.value, kinds);
    RetainTyped(Somes(a.round.value), kinds);
    FanFlights(n, s.peers[n], Retain(Somes(a.round.value)));
  }

  lemma DeliverTyped(p: Parser, s: Cluster, l: Step, kinds: Name -> Kind)
    requires l.Deliver? && Enabled(s, l) && ClusterTyped(s, kinds)
    ensures ClusterTyped(Next(p, s, l), kinds)
  {
    var f := s.flights[l.f];
    var a := s.nodes[f.to];
    assert AllTyped(f.caches, kinds) && NodeTyped(a, kinds);
    FlatteningTyped(f.caches, l.list, kinds);
    PutTyped(s, f.to, a.(inbox := a.inbox + [Letter(l.w, l.list)]), kinds);
  }

  lemma StepTyped(p: Parser, s: Cluster, l: Step, kinds: Name -> Kind)
    requires Enabled(s, l) && ClusterTyped(s, kinds) && OneKindPerName(Next(p, s, l), kinds)
    ensures ClusterTyped(Next(p, s, l), kinds)
  {
    match l
    case Ingest(n, w, t) =>
      assert Typed(Next(p, s, l).nodes[n].ingested, kinds);
      IngestTyped(p, s.nodes[n], w, t, kinds);
      PutTyped(s, n, IngestAt(p, s.nodes[n], w, t), kinds);
    case RotateWorker(n, w) =>
      RotateTyped(p, s.nodes[n], w, kinds);
      PutTyped(s, n, RotateAt(p, s.nodes[n], w), kinds);
    case OpenRound(n) => PutTyped(s, n, OpenAt(s.nodes[n]), kinds);
    case Answer(n, w) =>
      AnswerTyped(p, s.nodes[n], w, kinds);
      PutTyped(s, n, AnswerAt(p, s.nodes[n], w), kinds);
    case Publish(n) => PublishTyped(p, s, n, kinds);
    case Deliver(_, _, _, _) => DeliverTyped(p, s, l, kinds);
    case Fail(f, noticed) =>
    case Accept(n, i) =>
      AcceptTyped(p, s.nodes[n], i, kinds);
      PutTyped(s, n, AcceptAt(p, s.nodes[n], i), kinds);
  }

  /** Records only grow, so what holds of all that was ever taken in held before. */
  lemma OneKindBefore(p: Parser, s: Cluster, l: Step, kinds: Name -> Kind)
    requires Enabled(s, l) && OneKindPerName(Next(p, s, l), kinds)
    ensures OneKindPerName(s, kinds)
  {
    var t := Next(p, s, l);
    forall n | 0 <= n < |s.nodes|
      ensures Typed(s.nodes[n].ingested, kinds)
    {
      assert Typed(t.nodes[n].ingested, kinds);
      if l.Ingest? && l.n == n {
        TypedSuffix(s.nodes[n].ingested, Ingested(p, s.nodes[n].workers[l.w], l.task), kinds);
      }
    }
  }

  /** With one kind per name no cache anywhere has refused anything. */
  lemma {:induction false} RunTyped(p: Parser, states: seq<Cluster>, steps: seq<Step>, i: nat, kinds: Name -> Kind)
    requires IsRun(p, states, steps) && i < |states| && OneKindPerName(states[i], kinds)
    ensures ClusterTyped(states[i], kinds)
  {
    if i == 0 {
      forall n | 0 <= n < |states[0].nodes|
        ensures NodeTyped(states[0].nodes[n], kinds)
      {
        assert states[0].nodes[n] == NewNode(|states[0].nodes[n].workers|);
      }
    } else {
      assert states[i - 1 + 1] == Next(p, states[i - 1], steps[i - 1]);
      OneKindBefore(p, states[i - 1], steps[i - 1], kinds);
      RunTyped(p, states, steps, i - 1, kinds);
      StepTyped(p, states[i - 1], steps[i - 1], kinds);
    }
  }

  /** What a node holds in its long caches or has rotated out. */
  function Counted(a: Node, x: Name, v: Value): nat {
    Sum(a.workers, LongOf(x, v)) + CountAll(a.rotated, x, v)
  }

  function InShortOf(x: Name, v: Value): Node -> nat { (a: Node) => InShort(a, x, v) }

  lemma NothingRefused(a: Node, kinds: Name -> Kind, x: Name, v: Value)
    requires NodeTyped(a, kinds)
    ensures Accounted(a, x, v) == Counted(a, x, v) + Sum(a.inbox, LetterOf(x, v))
    ensures KeptBackOf(x, v)(a) == InShort(a, x, v)
  {
    SumZero(a.conflicts, CacheOf(x, v));
  }

  lemma {:induction false} KeptBackIsShort(nodes: seq<Node>, kinds: Name -> Kind, x: Name, v: Value)
    requires forall n :: 0 <= n < |nodes| ==> NodeTyped(nodes[n], kinds)
    ensures Sum(nodes, KeptBackOf(x, v)) == Sum(nodes, InShortOf(x, v))
  {
    if nodes != [] {
      KeptBackIsShort(Front(nodes), kinds, x, v);
      assert NodeTyped(nodes[|nodes| - 1], kinds);
      NothingRefused(Last(nodes), kinds, x, v);
    }
  }

  lemma NoExtra(flights: seq<Flight>, n: nat, x: Name, v: Value)
    requires forall f :: 0 <= f < |flights| && flights[f].to == n ==> flights[f].copies <= 1
    ensures Sum(flights, ExtraOf(n, x, v)) == 0
  {
    SumZero(flights, ExtraOf(n, x, v));
  }

  /**
   In a full mesh, with one kind per name and no repeated delivery to the node: what it holds and has rotated out, plus
   all short caches, plus what is on its way to it, is exactly what was ever taken in anywhere.
   */
  lemma ReliableConservation(p: Parser, states: seq<Cluster>, steps: seq<Step>, i: nat, n: nat,
                             kinds: Name -> Kind, x: Name, v: Value)
    requires IsRun(p, states, steps) && i < |states| && n < |states[i].nodes|
    requires OneKindPerName(states[i], kinds) && FullMesh(states[i])
    requires
      var flights := states[i].flights;
      forall f :: 0 <= f < |flights| && flights[f].to == n ==> flights[f].copies <= 1
    ensures
      var s := states[i];
      Counted(s.nodes[n], x, v) + Sum(s.nodes, InShortOf(x, v)) + Sum(s.nodes[n].inbox, LetterOf(x, v))
        + Sum(s.nodes, RoundOf(x, v)) - InRound(s.nodes[n], x, v) + Sum(s.flights, MissingOf(n, x, v))
        == Sum(s.nodes, IngestedOf(x, v))
  {
    var s := states[i];
    Conservation(p, states, steps, i, n, x, v);
    RunTyped(p, states, steps, i, kinds);
    assert NodeTyped(s.nodes[n], kinds);
    NothingRefused(s.nodes[n], kinds, x, v);
    KeptBackIsShort(s.nodes, kinds, x, v);
    NoExtra(s.flights, n, x, v);
  }

  /** Nothing waits at a node: short caches and inboxes are empty and no round is open. */
  ghost predicate Quiet(s: Cluster) {
    forall n :: 0 <= n < |s.nodes| ==> Still(s.nodes[n])
  }

  ghost predicate Still(a: Node) {
    && a.inbox == [] && a.round == None
    && forall w :: 0 <= w < |a.workers| ==> a.workers[w].short == map[]
  }

  /** No data is on its way: nothing waits at a node, and every flight arrived once. */
  ghost predicate Settled(s: Cluster) {
    Quiet(s) && forall f :: 0 <= f < |s.flights| ==> s.flights[f].copies == 1
  }

  lemma QuietNode(a: Node, x: Name, v: Value)
    requires Still(a)
    ensures InShort(a, x, v) == 0 && InRound(a, x, v) == 0 && Sum(a.inbox, LetterOf(x, v)) == 0
  {
    SumZero(a.workers, ShortOf(x, v));
  }

  /** A quiet full mesh has at each node all that was taken in, less what did not arrive, plus what arrived again. */
  lemma QuietBalance(p: Parser, states: seq<Cluster>, steps: seq<Step>, i: nat, n: nat,
                     kinds: Name -> Kind, x: Name, v: Value)
    requires IsRun(p, states, steps) && i < |states| && n < |states[i].nodes|
    requires OneKindPerName(states[i], kinds) && FullMesh(states[i]) && Quiet(states[i])
    ensures
      var s := states[i];
      Counted(s.nodes[n], x, v) + Sum(s.flights, MissingOf(n, x, v))
        == Sum(s.nodes, IngestedOf(x, v)) + Sum(s.flights, ExtraOf(n, x, v))
  {
    var s := states[i];
    Conservation(p, states, steps, i, n, x, v);
    RunTyped(p, states, steps, i, kinds);
    assert NodeTyped(s.nodes[n], kinds);
    NothingRefused(s.nodes[n], kinds, x, v);
    KeptBackIsShort(s.nodes, kinds, x, v);
    forall k | 0 <= k < |s.nodes|
      ensures InShortOf(x, v)(s.nodes[k]) == 0 && RoundOf(x, v)(s.nodes[k]) == 0
      ensures Sum(s.nodes[k].inbox, LetterOf(x, v)) == 0
    {
      QuietNode(s.nodes[k], x, v);
    }
    SumZero(s.nodes, RoundOf(x, v));
    SumZero(s.nodes, InShortOf(x, v));
  }

  /**
   So a quiet full mesh has counted everything right at a node if and only if what did not arrive there and what
   arrived there again come to the same.
   */
  lemma QuietRightIff(p: Parser, states: seq<Cluster>, steps: seq<Step>, i: nat, n: nat,
                      kinds: Name -> Kind, x: Name, v: Value)
    requires IsRun(p, states, steps) && i < |states| && n < |states[i].nodes|
    requires OneKindPerName(states[i], kinds) && FullMesh(states[i]) && Quiet(states[i])
    ensures
      var s := states[i];
      Counted(s.nodes[n], x, v) == Sum(s.nodes, IngestedOf(x, v)) <==>
        Sum(s.flights, MissingOf(n, x, v)) == Sum(s.flights, ExtraOf(n, x, v))
  {
    QuietBalance(p, states, steps, i, n, kinds, x, v);
  }

  /** Once a full mesh has settled, every node has counted every sample as often as it was taken in anywhere. */
  lemma SettledCountsAll(p: Parser, states: seq<Cluster>, steps: seq<Step>, i: nat, n: nat,
                         kinds: Name -> Kind, x: Name, v: Value)
    requires IsRun(p, states, steps) && i < |states| && n < |states[i].nodes|
    requires OneKindPerName(states[i], kinds) && FullMesh(states[i]) && Settled(states[i])
    ensures Counted(states[i].nodes[n], x, v) == Sum(states[i].nodes, IngestedOf(x, v))
  {
    QuietBalance(p, states, steps, i, n, kinds, x, v);
    SumZero(states[i].flights, MissingOf(n, x, v));
    NoExtra(states[i].flights, n, x, v);
  }

  /** So whichever node leads, its rotations carry the same totals. */
  lemma SettledNodesAgree(p: Parser, states: seq<Cluster>, steps: seq<Step>, i: nat, m: nat, n: nat,
                          kinds: Name -> Kind, x: Name, v: Value)
    requires IsRun(p, states, steps) && i < |states| && m < |states[i].nodes| && n < |states[i].nodes|
    requires OneKindPerName(states[i], kinds) && FullMesh(states[i]) && Settled(states[i])
    ensures Counted(states[i].nodes[m], x, v) == Counted(states[i].nodes[n], x, v)
  {
    SettledCountsAll(p, states, steps, i, m, kinds, x, v);
    SettledCountsAll(p, states, steps, i, n, kinds, x, v);
  }

  // ---------- the node lists matter ----------

  /** How often a sample taken in at `m` is counted at `n`: once at home, and once for each listing. */
  function Weight(s: Cluster, m: nat, n: nat): nat
    requires m < |s.peers|
  {
    Times(s.peers[m], n) + if m == n then 1 else 0
  }

  lemma StillShares(a: Node, kinds: Name -> Kind, x: Name, v: Value)
    requires OneSnapshot(a, x, v) && NodeTyped(a, kinds) && Still(a)
    ensures SharedAll(a, x, v) && Accounted(a, x, v) == Counted(a, x, v)
  {
    QuietNode(a, x, v);
    NothingRefused(a, kinds, x, v);
  }

  /** What the first `k` nodes took in, each as often as its weight at `n`. */
  function Weighted(s: Cluster, k: nat, n: nat, x: Name, v: Value): nat
    requires k <= |s.nodes| && k <= |s.peers|
  {
    if k == 0 then 0
    else Weighted(s, k - 1, n, x, v) + Repeat(Weight(s, k - 1, n), CountList(s.nodes[k - 1].ingested, x, v))
  }

  /** All that was taken in is shared, and none of it is in a round. */
  ghost predicate AllShared(s: Cluster, x: Name, v: Value) {
    forall k :: 0 <= k < |s.nodes| ==> SharedAll(s.nodes[k], x, v)
  }

  ghost predicate SharedAll(a: Node, x: Name, v: Value) {
    Shared(a, x, v) == CountList(a.ingested, x, v) && InRound(a, x, v) == 0
  }

  lemma QuietAllShared(p: Parser, states: seq<Cluster>, steps: seq<Step>, i: nat,
                       kinds: Name -> Kind, x: Name, v: Value)
    requires IsRun(p, states, steps) && i < |states|
    requires OneKindPerName(states[i], kinds) && Quiet(states[i])
    ensures AllShared(states[i], x, v)
    ensures
      var nodes := states[i].nodes;
      forall k :: 0 <= k < |nodes| ==> Accounted(nodes[k], x, v) == Counted(nodes[k], x, v)
  {
    var s := states[i];
    RunInvariant(p, states, steps, i, x, v);
    RunTyped(p, states, steps, i, kinds);
    forall k | 0 <= k < |s.nodes|
      ensures SharedAll(s.nodes[k], x, v) && Accounted(s.nodes[k], x, v) == Counted(s.nodes[k], x, v)
    {
      assert OneSnapshot(s.nodes[k], x, v) && NodeTyped(s.nodes[k], kinds);
      StillShares(s.nodes[k], kinds, x, v);
    }
  }

  lemma WeightedRepeat(times: nat, home: bool, c: nat)
    ensures Repeat(times + if home then 1 else 0, c) == Repeat(times, c) + if home then c else 0
  {
  }

  /** Node `m` published all it took in as often as it lists `n`. */
  ghost predicate PublishedAll(s: Cluster, m: nat, n: nat, x: Name, v: Value)
    requires m < |s.nodes| == |s.peers|
  {
    Published(s, m + 1, n, x, v)
      == Published(s, m, n, x, v) + Repeat(Times(s.peers[m], n), CountList(s.nodes[m].ingested, x, v))
  }

  lemma PublishedStep(s: Cluster, m: nat, n: nat, x: Name, v: Value)
    requires m < |s.nodes| == |s.peers| && SharedAll(s.nodes[m], x, v)
    ensures PublishedAll(s, m, n, x, v)
  {
    RepeatZero(Times(s.peers[m], n));
  }

  lemma WeightedStep(s: Cluster, m: nat, n: nat, x: Name, v: Value)
    requires m < |s.nodes| == |s.peers|
    ensures
      var c := CountList(s.nodes[m].ingested, x, v);
      Weighted(s, m + 1, n, x, v) == Weighted(s, m, n, x, v) + Repeat(Times(s.peers[m], n), c) + if m == n then c else 0
  {
    WeightedRepeat(Times(s.peers[m], n), m == n, CountList(s.nodes[m].ingested, x, v));
  }

  lemma {:induction false} PublishedIsWeighted(s: Cluster, k: nat, n: nat, x: Name, v: Value)
    requires k <= |s.nodes| == |s.peers| && n < |s.nodes|
    requires forall m :: 0 <= m < |s.nodes| ==> PublishedAll(s, m, n, x, v)
    ensures Weighted(s, k, n, x, v)
         == Published(s, k, n, x, v) + if n < k then CountList(s.nodes[n].ingested, x, v) else 0
  {
    if k > 0 {
      PublishedIsWeighted(s, k - 1, n, x, v);
      assert PublishedAll(s, k - 1, n, x, v);
      WeightedStep(s, k - 1, n, x, v);
    }
  }

  /**
   In any quiet cluster each node has counted what each node took in as often as that node lists it, and its own
   data once more; less what did not arrive, plus what arrived again.
   */
  lemma QuietCount(p: Parser, states: seq<Cluster>, steps: seq<Step>, i: nat, n: nat,
                   kinds: Name -> Kind, x: Name, v: Value)
    requires IsRun(p, states, steps) && i < |states| && n < |states[i].nodes|
    requires OneKindPerName(states[i], kinds) && Quiet(states[i])
    ensures
      var s := states[i];
      && |s.peers| == |s.nodes|
      && Counted(s.nodes[n], x, v) + Sum(s.flights, MissingOf(n, x, v))
         == Weighted(s, |s.nodes|, n, x, v) + Sum(s.flights, ExtraOf(n, x, v))
  {
    var s := states[i];
    QuietAllShared(p, states, steps, i, kinds, x, v);
    ListedConservation(p, states, steps, i, n, x, v);
    forall m | 0 <= m < |s.nodes|
      ensures PublishedAll(s, m, n, x, v)
    {
      assert SharedAll(s.nodes[m], x, v);
      PublishedStep(s, m, n, x, v);
    }
    PublishedIsWeighted(s, |s.nodes|, n, x, v);
    assert SharedAll(s.nodes[n], x, v) && Accounted(s.nodes[n], x, v) == Counted(s.nodes[n], x, v);
  }

  /** So once any cluster has settled it is the weights alone that say how often a sample is counted. */
  lemma SettledCount(p: Parser, states: seq<Cluster>, steps: seq<Step>, i: nat, n: nat,
                     kinds: Name -> Kind, x: Name, v: Value)
    requires IsRun(p, states, steps) && i < |states| && n < |states[i].nodes|
    requires OneKindPerName(states[i], kinds) && Settled(states[i])
    ensures |states[i].peers| == |states[i].nodes|
    ensures Counted(states[i].nodes[n], x, v) == Weighted(states[i], |states[i].nodes|, n, x, v)
  {
    QuietCount(p, states, steps, i, n, kinds, x, v);
    SumZero(states[i].flights, MissingOf(n, x, v));
    NoExtra(states[i].flights, n, x, v);
  }
}
