/**
 Runs that exist. From any start, one sample taken in anywhere can be carried through the whole protocol, every
 peer getting any one number of copies from none to four. So deliveries do go missing and do repeat, and only
 a full mesh of node lists counts everything right in every settled run.
 */
module ClusterRuns {
  import opened Metrics
  import opened TaskRunners
  import opened Snapshots
  import opened Sums
  import opened Clusters
  import opened ClusterLaws

  // ---------- reaching a state ----------

  ghost predicate Leads(p: Parser, start: Cluster, s: Cluster, states: seq<Cluster>, steps: seq<Step>) {
    IsRun(p, states, steps) && states[0] == start && Last(states) == s
  }

  ghost predicate Reaches(p: Parser, start: Cluster, s: Cluster) {
    exists states, steps :: Leads(p, start, s, states, steps)
  }

  lemma ReachesStart(p: Parser, start: Cluster)
    requires Initial(start)
    ensures Reaches(p, start, start)
  {
    assert Leads(p, start, start, [start], []);
  }

  lemma ReachesNext(p: Parser, start: Cluster, s: Cluster, l: Step)
    requires Reaches(p, start, s) && Enabled(s, l)
    ensures Reaches(p, start, Next(p, s, l))
  {
    var states, steps :| Leads(p, start, s, states, steps);
    var t := Next(p, s, l);
    var more, done := states + [t], steps + [l];
    forall i | 0 <= i < |done|
      ensures Enabled(more[i], done[i]) && more[i + 1] == Next(p, more[i], done[i])
    {
      if i < |steps| {
        assert more[i] == states[i] && more[i + 1] == states[i + 1] && done[i] == steps[i];
      }
    }
    assert Leads(p, start, t, more, done);
  }

  // ---------- what stays the same on the way ----------

  ghost predicate SameShape(a: Cluster, b: Cluster) {
    && |a.nodes| == |b.nodes| && a.peers == b.peers
    && forall n :: 0 <= n < |a.nodes| ==> |a.nodes[n].workers| == |b.nodes[n].workers|
  }

  /** The entry was taken in at one node and nothing anywhere else. */
  ghost predicate TookIn(s: Cluster, m: nat, e: Entry) {
    forall n :: 0 <= n < |s.nodes| ==> s.nodes[n].ingested == if n == m then [e] else []
  }

  ghost predicate Carries(start: Cluster, s: Cluster, m: nat, e: Entry) {
    SameShape(start, s) && m < |s.nodes| && TookIn(s, m, e)
  }

  /** A cluster at its start, with workers at every node. */
  ghost predicate Manned(s: Cluster) {
    Initial(s) && forall n :: 0 <= n < |s.nodes| ==> |s.nodes[n].workers| > 0
  }

  // ---------- one round ----------

  /** The first `j` workers have answered the open round, and nothing else waits at the node. */
  ghost predicate HalfAnswered(a: Node, j: nat) {
    && a.inbox == [] && a.round.Some? && |a.round.value| == |a.workers| && j <= |a.workers|
    && (forall w :: 0 <= w < |a.workers| ==> (a.round.value[w].Some? <==> w < j))
    && (forall w :: 0 <= w < j ==> a.workers[w].short == map[])
  }

  ghost predicate Answering(start: Cluster, s: Cluster, m: nat, e: Entry, j: nat) {
    && Carries(start, s, m, e) && s.flights == []
    && HalfAnswered(s.nodes[m], j)
    && forall n :: 0 <= n < |s.nodes| && n != m ==> Still(s.nodes[n])
  }

  lemma NewIsStill(workers: nat)
    ensures Still(NewNode(workers)) && NewNode(workers).ingested == []
  {
  }

  lemma Opened(p: Parser, start: Cluster, m: nat, e: Entry) returns (s: Cluster)
    requires Manned(start) && m < |start.nodes|
    ensures Reaches(p, start, s) && Answering(start, s, m, e, 0)
  {
    var ingest := Ingest(m, 0, AddMetric(e));
    ReachesStart(p, start);
    ReachesNext(p, start, start, ingest);
    var taken := Next(p, start, ingest);
    forall n | 0 <= n < |start.nodes|
      ensures Still(start.nodes[n]) && start.nodes[n].ingested == []
    {
      NewIsStill(|start.nodes[n].workers|);
    }
    assert taken.nodes[m].ingested == [] + [e] == [e];
    ReachesNext(p, start, taken, OpenRound(m));
    s := Next(p, taken, OpenRound(m));
  }

  lemma AnswersOne(p: Parser, start: Cluster, s: Cluster, m: nat, e: Entry, j: nat)
    requires Answering(start, s, m, e, j) && j < |s.nodes[m].workers|
    ensures Enabled(s, Answer(m, j)) && Answering(start, Next(p, s, Answer(m, j)), m, e, j + 1)
  {
  }

  lemma {:induction false} AnswersAll(p: Parser, start: Cluster, s: Cluster, m: nat, e: Entry, j: nat)
    returns (t: Cluster)
    requires Reaches(p, start, s) && Answering(start, s, m, e, j)
    ensures Reaches(p, start, t) && m < |t.nodes| && Answering(start, t, m, e, |t.nodes[m].workers|)
    decreases |s.nodes[m].workers| - j
  {
    if j == |s.nodes[m].workers| {
      t := s;
    } else {
      AnswersOne(p, start, s, m, e, j);
      ReachesNext(p, start, s, Answer(m, j));
      t := AnswersAll(p, start, Next(p, s, Answer(m, j)), m, e, j + 1);
    }
  }

  // ---------- its flights ----------

  /** Only letters wait at the node, each for a worker there is. */
  ghost predicate Calm(a: Node) {
    && a.round == None
    && (forall w :: 0 <= w < |a.workers| ==> a.workers[w].short == map[])
    && (forall i :: 0 <= i < |a.inbox| ==> a.inbox[i].worker < |a.workers|)
  }

  /** A flight over, with this many copies made and retries left. */
  predicate Landed(f: Flight, from: nat, to: nat, copies: nat, left: nat) {
    f.from == from && f.to == to && f.copies == copies && f.retries == left && !f.open
  }

  /** A flight that used this many attempts, made this many copies, and had none of them acknowledged. */
  predicate InAir(f: Flight, from: nat, to: nat, used: nat, copies: nat) {
    f.from == from && f.to == to && f.copies == copies && f.retries + used == 3 && f.open
  }

  /** With `r` failures first: the copies made by `u` attempts, and the retries left after `k` copies. */
  function Copied(r: nat, u: nat): nat {
    if u <= r then 0 else u - r
  }

  function RetriesLeft(r: nat, k: nat): nat
    requires r + k <= 4
  {
    if k == 0 && r < 4 then 3 - r else 4 - r - k
  }

  /**
   The first `i` flights are over, after `r` failures the sender saw and then `k` copies each; the next flight has
   used `u` attempts so far.
   */
  ghost predicate Flying(start: Cluster, s: Cluster, m: nat, e: Entry, r: nat, k: nat, i: nat, u: nat) {
    && r + k <= 4
    && Carries(start, s, m, e) && m < |s.peers| && |s.flights| == |s.peers[m]| && i <= |s.flights|
    && (u == 0 || (i < |s.flights| && u <= 3 && (u <= r || u < r + k)))
    && (forall n :: 0 <= n < |s.nodes| ==> Calm(s.nodes[n]))
    && (forall f :: 0 <= f < i ==> Landed(s.flights[f], m, s.peers[m][f], k, RetriesLeft(r, k)))
    && (i < |s.flights| ==> InAir(s.flights[i], m, s.peers[m][i], u, Copied(r, u)))
    && (forall f :: i < f < |s.flights| ==> InAir(s.flights[f], m, s.peers[m][f], 0, 0))
  }

  lemma AnsweredIsCalm(start: Cluster, s: Cluster, m: nat, e: Entry)
    requires m < |s.nodes| && Answering(start, s, m, e, |s.nodes[m].workers|)
    ensures Answered(s.nodes[m]) && Calm(s.nodes[m].(round := None))
    ensures forall n :: 0 <= n < |s.nodes| && n != m ==> Calm(s.nodes[n])
  {
  }

  lemma TakesOff(p: Parser, start: Cluster, s: Cluster, m: nat, e: Entry, r: nat, k: nat)
    requires Peered(start) && m < |s.nodes| && Answering(start, s, m, e, |s.nodes[m].workers|) && r + k <= 4
    ensures Enabled(s, Publish(m)) && Flying(start, Next(p, s, Publish(m)), m, e, r, k, 0, 0)
  {
    AnsweredIsCalm(start, s, m, e);
    var caches := Retain(Somes(s.nodes[m].round.value));
    var t, fan := Next(p, s, Publish(m)), Fan(m, s.peers[m], caches);
    FanInAir(m, s.peers[m], caches);
    assert t.flights == [] + fan == fan;
    assert t.nodes == s.nodes[m := s.nodes[m].(round := None)];
  }

  lemma FanInAir(m: nat, list: seq<nat>, caches: seq<Cache>)
    ensures |Fan(m, list, caches)| == |list|
    ensures forall f :: 0 <= f < |list| ==> InAir(Fan(m, list, caches)[f], m, list[f], 0, 0)
  {
    FanFlights(m, list, caches);
  }

  lemma {:induction false} SomeListing(c: Cache) returns (l: seq<Entry>)
    ensures IsListing(c, l)
    decreases |c|
  {
    if |c| == 0 {
      l := [];
    } else {
      var name :| name in c;
      Smaller(c, name);
      l := SomeListing(c - {name});
      ListingStep(c - {name}, l, name, c[name]);
      PutBack(c, name);
      l := l + [Entry(name, c[name])];
    }
  }

  lemma {:induction false} SomeFlattening(caches: seq<Cache>) returns (l: seq<Entry>)
    ensures IsFlattening(caches, l)
  {
    if caches == [] {
      l := [];
    } else {
      var before := SomeFlattening(Front(caches));
      var last := SomeListing(Last(caches));
      FlatteningStep(Front(caches), before, Last(caches), last);
      assert Front(caches) + [Last(caches)] == caches;
      l := before + last;
    }
  }

  /** A failure the sender sees: it tries again, or gives up with the fourth. */
  lemma FliesInVain(p: Parser, start: Cluster, s: Cluster, m: nat, e: Entry, r: nat, k: nat, i: nat, u: nat)
    requires Flying(start, s, m, e, r, k, i, u) && i < |s.flights| && u < r
    ensures
      && Enabled(s, Fail(i, true))
      && var t := Next(p, s, Fail(i, true));
      if u == 3 then Flying(start, t, m, e, r, k, i + 1, 0) else Flying(start, t, m, e, r, k, i, u + 1)
  {
    assert InAir(s.flights[i], m, s.peers[m][i], u, 0);
  }

  /** A flight meant to make no copy is in the end lost unnoticed. */
  lemma FliesNever(p: Parser, start: Cluster, s: Cluster, m: nat, e: Entry, r: nat, i: nat)
    requires Flying(start, s, m, e, r, 0, i, r) && i < |s.flights|
    ensures Enabled(s, Fail(i, false)) && Flying(start, Next(p, s, Fail(i, false)), m, e, r, 0, i + 1, 0)
  {
    assert InAir(s.flights[i], m, s.peers[m][i], r, 0);
  }

  /** One more copy, acknowledged when it is the last. */
  lemma FliesOnce(p: Parser, start: Cluster, s: Cluster, m: nat, e: Entry, r: nat, k: nat, i: nat, u: nat,
                  list: seq<Entry>)
    requires Flying(start, s, m, e, r, k, i, u) && i < |s.flights| && r <= u < r + k
    requires s.peers[m][i] < |s.nodes| && |s.nodes[s.peers[m][i]].workers| > 0
    requires IsFlattening(s.flights[i].caches, list)
    ensures
      var l := Deliver(i, 0, list, u + 1 == r + k);
      && Enabled(s, l)
      && var t := Next(p, s, l);
      if u + 1 == r + k then Flying(start, t, m, e, r, k, i + 1, 0) else Flying(start, t, m, e, r, k, i, u + 1)
  {
    var l := Deliver(i, 0, list, u + 1 == r + k);
    assert InAir(s.flights[i], m, s.peers[m][i], u, u - r);
    var to := s.flights[i].to;
    assert Calm(s.nodes[to]);
    LetterIsCalm(s.nodes[to], list);
    DeliveredFlights(p, s, l);
  }

  lemma LetterIsCalm(a: Node, list: seq<Entry>)
    requires Calm(a) && |a.workers| > 0
    ensures Calm(a.(inbox := a.inbox + [Letter(0, list)]))
  {
  }

  lemma DeliveredFlights(p: Parser, s: Cluster, l: Step)
    requires l.Deliver? && Enabled(s, l)
    ensures
      var t, to := Next(p, s, l), s.flights[l.f].to;
      && t.flights == s.flights[l.f := AfterDelivery(s.flights[l.f], l.acknowledged)] && t.peers == s.peers
      && t.nodes == s.nodes[to := s.nodes[to].(inbox := s.nodes[to].inbox + [Letter(l.w, l.list)])]
  {
  }

  lemma {:induction false} FlightsLand(p: Parser, start: Cluster, s: Cluster, m: nat, e: Entry,
                                       r: nat, k: nat, i: nat, u: nat)
    returns (t: Cluster)
    requires Manned(start) && Reaches(p, start, s) && Flying(start, s, m, e, r, k, i, u)
    ensures Reaches(p, start, t) && Flying(start, t, m, e, r, k, |t.flights|, 0)
    decreases |s.flights| - i, 4 - u
  {
    if i == |s.flights| {
      t := s;
    } else if u < r {
      FliesInVain(p, start, s, m, e, r, k, i, u);
      ReachesNext(p, start, s, Fail(i, true));
      if u == 3 {
        t := FlightsLand(p, start, Next(p, s, Fail(i, true)), m, e, r, k, i + 1, 0);
      } else {
        t := FlightsLand(p, start, Next(p, s, Fail(i, true)), m, e, r, k, i, u + 1);
      }
    } else if k == 0 {
      FliesNever(p, start, s, m, e, r, i);
      ReachesNext(p, start, s, Fail(i, false));
      t := FlightsLand(p, start, Next(p, s, Fail(i, false)), m, e, r, k, i + 1, 0);
    } else {
      var list := SomeFlattening(s.flights[i].caches);
      ListedIsManned(start, s, m, i);
      FliesOnce(p, start, s, m, e, r, k, i, u, list);
      var l := Deliver(i, 0, list, u + 1 == r + k);
      ReachesNext(p, start, s, l);
      if u + 1 == r + k {
        t := FlightsLand(p, start, Next(p, s, l), m, e, r, k, i + 1, 0);
      } else {
        t := FlightsLand(p, start, Next(p, s, l), m, e, r, k, i, u + 1);
      }
    }
  }

  lemma ListedIsManned(start: Cluster, s: Cluster, m: nat, i: nat)
    requires Manned(start) && SameShape(start, s) && m < |s.peers| && i < |s.peers[m]|
    ensures s.peers[m][i] < |s.nodes| && |s.nodes[s.peers[m][i]].workers| > 0
  {
  }

  // ---------- the letters ----------

  function InboxOf(): Node -> nat {
    (a: Node) => |a.inbox|
  }

  lemma Opens(p: Parser, a: Node)
    requires Calm(a) && a.inbox != []
    ensures
      var b := AcceptAt(p, a, 0);
      Calm(b) && |b.inbox| == |a.inbox| - 1 && b.ingested == a.ingested && |b.workers| == |a.workers|
  {
    assert a.inbox[0].worker < |a.workers|;
  }

  lemma OpensOne(p: Parser, start: Cluster, s: Cluster, m: nat, e: Entry, r: nat, k: nat, n: nat)
    requires Flying(start, s, m, e, r, k, |s.flights|, 0) && n < |s.nodes| && s.nodes[n].inbox != []
    ensures Enabled(s, Accept(n, 0))
    ensures
      var t := Next(p, s, Accept(n, 0));
      && Flying(start, t, m, e, r, k, |t.flights|, 0)
      && t.nodes == s.nodes[n := AcceptAt(p, s.nodes[n], 0)]
      && |t.nodes[n].inbox| < |s.nodes[n].inbox|
  {
    assert Calm(s.nodes[n]);
    Opens(p, s.nodes[n]);
  }

  lemma {:induction false} LettersOpened(p: Parser, start: Cluster, s: Cluster, m: nat, e: Entry, r: nat, k: nat)
    returns (t: Cluster)
    requires Reaches(p, start, s) && Flying(start, s, m, e, r, k, |s.flights|, 0)
    ensures Reaches(p, start, t) && Flying(start, t, m, e, r, k, |t.flights|, 0) && Quiet(t)
    decreases Sum(s.nodes, InboxOf())
  {
    if n :| 0 <= n < |s.nodes| && s.nodes[n].inbox != [] {
      OpensOne(p, start, s, m, e, r, k, n);
      ReachesNext(p, start, s, Accept(n, 0));
      SumUpdate(s.nodes, n, AcceptAt(p, s.nodes[n], 0), InboxOf());
      t := LettersOpened(p, start, Next(p, s, Accept(n, 0)), m, e, r, k);
    } else {
      t := s;
      forall n | 0 <= n < |t.nodes|
        ensures Still(t.nodes[n])
      {
        assert Calm(t.nodes[n]);
      }
    }
  }

  /**
   From any start, what one node takes in can reach all it lists after any number of failures the sender saw and in
   any number of copies, as long as these are four attempts at most.
   */
  lemma CopiesRun(p: Parser, start: Cluster, m: nat, e: Entry, r: nat, k: nat) returns (t: Cluster)
    requires Manned(start) && m < |start.nodes| && r + k <= 4
    ensures Reaches(p, start, t) && Quiet(t) && Flying(start, t, m, e, r, k, |t.flights|, 0)
  {
    t := Opened(p, start, m, e);
    t := AnswersAll(p, start, t, m, e, 0);
    TakesOff(p, start, t, m, e, r, k);
    ReachesNext(p, start, t, Publish(m));
    t := FlightsLand(p, start, Next(p, t, Publish(m)), m, e, r, k, 0, 0);
    t := LettersOpened(p, start, t, m, e, r, k);
  }

  // ---------- what they come to ----------

  lemma {:induction false} DeliveredTimes(flights: seq<Flight>, to: nat, k: nat, x: Name, v: Value)
    requires forall f :: 0 <= f < |flights| ==> flights[f].copies == k
    ensures Sum(flights, DeliveredOf(to, x, v)) == Repeat(k, Sum(flights, SentToOf(to, x, v)))
  {
    if flights == [] {
      RepeatZero(k);
    } else {
      var front, f := Front(flights), Last(flights);
      DeliveredTimes(front, to, k, x, v);
      assert f == flights[|flights| - 1];
      RepeatZero(k);
      RepeatSum(k, Sum(front, SentToOf(to, x, v)), SentToOf(to, x, v)(f));
    }
  }

  lemma {:induction false} PublishedByOne(s: Cluster, m: nat, k: nat, n: nat, c: nat, x: Name, v: Value)
    requires m < |s.nodes| == |s.peers| && k <= |s.nodes|
    requires forall j :: 0 <= j < |s.nodes| ==> PublishedAll(s, j, n, x, v)
    requires forall j :: 0 <= j < |s.nodes| ==> CountList(s.nodes[j].ingested, x, v) == if j == m then c else 0
    ensures Published(s, k, n, x, v) == if m < k then Repeat(Times(s.peers[m], n), c) else 0
  {
    if k > 0 {
      PublishedByOne(s, m, k - 1, n, c, x, v);
      assert PublishedAll(s, k - 1, n, x, v);
      RepeatZero(Times(s.peers[k - 1], n));
    }
  }

  lemma {:induction false} TakenInSum(nodes: seq<Node>, k: nat, m: nat, c: nat, x: Name, v: Value)
    requires k <= |nodes|
    requires forall j :: 0 <= j < |nodes| ==> CountList(nodes[j].ingested, x, v) == if j == m then c else 0
    ensures Sum(nodes[..k], IngestedOf(x, v)) == if m < k then c else 0
  {
    if k > 0 {
      TakenInSum(nodes, k - 1, m, c, x, v);
      SumPrefix(nodes, k, IngestedOf(x, v));
    }
  }

  lemma TookInCounts(s: Cluster, m: nat, e: Entry, x: Name, v: Value)
    requires TookIn(s, m, e) && m < |s.nodes|
    ensures forall j :: 0 <= j < |s.nodes| ==>
      CountList(s.nodes[j].ingested, x, v) == if j == m then CountOne(e, x, v) else 0
    ensures Sum(s.nodes, IngestedOf(x, v)) == CountOne(e, x, v)
  {
    CountsOfOne(e, x, v);
    TakenInSum(s.nodes, |s.nodes|, m, CountOne(e, x, v), x, v);
    assert s.nodes[..|s.nodes|] == s.nodes;
  }

  lemma CountsOfOne(e: Entry, x: Name, v: Value)
    ensures CountList([e], x, v) == CountOne(e, x, v) && CountList([], x, v) == 0
  {
    CountListStep([], e, x, v);
    assert [] + [e] == [e];
  }

  lemma TookInTyped(s: Cluster, m: nat, e: Entry)
    requires TookIn(s, m, e)
    ensures OneKindPerName(s, (y: Name) => e.metric.kind)
  {
  }

  lemma ArrivedCopies(p: Parser, states: seq<Cluster>, steps: seq<Step>, i: nat, n: nat, k: nat, x: Name, v: Value)
    requires IsRun(p, states, steps) && i < |states| && n < |states[i].nodes|
    requires forall f :: 0 <= f < |states[i].flights| ==> states[i].flights[f].copies == k
    ensures
      var s := states[i];
      && |s.peers| == |s.nodes|
      && var published := Published(s, |s.nodes|, n, x, v);
      published >= 0 && Accounted(s.nodes[n], x, v) == Shared(s.nodes[n], x, v) + Repeat(k, published)
  {
    var s := states[i];
    RunInvariant(p, states, steps, i, x, v);
    assert LongSide(s, n, x, v);
    DeliveredTimes(s.flights, n, k, x, v);
    SentBySender(s.flights, |s.nodes|, n, x, v);
    PublishedIsSent(s, |s.nodes|, n, x, v);
  }

  /** With `k` copies of every flight, each node counts the sample `k` times for each time the sender lists it. */
  lemma CopiesCounted(p: Parser, start: Cluster, t: Cluster, m: nat, e: Entry, r: nat, k: nat, n: nat,
                      x: Name, v: Value)
    requires Reaches(p, start, t) && Quiet(t) && Flying(start, t, m, e, r, k, |t.flights|, 0) && n < |t.nodes|
    ensures |t.peers| == |t.nodes|
    ensures
      var c := CountOne(e, x, v);
      Counted(t.nodes[n], x, v) == Repeat(k, Repeat(Times(t.peers[m], n), c)) + if n == m then c else 0
    ensures Sum(t.nodes, IngestedOf(x, v)) == CountOne(e, x, v)
  {
    var states, steps :| Leads(p, start, t, states, steps);
    var i, kinds := |states| - 1, (y: Name) => e.metric.kind;
    TookInCounts(t, m, e, x, v);
    TookInTyped(t, m, e);
    QuietAllShared(p, states, steps, i, kinds, x, v);
    forall f | 0 <= f < |t.flights|
      ensures t.flights[f].copies == k
    {
      assert Landed(t.flights[f], m, t.peers[m][f], k, RetriesLeft(r, k));
    }
    ArrivedCopies(p, states, steps, i, n, k, x, v);
    forall j | 0 <= j < |t.nodes|
      ensures PublishedAll(t, j, n, x, v)
    {
      assert SharedAll(t.nodes[j], x, v);
      PublishedStep(t, j, n, x, v);
    }
    PublishedByOne(t, m, |t.nodes|, n, CountOne(e, x, v), x, v);
    assert SharedAll(t.nodes[n], x, v) && Accounted(t.nodes[n], x, v) == Counted(t.nodes[n], x, v);
  }

  // ---------- the failing runs ----------

  function OneSample(x: Name): Entry {
    Entry(x, Metric(Counter, [1.0]))
  }

  lemma OneSampleCount(x: Name)
    ensures CountOne(OneSample(x), x, 1.0) == 1
  {
  }

  /** Two nodes of one worker each. */
  function TwoNodes(peers: seq<seq<nat>>): Cluster {
    Cluster([NewNode(1), NewNode(1)], peers, [])
  }

  /**
   Two nodes that list each other, and one sample taken in at the first: for any number of copies up to four there is a
   run in which nothing waits any more and the second node has counted the sample that often.
   */
  lemma CopiesAreCounted(p: Parser, x: Name, k: nat) returns (t: Cluster)
    requires k <= 4
    ensures Reaches(p, TwoNodes([[1], [0]]), t) && Quiet(t) && FullMesh(t)
    ensures |t.nodes| == 2 && Sum(t.nodes, IngestedOf(x, 1.0)) == 1
    ensures Counted(t.nodes[0], x, 1.0) == 1 && Counted(t.nodes[1], x, 1.0) == k
  {
    var start := TwoNodes([[1], [0]]);
    TwoManned([[1], [0]]);
    t := CopiesRun(p, start, 0, OneSample(x), 0, k);
    OneSampleCount(x);
    CopiesCounted(p, start, t, 0, OneSample(x), 0, k, 0, x, 1.0);
    CopiesCounted(p, start, t, 0, OneSample(x), 0, k, 1, x, 1.0);
    TwoAreMesh(t);
    Once(1);
    RepeatZero(k);
    RepeatOfOne(k);
  }

  lemma TwoManned(peers: seq<seq<nat>>)
    requires |peers| == 2 && forall n, i :: 0 <= n < 2 && 0 <= i < |peers[n]| ==> peers[n][i] < 2
    ensures Manned(TwoNodes(peers))
  {
  }

  lemma TwoAreMesh(t: Cluster)
    requires |t.nodes| == 2 && t.peers == [[1], [0]]
    ensures FullMesh(t)
  {
    TimesOne(1, 0);
    TimesOne(1, 1);
    TimesOne(0, 0);
    TimesOne(0, 1);
  }

  lemma TimesOne(a: nat, n: nat)
    ensures Times([a], n) == if a == n then 1 else 0
  {
    assert Front([a]) == [];
  }

  lemma TimesTwo()
    ensures Times([1, 1], 1) == 2
  {
    assert Front([1, 1]) == [1];
    TimesOne(1, 1);
  }

  lemma {:induction false} RepeatOfOne(k: nat)
    ensures Repeat(k, 1) == k
  {
    if k > 0 {
      RepeatOfOne(k - 1);
    }
  }

  /**
   Three attempts that the sender saw fail, and the fourth arrives: from any start the cluster settles with no retry
   left, and every node has counted the sample once for each time the sender lists it.
   */
  lemma FourthAttemptCounts(p: Parser, start: Cluster, m: nat, e: Entry, n: nat, x: Name, v: Value)
    returns (t: Cluster)
    requires Manned(start) && m < |start.nodes| && n < |start.nodes|
    ensures Reaches(p, start, t) && Settled(t) && |t.nodes| == |start.nodes| && t.peers == start.peers
    ensures |t.flights| == |start.peers[m]| && forall f :: 0 <= f < |t.flights| ==> t.flights[f].retries == 0
    ensures
      var c := CountOne(e, x, v);
      Counted(t.nodes[n], x, v) == Repeat(Times(start.peers[m], n), c) + if n == m then c else 0
  {
    t := CopiesRun(p, start, m, e, 3, 1);
    CopiesCounted(p, start, t, m, e, 3, 1, n, x, v);
    Once(Repeat(Times(start.peers[m], n), CountOne(e, x, v)));
    forall f | 0 <= f < |t.flights|
      ensures t.flights[f].copies == 1 && t.flights[f].retries == 0
    {
      assert Landed(t.flights[f], m, t.peers[m][f], 1, 0);
    }
  }

  /** A node that lists its peer twice: the cluster settles with the sample counted twice there. */
  lemma ListedTwice(p: Parser, x: Name) returns (t: Cluster)
    ensures Reaches(p, TwoNodes([[1, 1], [0]]), t) && Settled(t)
    ensures |t.nodes| == 2 && Sum(t.nodes, IngestedOf(x, 1.0)) == 1 && Counted(t.nodes[1], x, 1.0) == 2
  {
    var start := TwoNodes([[1, 1], [0]]);
    TwoManned([[1, 1], [0]]);
    t := CopiesRun(p, start, 0, OneSample(x), 0, 1);
    OneSampleCount(x);
    CopiesCounted(p, start, t, 0, OneSample(x), 0, 1, 1, x, 1.0);
    TimesTwo();
    RepeatOfOne(2);
    Once(2);
    forall f | 0 <= f < |t.flights|
      ensures t.flights[f].copies == 1
    {
      assert Landed(t.flights[f], 0, t.peers[0][f], 1, 3);
    }
  }

  // ---------- only a full mesh is always right ----------

  /** In every settled run from the start, every node has counted all that was taken in anywhere. */
  ghost predicate AlwaysRight(p: Parser, start: Cluster) {
    forall t, kinds, n, x, v ::
      Reaches(p, start, t) && Settled(t) && OneKindPerName(t, kinds) && 0 <= n < |t.nodes| ==>
        Counted(t.nodes[n], x, v) == Sum(t.nodes, IngestedOf(x, v))
  }

  lemma MeshIsRight(p: Parser, start: Cluster, t: Cluster, kinds: Name -> Kind, n: nat, x: Name, v: Value)
    requires FullMesh(start) && Reaches(p, start, t)
    requires Settled(t) && OneKindPerName(t, kinds) && n < |t.nodes|
    ensures Counted(t.nodes[n], x, v) == Sum(t.nodes, IngestedOf(x, v))
  {
    var states, steps :| Leads(p, start, t, states, steps);
    var i := |states| - 1;
    RunInvariant(p, states, steps, i, x, v);
    RunKeepsSize(p, states, steps, i);
    assert FullMesh(t);
    SettledCountsAll(p, states, steps, i, n, kinds, x, v);
  }

  lemma {:induction false} RunKeepsSize(p: Parser, states: seq<Cluster>, steps: seq<Step>, i: nat)
    requires IsRun(p, states, steps) && i < |states|
    ensures |states[i].nodes| == |states[0].nodes|
  {
    if i > 0 {
      RunKeepsSize(p, states, steps, i - 1);
      assert states[i - 1 + 1] == Next(p, states[i - 1], steps[i - 1]);
    }
  }

  lemma WrongListShows(p: Parser, start: Cluster, m: nat, n: nat) returns (t: Cluster)
    requires Manned(start) && m < |start.nodes| && n < |start.nodes|
    requires Times(start.peers[m], n) != if m == n then 0 else 1
    ensures Reaches(p, start, t) && Settled(t) && |t.nodes| == |start.nodes|
    ensures OneKindPerName(t, (y: Name) => Counter)
    ensures Counted(t.nodes[n], Name([]), 1.0) != Sum(t.nodes, IngestedOf(Name([]), 1.0))
  {
    var x := Name([]);
    var e := OneSample(x);
    t := CopiesRun(p, start, m, e, 0, 1);
    OneSampleCount(x);
    TookInTyped(t, m, e);
    CopiesCounted(p, start, t, m, e, 0, 1, n, x, 1.0);
    RepeatOfOne(Times(start.peers[m], n));
    Once(Times(start.peers[m], n));
    forall f | 0 <= f < |t.flights|
      ensures t.flights[f].copies == 1
    {
      assert Landed(t.flights[f], m, t.peers[m][f], 1, 3);
    }
  }

  /**
   For any number of nodes with any workers and any node lists: all nodes count everything right in every settled run
   with one kind per name, if and only if each node lists every other node once and itself never.
   */
  lemma RightIffFullMesh(p: Parser, start: Cluster)
    requires Manned(start)
    ensures AlwaysRight(p, start) <==> FullMesh(start)
  {
    if FullMesh(start) {
      forall t, kinds, n, x, v |
        Reaches(p, start, t) && Settled(t) && OneKindPerName(t, kinds) && 0 <= n < |t.nodes|
        ensures Counted(t.nodes[n], x, v) == Sum(t.nodes, IngestedOf(x, v))
      {
        MeshIsRight(p, start, t, kinds, n, x, v);
      }
    } else {
      var m, n :| 0 <= m < |start.peers| && 0 <= n < |start.nodes| &&
        Times(start.peers[m], n) != if m == n then 0 else 1;
      var t := WrongListShows(p, start, m, n);
      assert !AlwaysRight(p, start);
    }
  }
}
