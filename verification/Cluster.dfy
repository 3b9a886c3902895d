/**
 The replication protocol: any number of nodes, each with any number of workers and its own list of nodes
 to replicate to.

 A step runs one task at one worker, opens or closes a snapshot round, or makes one delivery attempt.
 How long a task waits in its worker's channel is not visible here: the step that runs it may come at
 any time. A delivery attempt may fail before or after the message arrived, and the sender may take a failure
 for a success, so a snapshot can reach a peer more than once or not at all; each flight counts its copies.

 Besides the caches a node keeps a record of what it took in, what was refused at each cache, what it
 gave out in snapshots and what it rotated out. The records take no part in any step.
 */
module Clusters {
  import opened Metrics
  import opened TaskRunners
  import opened Snapshots
  import opened Sums

  /** A snapshot that arrived and waits for a worker. */
  datatype Letter = Letter(worker: nat, list: seq<Entry>)

  datatype Node = Node(
    workers: seq<Worker>,
    inbox: seq<Letter>,
    round: Option<seq<Option<Cache>>>,  // the answers so far, when a snapshot round is open
    ingested: seq<Entry>,               // record: brought by Parse, AddMetric, AddMetrics
    refused: seq<Entry>,                // record: of those, refused by a short cache
    rejected: seq<Entry>,               // record: peer entries refused by a long cache
    conflicts: seq<Cache>,              // record: refused while short was folded into long
    taken: seq<Cache>,                  // record: every cache given to a snapshot round
    rotated: seq<Cache>)                // record: every cache given to a rotation

  /** One snapshot on its way to one peer. */
  datatype Flight = Flight(from: nat, to: nat, caches: seq<Cache>, retries: nat, copies: nat, open: bool)

  /** `peers[n]` is the node list in the configuration of node `n`. */
  datatype Cluster = Cluster(nodes: seq<Node>, peers: seq<seq<nat>>, flights: seq<Flight>)

  datatype Step =
    | Ingest(n: nat, w: nat, task: Task)
    | RotateWorker(n: nat, w: nat)
    | OpenRound(n: nat)
    | Answer(n: nat, w: nat)
    | Publish(n: nat)
    | Deliver(f: nat, w: nat, list: seq<Entry>, acknowledged: bool)
    | Fail(f: nat, noticed: bool)
    | Accept(n: nat, i: nat)

  /** Retries of a snapshot delivery after its first attempt. */
  const RETRIES: nat := 3

  // ---------- what a step does to a node ----------

  function IngestAt(p: Parser, a: Node, w: nat, t: Task): Node
    requires w < |a.workers|
  {
    var list := Ingested(p, a.workers[w], t);
    a.(workers := a.workers[w := Apply(p, a.workers[w], t)],
       ingested := a.ingested + list,
       refused := a.refused + Refused(a.workers[w].short, list))
  }

  function RotateAt(p: Parser, a: Node, w: nat): Node
    requires w < |a.workers|
  {
    a.(workers := a.workers[w := Apply(p, a.workers[w], Rotate)],
       rotated := a.rotated + [Reply(a.workers[w], Rotate).value])
  }

  function OpenAt(a: Node): Node {
    a.(round := Some(seq(|a.workers|, i => None)))
  }

  predicate Awaits(a: Node, w: nat) {
    w < |a.workers| && a.round.Some? && w < |a.round.value| && a.round.value[w].None?
  }

  function AnswerAt(p: Parser, a: Node, w: nat): Node
    requires Awaits(a, w)
  {
    var worker := a.workers[w];
    a.(workers := a.workers[w := Apply(p, worker, TakeSnapshot)],
       round := Some(a.round.value[w := Reply(worker, TakeSnapshot)]),
       conflicts := a.conflicts + [Conflicts(worker.long, worker.short)],
       taken := a.taken + [Reply(worker, TakeSnapshot).value])
  }

  function AcceptAt(p: Parser, a: Node, i: nat): Node
    requires i < |a.inbox| && a.inbox[i].worker < |a.workers|
  {
    var letter := a.inbox[i];
    var worker := a.workers[letter.worker];
    a.(workers := a.workers[letter.worker := Apply(p, worker, AddSnapshot(letter.list))],
       inbox := a.inbox[..i] + a.inbox[i + 1..],
       rejected := a.rejected + Refused(worker.long, letter.list))
  }

  predicate Answered(a: Node) {
    a.round.Some? && forall i :: 0 <= i < |a.round.value| ==> a.round.value[i].Some?
  }

  /** One flight to each node of a list. */
  function Fan(n: nat, list: seq<nat>, caches: seq<Cache>): seq<Flight> {
    if list == [] then []
    else Fan(n, Front(list), caches) + [Flight(n, Last(list), caches, RETRIES, 0, true)]
  }

  /** How often a node is listed. */
  function Times(list: seq<nat>, n: nat): nat {
    if list == [] then 0 else Times(Front(list), n) + if Last(list) == n then 1 else 0
  }

  function GiveUpOrRetry(f: Flight): Flight {
    if f.retries == 0 then f.(open := false) else f.(retries := f.retries - 1)
  }

  /** The sender is done when its bytes are written: a loss after that is not noticed and counts as success. */
  function AfterFailure(f: Flight, noticed: bool): Flight {
    if noticed then GiveUpOrRetry(f) else f.(open := false)
  }

  function AfterDelivery(f: Flight, acknowledged: bool): Flight {
    var g := f.(copies := f.copies + 1);
    if acknowledged then g.(open := false) else GiveUpOrRetry(g)
  }

  // ---------- the transition system ----------

  ghost predicate Enabled(s: Cluster, l: Step) {
    match l
    case Ingest(n, w, t) => n < |s.nodes| && w < |s.nodes[n].workers| && (t.Parse? || t.AddMetric? || t.AddMetrics?)
    case RotateWorker(n, w) => n < |s.nodes| && w < |s.nodes[n].workers|
    case OpenRound(n) => n < |s.nodes| && s.nodes[n].round.None?
    case Answer(n, w) => n < |s.nodes| && Awaits(s.nodes[n], w)
    case Publish(n) => n < |s.nodes| && n < |s.peers| && Answered(s.nodes[n])
    case Deliver(f, w, list, ack) =>
      && f < |s.flights| && s.flights[f].open && s.flights[f].to < |s.nodes|
      && w < |s.nodes[s.flights[f].to].workers| && IsFlattening(s.flights[f].caches, list)
    case Fail(f, _) => f < |s.flights| && s.flights[f].open
    case Accept(n, i) =>
      n < |s.nodes| && i < |s.nodes[n].inbox| && s.nodes[n].inbox[i].worker < |s.nodes[n].workers|
  }

  function Put(s: Cluster, n: nat, a: Node): Cluster
    requires n < |s.nodes|
  {
    s.(nodes := s.nodes[n := a])
  }

  ghost function Next(p: Parser, s: Cluster, l: Step): Cluster
    requires Enabled(s, l)
  {
    match l
    case Ingest(n, w, t) => Put(s, n, IngestAt(p, s.nodes[n], w, t))
    case RotateWorker(n, w) => Put(s, n, RotateAt(p, s.nodes[n], w))
    case OpenRound(n) => Put(s, n, OpenAt(s.nodes[n]))
    case Answer(n, w) => Put(s, n, AnswerAt(p, s.nodes[n], w))
    case Publish(n) =>
      Put(s, n, s.nodes[n].(round := None)).(
        flights := s.flights + Fan(n, s.peers[n], Retain(Somes(s.nodes[n].round.value))))
    case Deliver(f, w, list, ack) =>
      var to := s.flights[f].to;
      Put(s, to, s.nodes[to].(inbox := s.nodes[to].inbox + [Letter(w, list)])).(
        flights := s.flights[f := AfterDelivery(s.flights[f], ack)])
    case Fail(f, noticed) => s.(flights := s.flights[f := AfterFailure(s.flights[f], noticed)])
    case Accept(n, i) => Put(s, n, AcceptAt(p, s.nodes[n], i))
  }

  /** Nothing taken in, nothing recorded, nothing on the way; the workers of each node are new. */
  ghost predicate Initial(s: Cluster) {
    && s.flights == [] && Peered(s)
    && forall n :: 0 <= n < |s.nodes| ==> s.nodes[n] == NewNode(|s.nodes[n].workers|)
  }

  /** Every node has a list, and lists name nodes of the cluster. */
  predicate Peered(s: Cluster) {
    && |s.peers| == |s.nodes|
    && forall n, i :: 0 <= n < |s.peers| && 0 <= i < |s.peers[n]| ==> s.peers[n][i] < |s.nodes|
  }

  function NewNode(workers: nat): Node {
    Node(seq(workers, i => FRESH), [], None, [], [], [], [], [], [])
  }

  ghost predicate IsRun(p: Parser, states: seq<Cluster>, steps: seq<Step>) {
    && |states| == |steps| + 1
    && Initial(states[0])
    && forall i :: 0 <= i < |steps| ==> Enabled(states[i], steps[i]) && states[i + 1] == Next(p, states[i], steps[i])
  }

  // ---------- counting one value under one name ----------

  function LongOf(x: Name, v: Value): Worker -> nat { (w: Worker) => Count(w.long, x, v) }
  function ShortOf(x: Name, v: Value): Worker -> nat { (w: Worker) => Count(w.short, x, v) }
  function LetterOf(x: Name, v: Value): Letter -> nat { (l: Letter) => CountList(l.list, x, v) }
  function AnswerOf(x: Name, v: Value): Option<Cache> -> nat {
    (o: Option<Cache>) => if o.Some? then Count(o.value, x, v) else 0
  }

  /** Held by the short caches of a node. */
  function InShort(a: Node, x: Name, v: Value): nat { Sum(a.workers, ShortOf(x, v)) }

  /** Given to the round that is open, if one is. */
  function InRound(a: Node, x: Name, v: Value): nat {
    if a.round.Some? then Sum(a.round.value, AnswerOf(x, v)) else 0
  }

  /** Ever given to a snapshot. */
  function Shared(a: Node, x: Name, v: Value): nat { CountAll(a.taken, x, v) }

  /** Taken account of beyond the short caches: held, rotated out, refused by a long cache, or waiting. */
  function Accounted(a: Node, x: Name, v: Value): nat {
    Sum(a.workers, LongOf(x, v)) + CountAll(a.rotated, x, v) + CountAll(a.conflicts, x, v)
      + CountList(a.rejected, x, v) + Sum(a.inbox, LetterOf(x, v))
  }

  function SentOf(from: nat, to: nat, x: Name, v: Value): Flight -> nat {
    (f: Flight) => if f.from == from && f.to == to then CountAll(f.caches, x, v) else 0
  }

  function DeliveredOf(to: nat, x: Name, v: Value): Flight -> nat {
    (f: Flight) => if f.to == to then Repeat(f.copies, CountAll(f.caches, x, v)) else 0
  }

  // ---------- the invariants ----------

  /** At its origin every sample is refused, still unshared, or in exactly one snapshot. */
  ghost predicate OneSnapshot(a: Node, x: Name, v: Value) {
    CountList(a.ingested, x, v) == CountList(a.refused, x, v) + InShort(a, x, v) + Shared(a, x, v)
  }

  /** Every snapshot of `m` is in the open round or in as many flights to `n` as `m` lists `n`. */
  ghost predicate FlightPerListing(s: Cluster, m: nat, n: nat, x: Name, v: Value)
    requires m < |s.nodes| && m < |s.peers|
  {
    var times := Times(s.peers[m], n);
    Repeat(times, Shared(s.nodes[m], x, v))
      == Repeat(times, InRound(s.nodes[m], x, v)) + Sum(s.flights, SentOf(m, n, x, v))
  }

  /** A flight carries what its sender shared before the open round. */
  ghost predicate FromShared(s: Cluster, f: Flight, x: Name, v: Value) {
    f.from < |s.nodes| ==>
      CountAll(f.caches, x, v) + InRound(s.nodes[f.from], x, v) <= Shared(s.nodes[f.from], x, v)
  }

  /** A node's long side holds its own snapshots and each copy delivered to it, and nothing else. */
  ghost predicate LongSide(s: Cluster, n: nat, x: Name, v: Value)
    requires n < |s.nodes|
  {
    Accounted(s.nodes[n], x, v) == Shared(s.nodes[n], x, v) + Sum(s.flights, DeliveredOf(n, x, v))
  }

  ghost predicate Invariant(s: Cluster, x: Name, v: Value) {
    && |s.peers| == |s.nodes|
    && (forall n :: 0 <= n < |s.nodes| ==> OneSnapshot(s.nodes[n], x, v))
    && (forall m, n: nat :: 0 <= m < |s.nodes| ==> FlightPerListing(s, m, n, x, v))
    && (forall n :: 0 <= n < |s.nodes| ==> LongSide(s, n, x, v))
    && (forall n :: 0 <= n < |s.nodes| ==> InRound(s.nodes[n], x, v) <= Shared(s.nodes[n], x, v))
    && (forall i :: 0 <= i < |s.flights| ==> FromShared(s, s.flights[i], x, v))
  }

  /** A flight never delivers more copies than it has attempts. */
  predicate FlightOk(f: Flight, nodes: nat) {
    && f.from < nodes && f.to < nodes
    && f.copies + f.retries <= RETRIES + (if f.open then 0 else 1)
  }

  predicate FlightsOk(s: Cluster) {
    Peered(s) && forall i :: 0 <= i < |s.flights| ==> FlightOk(s.flights[i], |s.nodes|)
  }

  // ---------- one node's step ----------

  /** A step inside one node adds `gain` to what the node shared, has in its round and accounts for. */
  ghost predicate Gains(a: Node, b: Node, gain: nat, x: Name, v: Value) {
    && OneSnapshot(b, x, v)
    && Shared(b, x, v) == Shared(a, x, v) + gain
    && InRound(b, x, v) == InRound(a, x, v) + gain
    && Accounted(b, x, v) == Accounted(a, x, v) + gain
  }

  lemma IngestKeeps(p: Parser, a: Node, w: nat, t: Task, x: Name, v: Value)
    requires w < |a.workers| && (t.Parse? || t.AddMetric? || t.AddMetrics?)
    requires OneSnapshot(a, x, v)
    ensures Gains(a, IngestAt(p, a, w, t), 0, x, v)
  {
    var list := Ingested(p, a.workers[w], t);
    EntriesAdded(p, a.workers, w, t, x, v);
    EntriesRecorded(a, a.workers[w := Apply(p, a.workers[w], t)], list, Refused(a.workers[w].short, list), x, v);
  }

  lemma EntriesRecorded(a: Node, workers: seq<Worker>, list: seq<Entry>, refused: seq<Entry>, x: Name, v: Value)
    requires OneSnapshot(a, x, v) && Sum(workers, LongOf(x, v)) == Sum(a.workers, LongOf(x, v))
    requires Sum(workers, ShortOf(x, v)) + CountList(refused, x, v) == InShort(a, x, v) + CountList(list, x, v)
    ensures
      var b := a.(workers := workers, ingested := a.ingested + list, refused := a.refused + refused);
      Gains(a, b, 0, x, v)
  {
    CountListConcat(a.ingested, list, x, v);
    CountListConcat(a.refused, refused, x, v);
  }

  lemma EntriesAdded(p: Parser, workers: seq<Worker>, w: nat, t: Task, x: Name, v: Value)
    requires w < |workers| && (t.Parse? || t.AddMetric? || t.AddMetrics?)
    ensures
      var after, list := workers[w := Apply(p, workers[w], t)], Ingested(p, workers[w], t);
      && Sum(after, LongOf(x, v)) == Sum(workers, LongOf(x, v))
      && Sum(after, ShortOf(x, v)) + CountList(Refused(workers[w].short, list), x, v)
         == Sum(workers, ShortOf(x, v)) + CountList(list, x, v)
  {
    var after, list := Apply(p, workers[w], t), Ingested(p, workers[w], t);
    assert after.short == AddAll(workers[w].short, list) && after.long == workers[w].long;
    AddAllCount(workers[w].short, list, x, v);
    SumUpdate(workers, w, after, ShortOf(x, v));
    SumUpdate(workers, w, after, LongOf(x, v));
  }

  lemma RotateKeeps(p: Parser, a: Node, w: nat, x: Name, v: Value)
    requires w < |a.workers|
    requires OneSnapshot(a, x, v)
    ensures Gains(a, RotateAt(p, a, w), 0, x, v)
  {
    var b := RotateAt(p, a, w);
    LongEmptied(p, a.workers, w, x, v);
    RecordGrows(a.rotated, a.workers[w].long, x, v);
    assert InShort(b, x, v) == InShort(a, x, v);
    assert Shared(b, x, v) == Shared(a, x, v);
  }

  lemma RecordGrows(record: seq<Cache>, c: Cache, x: Name, v: Value)
    ensures CountAll(record + [c], x, v) == CountAll(record, x, v) + Count(c, x, v)
  {
    SumAppend(record, c, CacheOf(x, v));
  }

  lemma LongEmptied(p: Parser, workers: seq<Worker>, w: nat, x: Name, v: Value)
    requires w < |workers|
    ensures
      var after := workers[w := Apply(p, workers[w], Rotate)];
      && Sum(after, ShortOf(x, v)) == Sum(workers, ShortOf(x, v))
      && Sum(after, LongOf(x, v)) + Count(workers[w].long, x, v) == Sum(workers, LongOf(x, v))
  {
    var after := Apply(p, workers[w], Rotate);
    SumUpdate(workers, w, after, ShortOf(x, v));
    SumUpdate(workers, w, after, LongOf(x, v));
  }

  lemma AnswerKeeps(p: Parser, a: Node, w: nat, x: Name, v: Value)
    requires Awaits(a, w)
    requires OneSnapshot(a, x, v)
    ensures Gains(a, AnswerAt(p, a, w), Count(a.workers[w].short, x, v), x, v)
  {
    var worker := a.workers[w];
    ShortFolded(p, a.workers, w, x, v);
    SumUpdate(a.round.value, w, Some(worker.short), AnswerOf(x, v));
    RecordGrows(a.taken, worker.short, x, v);
    RecordGrows(a.conflicts, Conflicts(worker.long, worker.short), x, v);
  }

  lemma ShortFolded(p: Parser, workers: seq<Worker>, w: nat, x: Name, v: Value)
    requires w < |workers|
    ensures
      var worker, after := workers[w], workers[w := Apply(p, workers[w], TakeSnapshot)];
      && Sum(after, ShortOf(x, v)) + Count(worker.short, x, v) == Sum(workers, ShortOf(x, v))
      && Sum(after, LongOf(x, v)) + Count(Conflicts(worker.long, worker.short), x, v)
         == Sum(workers, LongOf(x, v)) + Count(worker.short, x, v)
  {
    var after := Apply(p, workers[w], TakeSnapshot);
    SumUpdate(workers, w, after, ShortOf(x, v));
    SumUpdate(workers, w, after, LongOf(x, v));
    MergeIntoCount(workers[w].long, workers[w].short, x, v);
  }

  lemma AcceptKeeps(p: Parser, a: Node, i: nat, x: Name, v: Value)
    requires i < |a.inbox| && a.inbox[i].worker < |a.workers|
    requires OneSnapshot(a, x, v)
    ensures Gains(a, AcceptAt(p, a, i), 0, x, v)
  {
    var w, list := a.inbox[i].worker, a.inbox[i].list;
    SnapshotAdded(p, a.workers, w, list, x, v);
    var workers := a.workers[w := Apply(p, a.workers[w], AddSnapshot(list))];
    LetterOpened(a, i, workers, Refused(a.workers[w].long, list), x, v);
  }

  lemma LetterOpened(a: Node, i: nat, workers: seq<Worker>, rejected: seq<Entry>, x: Name, v: Value)
    requires i < |a.inbox| && OneSnapshot(a, x, v) && Sum(workers, ShortOf(x, v)) == InShort(a, x, v)
    requires Sum(workers, LongOf(x, v)) + CountList(rejected, x, v)
          == Sum(a.workers, LongOf(x, v)) + CountList(a.inbox[i].list, x, v)
    ensures
      var b := a.(workers := workers, inbox := a.inbox[..i] + a.inbox[i + 1..], rejected := a.rejected + rejected);
      Gains(a, b, 0, x, v)
  {
    SumWithout(a.inbox, i, LetterOf(x, v));
    CountListConcat(a.rejected, rejected, x, v);
  }

  lemma SnapshotAdded(p: Parser, workers: seq<Worker>, w: nat, list: seq<Entry>, x: Name, v: Value)
    requires w < |workers|
    ensures
      var after := workers[w := Apply(p, workers[w], AddSnapshot(list))];
      && Sum(after, ShortOf(x, v)) == Sum(workers, ShortOf(x, v))
      && Sum(after, LongOf(x, v)) + CountList(Refused(workers[w].long, list), x, v)
         == Sum(workers, LongOf(x, v)) + CountList(list, x, v)
  {
    var after := Apply(p, workers[w], AddSnapshot(list));
    SumUpdate(workers, w, after, ShortOf(x, v));
    SumUpdate(workers, w, after, LongOf(x, v));
    AddAllCount(workers[w].long, list, x, v);
  }

  lemma OpenKeeps(a: Node, x: Name, v: Value)
    requires a.round.None?
    requires OneSnapshot(a, x, v)
    ensures Gains(a, OpenAt(a), 0, x, v)
  {
    SumZero(OpenAt(a).round.value, AnswerOf(x, v));
  }

  lemma {:induction false} AnswersCount(r: seq<Option<Cache>>, x: Name, v: Value)
    ensures CountAll(Somes(r), x, v) == Sum(r, AnswerOf(x, v))
  {
    if r != [] {
      AnswersCount(Front(r), x, v);
      var before := Somes(Front(r));
      if Last(r).Some? {
        assert Front(before + [Last(r).value]) == before;
      } else {
        assert before + [] == before;
      }
    }
  }

  // ---------- one step of the cluster ----------

  lemma ListingKept(s: Cluster, n: nat, b: Node, gain: nat, m: nat, k: nat, x: Name, v: Value)
    requires n < |s.nodes| && m < |s.nodes| && m < |s.peers| && FlightPerListing(s, m, k, x, v)
    requires Shared(b, x, v) == Shared(s.nodes[n], x, v) + gain
    requires InRound(b, x, v) == InRound(s.nodes[n], x, v) + gain
    ensures FlightPerListing(Put(s, n, b), m, k, x, v)
  {
    if m == n {
      RepeatSum(Times(s.peers[m], k), Shared(s.nodes[m], x, v), gain);
      RepeatSum(Times(s.peers[m], k), InRound(s.nodes[m], x, v), gain);
    }
  }

  lemma NodeStepKeeps(s: Cluster, n: nat, b: Node, gain: nat, x: Name, v: Value)
    requires Invariant(s, x, v) && n < |s.nodes| && Gains(s.nodes[n], b, gain, x, v)
    ensures Invariant(Put(s, n, b), x, v)
  {
    var t := Put(s, n, b);
    forall m, k: nat | 0 <= m < |t.nodes|
      ensures FlightPerListing(t, m, k, x, v)
    {
      assert FlightPerListing(s, m, k, x, v);
      ListingKept(s, n, b, gain, m, k, x, v);
    }
    forall k | 0 <= k < |t.nodes|
      ensures OneSnapshot(t.nodes[k], x, v) && LongSide(t, k, x, v)
      ensures InRound(t.nodes[k], x, v) <= Shared(t.nodes[k], x, v)
    {
      assert OneSnapshot(s.nodes[k], x, v) && LongSide(s, k, x, v);
      assert InRound(s.nodes[k], x, v) <= Shared(s.nodes[k], x, v);
    }
    forall i | 0 <= i < |t.flights|
      ensures FromShared(t, t.flights[i], x, v)
    {
      assert FromShared(s, s.flights[i], x, v);
    }
  }

  lemma {:induction false} FanSent(n: nat, list: seq<nat>, caches: seq<Cache>, m: nat, to: nat, x: Name, v: Value)
    ensures Sum(Fan(n, list, caches), SentOf(m, to, x, v))
         == if m == n then Repeat(Times(list, to), CountAll(caches, x, v)) else 0
    ensures Sum(Fan(n, list, caches), DeliveredOf(to, x, v)) == 0
  {
    if list != [] {
      FanSent(n, Front(list), caches, m, to, x, v);
      var fan, f := Fan(n, Front(list), caches), Flight(n, Last(list), caches, RETRIES, 0, true);
      SumAppend(fan, f, SentOf(m, to, x, v));
      SumAppend(fan, f, DeliveredOf(to, x, v));
    }
  }

  /** Every flight of a fan has the sender and the caches given, and goes to a node of the list. */
  lemma {:induction false} FanFlights(n: nat, list: seq<nat>, caches: seq<Cache>)
    ensures |Fan(n, list, caches)| == |list|
    ensures forall i :: 0 <= i < |list| ==> Fan(n, list, caches)[i] == Flight(n, list[i], caches, RETRIES, 0, true)
  {
    if list != [] {
      FanFlights(n, Front(list), caches);
    }
  }

  lemma PublishListings(p: Parser, s: Cluster, n: nat, m: nat, k: nat, x: Name, v: Value)
    requires Invariant(s, x, v) && Enabled(s, Publish(n)) && m < |s.nodes|
    ensures FlightPerListing(Next(p, s, Publish(n)), m, k, x, v)
  {
    var r := s.nodes[n].round.value;
    var caches := Retain(Somes(r));
    RetainCount(Somes(r), x, v);
    AnswersCount(r, x, v);
    assert FlightPerListing(s, m, k, x, v);
    SumConcat(s.flights, Fan(n, s.peers[n], caches), SentOf(m, k, x, v));
    FanSent(n, s.peers[n], caches, m, k, x, v);
    RepeatZero(Times(s.peers[m], k));
  }

  lemma PublishFlights(p: Parser, s: Cluster, n: nat, x: Name, v: Value)
    requires Invariant(s, x, v) && Enabled(s, Publish(n))
    ensures
      var t := Next(p, s, Publish(n));
      forall i :: 0 <= i < |t.flights| ==> FromShared(t, t.flights[i], x, v)
  {
    var t, r := Next(p, s, Publish(n)), s.nodes[n].round.value;
    var caches := Retain(Somes(r));
    RetainCount(Somes(r), x, v);
    AnswersCount(r, x, v);
    FanFlights(n, s.peers[n], caches);
    assert InRound(s.nodes[n], x, v) <= Shared(s.nodes[n], x, v);
    forall i | 0 <= i < |t.flights|
      ensures FromShared(t, t.flights[i], x, v)
    {
      if i < |s.flights| {
        assert FromShared(s, s.flights[i], x, v);
      } else {
        assert t.flights[i].from == n && t.flights[i].caches == caches;
      }
    }
  }

  /** Publishing closes the round of one node and changes no node otherwise. */
  lemma PublishNodes(p: Parser, s: Cluster, n: nat, k: nat, x: Name, v: Value)
    requires Enabled(s, Publish(n)) && k < |s.nodes|
    requires OneSnapshot(s.nodes[k], x, v) && LongSide(s, k, x, v)
    requires InRound(s.nodes[k], x, v) <= Shared(s.nodes[k], x, v)
    ensures
      var t := Next(p, s, Publish(n));
      && OneSnapshot(t.nodes[k], x, v) && LongSide(t, k, x, v)
      && InRound(t.nodes[k], x, v) <= Shared(t.nodes[k], x, v)
  {
    var fan := Fan(n, s.peers[n], Retain(Somes(s.nodes[n].round.value)));
    SumConcat(s.flights, fan, DeliveredOf(k, x, v));
    FanSent(n, s.peers[n], Retain(Somes(s.nodes[n].round.value)), n, k, x, v);
    assert Accounted(s.nodes[n].(round := None), x, v) == Accounted(s.nodes[n], x, v);
  }

  lemma PublishKeeps(p: Parser, s: Cluster, n: nat, x: Name, v: Value)
    requires Invariant(s, x, v) && Enabled(s, Publish(n))
    ensures Invariant(Next(p, s, Publish(n)), x, v)
  {
    var t := Next(p, s, Publish(n));
    forall m, k: nat | 0 <= m < |t.nodes|
      ensures FlightPerListing(t, m, k, x, v)
    {
      PublishListings(p, s, n, m, k, x, v);
    }
    PublishFlights(p, s, n, x, v);
    forall k | 0 <= k < |t.nodes|
      ensures OneSnapshot(t.nodes[k], x, v) && LongSide(t, k, x, v)
      ensures InRound(t.nodes[k], x, v) <= Shared(t.nodes[k], x, v)
    {
      assert OneSnapshot(s.nodes[k], x, v) && LongSide(s, k, x, v);
      assert InRound(s.nodes[k], x, v) <= Shared(s.nodes[k], x, v);
      PublishNodes(p, s, n, k, x, v);
    }
  }

  /** A letter in the inbox is all that changes at the peer. */
  lemma LetterArrives(a: Node, w: nat, list: seq<Entry>, x: Name, v: Value)
    requires OneSnapshot(a, x, v)
    ensures
      var b := a.(inbox := a.inbox + [Letter(w, list)]);
      && OneSnapshot(b, x, v)
      && Shared(b, x, v) == Shared(a, x, v)
      && InRound(b, x, v) == InRound(a, x, v)
      && Accounted(b, x, v) == Accounted(a, x, v) + CountList(list, x, v)
  {
    SumAppend(a.inbox, Letter(w, list), LetterOf(x, v));
  }

  lemma FlightDelivers(f: Flight, ack: bool, k: nat, x: Name, v: Value)
    ensures DeliveredOf(k, x, v)(AfterDelivery(f, ack))
         == DeliveredOf(k, x, v)(f) + if f.to == k then CountAll(f.caches, x, v) else 0
    ensures forall m :: SentOf(m, k, x, v)(AfterDelivery(f, ack)) == SentOf(m, k, x, v)(f)
  {
  }

  /** Attempts change a flight's counters only; a delivery is one more copy in the peer's inbox. */
  lemma DeliverKeeps(p: Parser, s: Cluster, l: Step, x: Name, v: Value)
    requires Invariant(s, x, v) && l.Deliver? && Enabled(s, l)
    ensures Invariant(Next(p, s, l), x, v)
  {
    var f := s.flights[l.f];
    var g := AfterDelivery(f, l.acknowledged);
    var t := Next(p, s, l);
    assert OneSnapshot(s.nodes[f.to], x, v);
    LetterArrives(s.nodes[f.to], l.w, l.list, x, v);
    FlightsUpdated(s, t, l.f, g, x, v);
    CountFlattening(f.caches, l.list, x, v);
    forall k | 0 <= k < |t.nodes|
      ensures OneSnapshot(t.nodes[k], x, v) && LongSide(t, k, x, v)
    {
      assert OneSnapshot(s.nodes[k], x, v) && LongSide(s, k, x, v);
      SumUpdate(s.flights, l.f, g, DeliveredOf(k, x, v));
      FlightDelivers(f, l.acknowledged, k, x, v);
    }
  }

  /** Counters of a flight do not matter to what was sent. */
  lemma FlightsUpdated(s: Cluster, t: Cluster, f: nat, g: Flight, x: Name, v: Value)
    requires Invariant(s, x, v) && f < |s.flights| && t.flights == s.flights[f := g]
    requires g.from == s.flights[f].from && g.to == s.flights[f].to && g.caches == s.flights[f].caches
    requires t.peers == s.peers && |t.nodes| == |s.nodes|
    requires forall n :: 0 <= n < |s.nodes| ==>
      Shared(t.nodes[n], x, v) == Shared(s.nodes[n], x, v) && InRound(t.nodes[n], x, v) == InRound(s.nodes[n], x, v)
    ensures forall m, n: nat :: 0 <= m < |t.nodes| ==> FlightPerListing(t, m, n, x, v)
    ensures forall n :: 0 <= n < |t.nodes| ==> InRound(t.nodes[n], x, v) <= Shared(t.nodes[n], x, v)
    ensures forall i :: 0 <= i < |t.flights| ==> FromShared(t, t.flights[i], x, v)
  {
    forall m, k: nat | 0 <= m < |t.nodes|
      ensures FlightPerListing(t, m, k, x, v)
    {
      assert FlightPerListing(s, m, k, x, v);
      SumUpdate(s.flights, f, g, SentOf(m, k, x, v));
    }
    forall i | 0 <= i < |t.flights|
      ensures FromShared(t, t.flights[i], x, v)
    {
      assert FromShared(s, s.flights[i], x, v);
    }
  }

  /** A flight after a number of attempts that the sender saw fail. */
  function Failed(f: Flight, times: nat): Flight {
    if times == 0 then f else AfterFailure(Failed(f, times - 1), true)
  }

  /** A published snapshot is attempted four times in all: it is given up with the fourth failure, not before. */
  lemma {:induction false} GivenUpAfterFour(n: nat, list: seq<nat>, caches: seq<Cache>, i: nat, times: nat)
    requires i < |list|
    ensures |Fan(n, list, caches)| == |list|
    ensures
      var f := Failed(Fan(n, list, caches)[i], times);
      && (f.open <==> times <= 3)
      && f.retries == (if times <= 3 then 3 - times else 0)
      && f.copies == 0
  {
    FanFlights(n, list, caches);
    if times > 0 {
      GivenUpAfterFour(n, list, caches, i, times - 1);
    }
  }

  lemma FailKeeps(p: Parser, s: Cluster, f: nat, noticed: bool, x: Name, v: Value)
    requires Invariant(s, x, v) && Enabled(s, Fail(f, noticed))
    ensures Invariant(Next(p, s, Fail(f, noticed)), x, v)
  {
    var g := AfterFailure(s.flights[f], noticed);
    var t := Next(p, s, Fail(f, noticed));
    FlightsUpdated(s, t, f, g, x, v);
    forall k | 0 <= k < |t.nodes|
      ensures OneSnapshot(t.nodes[k], x, v) && LongSide(t, k, x, v)
    {
      assert OneSnapshot(s.nodes[k], x, v) && LongSide(s, k, x, v);
      SumUpdate(s.flights, f, g, DeliveredOf(k, x, v));
    }
  }

  lemma NodeGains(p: Parser, a: Node, s: Cluster, l: Step, x: Name, v: Value) returns (gain: nat)
    requires Enabled(s, l) && (l.Ingest? || l.RotateWorker? || l.OpenRound? || l.Answer? || l.Accept?)
    requires a == s.nodes[l.n] && OneSnapshot(a, x, v)
    ensures Gains(a, Next(p, s, l).nodes[l.n], gain, x, v)
    ensures Next(p, s, l) == Put(s, l.n, Next(p, s, l).nodes[l.n])
  {
    gain := if l.Answer? then Count(a.workers[l.w].short, x, v) else 0;
    match l
    case Ingest(n, w, t) => IngestKeeps(p, a, w, t, x, v);
    case RotateWorker(n, w) => RotateKeeps(p, a, w, x, v);
    case OpenRound(n) => OpenKeeps(a, x, v);
    case Answer(n, w) => AnswerKeeps(p, a, w, x, v);
    case Accept(n, i) => AcceptKeeps(p, a, i, x, v);
  }

  /** A task run at one worker, or a round opened, at one node. */
  lemma NodeStepsKeep(p: Parser, s: Cluster, l: Step, x: Name, v: Value)
    requires Invariant(s, x, v) && Enabled(s, l)
    requires l.Ingest? || l.RotateWorker? || l.OpenRound? || l.Answer? || l.Accept?
    ensures Invariant(Next(p, s, l), x, v)
  {
    assert OneSnapshot(s.nodes[l.n], x, v);
    var gain := NodeGains(p, s.nodes[l.n], s, l, x, v);
    NodeStepKeeps(s, l.n, Next(p, s, l).nodes[l.n], gain, x, v);
  }

  /** Every step keeps the invariant, whatever the kinds, failures and repeated deliveries. */
  lemma StepKeeps(p: Parser, s: Cluster, l: Step, x: Name, v: Value)
    requires Invariant(s, x, v) && Enabled(s, l)
    ensures Invariant(Next(p, s, l), x, v)
  {
    match l
    case Publish(n) => PublishKeeps(p, s, n, x, v);
    case Deliver(_, _, _, _) => DeliverKeeps(p, s, l, x, v);
    case Fail(f, noticed) => FailKeeps(p, s, f, noticed, x, v);
    case _ => NodeStepsKeep(p, s, l, x, v);
  }

  lemma InitialInvariant(s: Cluster, x: Name, v: Value)
    requires Initial(s)
    ensures Invariant(s, x, v) && FlightsOk(s)
  {
    forall n | 0 <= n < |s.nodes|
      ensures OneSnapshot(s.nodes[n], x, v) && LongSide(s, n, x, v)
    {
      var a := s.nodes[n];
      assert a == NewNode(|a.workers|);
      SumZero(a.workers, ShortOf(x, v));
      SumZero(a.workers, LongOf(x, v));
    }
    forall m, n: nat | 0 <= m < |s.nodes|
      ensures FlightPerListing(s, m, n, x, v) && InRound(s.nodes[m], x, v) <= Shared(s.nodes[m], x, v)
    {
      var a := s.nodes[m];
      assert a == NewNode(|a.workers|);
      RepeatZero(Times(s.peers[m], n));
    }
  }

  lemma FlightsStay(p: Parser, s: Cluster, l: Step)
    requires FlightsOk(s) && Enabled(s, l)
    ensures FlightsOk(Next(p, s, l)) && |Next(p, s, l).nodes| == |s.nodes| && Next(p, s, l).peers == s.peers
  {
    if l.Publish? {
      FanFlights(l.n, s.peers[l.n], Retain(Somes(s.nodes[l.n].round.value)));
    }
  }

  /** The invariants hold in every state of every run. */
  lemma {:induction false} RunInvariant(p: Parser, states: seq<Cluster>, steps: seq<Step>, i: nat, x: Name, v: Value)
    requires IsRun(p, states, steps) && i < |states|
    ensures Invariant(states[i], x, v) && FlightsOk(states[i]) && states[i].peers == states[0].peers
  {
    if i == 0 {
      InitialInvariant(states[0], x, v);
    } else {
      RunInvariant(p, states, steps, i - 1, x, v);
      assert states[i - 1 + 1] == Next(p, states[i - 1], steps[i - 1]);
      StepKeeps(p, states[i - 1], steps[i - 1], x, v);
      FlightsStay(p, states[i - 1], steps[i - 1]);
    }
  }
}
