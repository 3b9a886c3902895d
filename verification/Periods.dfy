/**
 Replication and leadership together: all nodes count everything, and at the end of each period only those
 that lead send what they rotate out. Here a node leads throughout a period or not at all.
 */
module Periods {
  import opened Metrics
  import opened TaskRunners
  import opened Snapshots
  import opened Sums
  import opened Clusters
  import opened ClusterLaws

  /** Settled, and everything counted has been rotated out. */
  ghost predicate PeriodEnd(s: Cluster) {
    && Settled(s)
    && forall n, w :: 0 <= n < |s.nodes| && 0 <= w < |s.nodes[n].workers| ==> s.nodes[n].workers[w].long == map[]
  }

  /** All a node ever rotated out. */
  function RotatedBy(s: Cluster, n: nat, x: Name, v: Value): nat
    requires n < |s.nodes|
  {
    CountAll(s.nodes[n].rotated, x, v)
  }

  /** What the nodes that lead from one state to another rotate out on the way, one after another. */
  function SentBy(from: Cluster, to: Cluster, leaders: seq<nat>, x: Name, v: Value): int
    requires forall i :: 0 <= i < |leaders| ==> leaders[i] < |from.nodes| && leaders[i] < |to.nodes|
  {
    if leaders == [] then 0
    else
      SentBy(from, to, Front(leaders), x, v)
        + RotatedBy(to, Last(leaders), x, v) - RotatedBy(from, Last(leaders), x, v)
  }

  /** At the end of a period every node has rotated out all that was ever taken in anywhere. */
  lemma PeriodEndRotated(p: Parser, states: seq<Cluster>, steps: seq<Step>, i: nat, n: nat,
                         kinds: Name -> Kind, x: Name, v: Value)
    requires IsRun(p, states, steps) && i < |states| && n < |states[i].nodes|
    requires OneKindPerName(states[i], kinds) && FullMesh(states[i]) && PeriodEnd(states[i])
    ensures RotatedBy(states[i], n, x, v) == Sum(states[i].nodes, IngestedOf(x, v))
  {
    SettledCountsAll(p, states, steps, i, n, kinds, x, v);
    SumZero(states[i].nodes[n].workers, LongOf(x, v));
  }

  /** Periods of a run, and for each the nodes that lead in it. */
  ghost predicate AreLed(p: Parser, states: seq<Cluster>, steps: seq<Step>, ends: seq<nat>,
                         leaders: seq<seq<nat>>, kinds: Name -> Kind)
  {
    && IsRun(p, states, steps) && |ends| == |leaders| + 1
    && (forall j :: 0 <= j < |ends| ==> EndsAt(states, ends[j], kinds))
    && (forall j, k :: 0 <= j < |leaders| && 0 <= k < |leaders[j]| ==> leaders[j][k] < |states[0].nodes|)
  }

  ghost predicate EndsAt(states: seq<Cluster>, i: nat, kinds: Name -> Kind) {
    i < |states| && |states[0].nodes| == |states[i].nodes|
    && OneKindPerName(states[i], kinds) && FullMesh(states[i]) && PeriodEnd(states[i])
  }

  /** What came in between the ends of two periods. */
  function TakenIn(from: Cluster, to: Cluster, x: Name, v: Value): int {
    Sum(to.nodes, IngestedOf(x, v)) - Sum(from.nodes, IngestedOf(x, v))
  }

  lemma NodeSends(p: Parser, states: seq<Cluster>, steps: seq<Step>, i: nat, j: nat, n: nat,
                  kinds: Name -> Kind, x: Name, v: Value)
    requires IsRun(p, states, steps) && EndsAt(states, i, kinds) && EndsAt(states, j, kinds) && n < |states[0].nodes|
    ensures RotatedBy(states[j], n, x, v) - RotatedBy(states[i], n, x, v) == TakenIn(states[i], states[j], x, v)
  {
    PeriodEndRotated(p, states, steps, i, n, kinds, x, v);
    PeriodEndRotated(p, states, steps, j, n, kinds, x, v);
  }

  lemma OneMore(k: int, d: int)
    ensures (k + 1) * d == k * d + d
  {
  }

  ghost predicate Sends(from: Cluster, to: Cluster, n: nat, d: int, x: Name, v: Value) {
    n < |from.nodes| && n < |to.nodes| && RotatedBy(to, n, x, v) - RotatedBy(from, n, x, v) == d
  }

  lemma {:induction false} SentTimes(from: Cluster, to: Cluster, leaders: seq<nat>, d: int, x: Name, v: Value)
    requires forall i :: 0 <= i < |leaders| ==> leaders[i] < |from.nodes| && leaders[i] < |to.nodes|
    requires forall i :: 0 <= i < |leaders| ==> Sends(from, to, leaders[i], d, x, v)
    ensures SentBy(from, to, leaders, x, v) == |leaders| * d
  {
    if leaders != [] {
      SentTimes(from, to, Front(leaders), d, x, v);
      assert Sends(from, to, leaders[|leaders| - 1], d, x, v);
      OneMore(|leaders| - 1, d);
    }
  }

  /** In one period every leader sends all of it: with none it is lost, with two it is sent twice. */
  lemma PeriodSent(p: Parser, states: seq<Cluster>, steps: seq<Step>, i: nat, j: nat,
                   leaders: seq<nat>, kinds: Name -> Kind, x: Name, v: Value)
    requires IsRun(p, states, steps) && EndsAt(states, i, kinds) && EndsAt(states, j, kinds)
    requires forall k :: 0 <= k < |leaders| ==> leaders[k] < |states[0].nodes|
    ensures SentBy(states[i], states[j], leaders, x, v) == |leaders| * TakenIn(states[i], states[j], x, v)
  {
    forall k | 0 <= k < |leaders|
      ensures Sends(states[i], states[j], leaders[k], TakenIn(states[i], states[j], x, v), x, v)
    {
      NodeSends(p, states, steps, i, j, leaders[k], kinds, x, v);
    }
    SentTimes(states[i], states[j], leaders, TakenIn(states[i], states[j], x, v), x, v);
  }

  lemma OneLeaderSends(p: Parser, states: seq<Cluster>, steps: seq<Step>, i: nat, j: nat,
                       leaders: seq<nat>, kinds: Name -> Kind, x: Name, v: Value)
    requires IsRun(p, states, steps) && EndsAt(states, i, kinds) && EndsAt(states, j, kinds)
    requires |leaders| == 1 && leaders[0] < |states[0].nodes|
    ensures SentBy(states[i], states[j], leaders, x, v) == TakenIn(states[i], states[j], x, v)
  {
    PeriodSent(p, states, steps, i, j, leaders, kinds, x, v);
  }

  lemma Telescopes(a: Cluster, b: Cluster, c: Cluster, x: Name, v: Value)
    ensures TakenIn(a, c, x, v) == TakenIn(a, b, x, v) + TakenIn(b, c, x, v)
  {
  }

  /** What all the leaders of all the periods send. */
  ghost function AllSent(states: seq<Cluster>, ends: seq<nat>, leaders: seq<seq<nat>>, x: Name, v: Value): int
    requires |ends| == |leaders| + 1
    requires forall j :: 0 <= j < |ends| ==> ends[j] < |states|
    requires forall j, k :: 0 <= j < |leaders| && 0 <= k < |leaders[j]| ==>
      leaders[j][k] < |states[ends[j]].nodes| && leaders[j][k] < |states[ends[j + 1]].nodes|
  {
    if leaders == [] then 0
    else
      var n := |leaders| - 1;
      assert leaders[n] == Last(leaders);
      AllSent(states, Front(ends), Front(leaders), x, v)
        + SentBy(states[ends[n]], states[ends[n + 1]], Last(leaders), x, v)
  }

  /**
   However leadership moves between the nodes from period to period, as long as each period has one leader the
   leaders together send exactly what was taken in anywhere.
   */
  lemma {:induction false} LeadersSendAll(p: Parser, states: seq<Cluster>, steps: seq<Step>, ends: seq<nat>,
                                          leaders: seq<seq<nat>>, kinds: Name -> Kind, x: Name, v: Value)
    requires AreLed(p, states, steps, ends, leaders, kinds)
    requires forall j :: 0 <= j < |leaders| ==> |leaders[j]| == 1
    ensures AllSent(states, ends, leaders, x, v) == TakenIn(states[ends[0]], states[Last(ends)], x, v)
  {
    if leaders != [] {
      var n := |leaders| - 1;
      assert EndsAt(states, ends[n], kinds) && EndsAt(states, ends[n + 1], kinds);
      assert forall j :: 0 <= j < n ==> Front(leaders)[j] == leaders[j];
      LeadersSendAll(p, states, steps, Front(ends), Front(leaders), kinds, x, v);
      OneLeaderSends(p, states, steps, ends[n], ends[n + 1], leaders[n], kinds, x, v);
      Telescopes(states[ends[0]], states[ends[n]], states[ends[n + 1]], x, v);
    }
  }
}
