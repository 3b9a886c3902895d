/**
 Listening: datagrams are gathered per source, and when enough bytes are held or a flush is asked for,
 every buffer is handed to a worker as a Parse task.

 `ServerStep` says what one wake-up does, for one datagram or a batch; the order in which the buffer map
 is drained is left open. The two listeners are in Listeners.
 */
module Ingress {
  import opened Metrics
  import opened Sums

  datatype Source = Source(address: Bytes)

  datatype Datagram = Datagram(source: Source, data: Bytes)

  /** A Parse task and the worker it goes to. */
  datatype Handed = Handed(source: Source, key: nat, worker: nat, data: Bytes)

  datatype Config = Config(workers: nat, flushLength: nat, consistent: bool, hash: Source -> nat)

  type Buffers = map<Source, Bytes>

  datatype Server = Server(buffers: Buffers, received: nat, next: nat)

  function Held(b: Buffers, s: Source): Bytes {
    if s in b then b[s] else []
  }

  function Fill(b: Buffers, batch: seq<Datagram>): Buffers {
    if batch == [] then b
    else
      var before := Fill(b, Front(batch));
      before[Last(batch).source := Held(before, Last(batch).source) + Last(batch).data]
  }

  function DataLen(batch: seq<Datagram>): nat {
    if batch == [] then 0 else DataLen(Front(batch)) + |Last(batch).data|
  }

  // ---------- choosing a worker ----------

  /** Round robin wraps when it is past the end, wherever it was started. */
  function Wrap(workers: nat, next: nat): nat {
    if next >= workers then 0 else next
  }

  function Pick(c: Config, next: nat, s: Source): nat
    requires c.workers > 0
  {
    if c.consistent then c.hash(s) % c.workers else Wrap(c.workers, next)
  }

  /** The round-robin position after `k` buffers. */
  function NextAfter(c: Config, next: nat, k: nat): nat {
    if k == 0 || c.consistent then next else Wrap(c.workers, NextAfter(c, next, k - 1)) + 1
  }

  // ---------- one wake-up ----------

  /** `out` holds every buffer once, in some order. */
  ghost predicate EachOnce(b: Buffers, out: seq<Handed>) {
    if out == [] then
      b == map[]
    else
      Last(out).source in b && b[Last(out).source] == Last(out).data && EachOnce(b - {Last(out).source}, Front(out))
  }

  predicate Routed(c: Config, next: nat, out: seq<Handed>)
    requires c.workers > 0
  {
    forall i :: 0 <= i < |out| ==> RoutedAt(c, NextAfter(c, next, i), out[i])
  }

  predicate RoutedAt(c: Config, next: nat, h: Handed)
    requires c.workers > 0
  {
    h.worker == Pick(c, next, h.source) && h.key == c.hash(h.source)
  }

  /** With the new data in place: everything is handed out when it is time, nothing otherwise. */
  ghost predicate FlushStep(c: Config, filled: Server, flush: bool, out: seq<Handed>, t: Server)
    requires c.workers > 0
  {
    if filled.received >= c.flushLength || flush then
      && EachOnce(filled.buffers, out) && Routed(c, filled.next, out)
      && t == Server(map[], 0, NextAfter(c, filled.next, |out|))
    else
      out == [] && t == filled
  }

  function Filled(s: Server, batch: seq<Datagram>): Server {
    Server(Fill(s.buffers, batch), s.received + DataLen(batch), s.next)
  }

  ghost predicate ServerStep(c: Config, s: Server, batch: seq<Datagram>, flush: bool, out: seq<Handed>, t: Server)
    requires c.workers > 0
  {
    FlushStep(c, Filled(s, batch), flush, out, t)
  }

  // ---------- runs ----------

  datatype Wake = Wake(batch: seq<Datagram>, flush: bool, out: seq<Handed>)

  ghost predicate IsRun(c: Config, start: nat, states: seq<Server>, wakes: seq<Wake>)
    requires c.workers > 0
  {
    && |states| == |wakes| + 1
    && states[0] == Server(map[], 0, start)
    && forall i :: 0 <= i < |wakes| ==>
         ServerStep(c, states[i], wakes[i].batch, wakes[i].flush, wakes[i].out, states[i + 1])
  }

  /** What a source sent, in order. */
  function Sent(batch: seq<Datagram>, s: Source): Bytes {
    if batch == [] then []
    else Sent(Front(batch), s) + if Last(batch).source == s then Last(batch).data else []
  }

  function SentIn(wakes: seq<Wake>, s: Source): Bytes {
    if wakes == [] then [] else SentIn(Front(wakes), s) + Sent(Last(wakes).batch, s)
  }

  /** What was handed out for a source, in order. */
  function HandedFor(out: seq<Handed>, s: Source): Bytes {
    if out == [] then []
    else HandedFor(Front(out), s) + if Last(out).source == s then Last(out).data else []
  }

  function AllHanded(wakes: seq<Wake>): seq<Handed> {
    if wakes == [] then [] else AllHanded(Front(wakes)) + Last(wakes).out
  }

  /** Every datagram counts, for its own source only and in its place. */
  lemma {:induction false} SentSplit(a: seq<Datagram>, d: Datagram, b: seq<Datagram>, s: Source)
    ensures Sent(a + [d] + b, s) == Sent(a, s) + (if d.source == s then d.data else []) + Sent(b, s)
    ensures Sent([], s) == []
  {
    if b == [] {
      assert a + [d] + b == a + [d] && Front(a + [d]) == a;
    } else {
      SentSplit(a, d, Front(b), s);
      assert Front(a + [d] + b) == a + [d] + Front(b) && Last(a + [d] + b) == Last(b);
    }
  }

  lemma {:induction false} FillAppends(b: Buffers, batch: seq<Datagram>, s: Source)
    ensures Held(Fill(b, batch), s) == Held(b, s) + Sent(batch, s)
  {
    if batch != [] {
      FillAppends(b, Front(batch), s);
      assert (Held(b, s) + Sent(Front(batch), s)) + Last(batch).data
          == Held(b, s) + (Sent(Front(batch), s) + Last(batch).data);
    }
  }

  lemma {:induction false} DrainGivesHeld(b: Buffers, out: seq<Handed>, s: Source)
    requires EachOnce(b, out)
    ensures HandedFor(out, s) == Held(b, s)
  {
    if out != [] {
      DrainGivesHeld(b - {Last(out).source}, Front(out), s);
    }
  }

  lemma {:induction false} HandedForConcat(a: seq<Handed>, b: seq<Handed>, s: Source)
    ensures HandedFor(a + b, s) == HandedFor(a, s) + HandedFor(b, s)
  {
    if b == [] {
      assert a + b == a;
    } else {
      HandedForConcat(a, Front(b), s);
      assert Front(a + b) == a + Front(b) && Last(a + b) == Last(b);
    }
  }

  /**
   Stream conservation: for every source, the buffers handed out so far, in order, followed by what is
   still buffered, are the bytes the source sent.
   */
  lemma {:induction false} StreamConservation(c: Config, start: nat, states: seq<Server>, wakes: seq<Wake>, s: Source)
    requires c.workers > 0 && IsRun(c, start, states, wakes)
    ensures HandedFor(AllHanded(wakes), s) + Held(Last(states).buffers, s) == SentIn(wakes, s)
  {
    if wakes != [] {
      var before, w := Front(wakes), Last(wakes);
      RunPrefix(c, start, states, wakes);
      StreamConservation(c, start, Front(states), before, s);
      var b := Last(Front(states)).buffers;
      StepConserves(c, Last(Front(states)), w, Last(states), s);
      HandedForConcat(AllHanded(before), w.out, s);
      Rejoin(HandedFor(AllHanded(before), s), Held(b, s), Sent(w.batch, s), HandedFor(w.out, s),
             Held(Last(states).buffers, s));
    }
  }

  lemma Rejoin(handed: Bytes, held: Bytes, sent: Bytes, out: Bytes, left: Bytes)
    requires out + left == held + sent
    ensures (handed + out) + left == (handed + held) + sent
  {
    assert (handed + out) + left == handed + (out + left);
    assert (handed + held) + sent == handed + (held + sent);
  }

  lemma StepConserves(c: Config, a: Server, w: Wake, b: Server, s: Source)
    requires c.workers > 0 && ServerStep(c, a, w.batch, w.flush, w.out, b)
    ensures HandedFor(w.out, s) + Held(b.buffers, s) == Held(a.buffers, s) + Sent(w.batch, s)
  {
    FillAppends(a.buffers, w.batch, s);
    if a.received + DataLen(w.batch) >= c.flushLength || w.flush {
      DrainGivesHeld(Fill(a.buffers, w.batch), w.out, s);
    }
  }

  /**
   When a flush is asked for or a full load is held, every source's bytes are handed out and nothing stays;
   otherwise nothing is handed out.
   */
  lemma HandedOutWhenDue(c: Config, a: Server, w: Wake, b: Server, s: Source)
    requires c.workers > 0 && Bounded(c, a) && ServerStep(c, a, w.batch, w.flush, w.out, b)
    ensures
      var due := w.flush || SumMap(a.buffers, BytesLen()) + DataLen(w.batch) >= c.flushLength;
      && (due ==> b.buffers == map[] && HandedFor(w.out, s) == Held(a.buffers, s) + Sent(w.batch, s))
      && (!due ==> w.out == [] && Held(b.buffers, s) == Held(a.buffers, s) + Sent(w.batch, s))
  {
    StepConserves(c, a, w, b, s);
    assert HandedFor(w.out, s) + [] == HandedFor(w.out, s);
    assert [] + Held(b.buffers, s) == Held(b.buffers, s);
  }

  lemma RunPrefix(c: Config, start: nat, states: seq<Server>, wakes: seq<Wake>)
    requires c.workers > 0 && IsRun(c, start, states, wakes) && wakes != []
    ensures IsRun(c, start, Front(states), Front(wakes))
    ensures ServerStep(c, Last(Front(states)), Last(wakes).batch, Last(wakes).flush, Last(wakes).out, Last(states))
  {
    var i := |wakes| - 1;
    assert ServerStep(c, states[i], wakes[i].batch, wakes[i].flush, wakes[i].out, states[i + 1]);
  }

  // ---------- bounded buffering ----------

  function BytesLen(): (Source, Bytes) -> nat {
    (s: Source, data: Bytes) => |data|
  }

  /** The byte counter is what is held, and less than a full load is ever left behind. */
  ghost predicate Bounded(c: Config, s: Server) {
    && s.received == SumMap(s.buffers, BytesLen())
    && (s.buffers == map[] || s.received < c.flushLength)
  }

  lemma {:induction false} FillLen(b: Buffers, batch: seq<Datagram>)
    ensures SumMap(Fill(b, batch), BytesLen()) == SumMap(b, BytesLen()) + DataLen(batch)
  {
    if batch != [] {
      FillLen(b, Front(batch));
      var before, d := Fill(b, Front(batch)), Last(batch);
      SumMapPut(before, d.source, Held(before, d.source) + d.data, BytesLen());
      if d.source in before {
        SumMapRemove(before, d.source, BytesLen());
      } else {
        assert before - {d.source} == before;
      }
    }
  }

  lemma StepBounded(c: Config, s: Server, batch: seq<Datagram>, flush: bool, out: seq<Handed>, t: Server)
    requires c.workers > 0 && Bounded(c, s) && ServerStep(c, s, batch, flush, out, t)
    ensures Bounded(c, t)
  {
    FillLen(s.buffers, batch);
  }

  /** Bounded buffering holds after every wake-up of every run. */
  lemma {:induction false} BoundedBuffering(c: Config, start: nat, states: seq<Server>, wakes: seq<Wake>)
    requires c.workers > 0 && IsRun(c, start, states, wakes)
    ensures Bounded(c, Last(states))
  {
    if wakes != [] {
      RunPrefix(c, start, states, wakes);
      BoundedBuffering(c, start, Front(states), Front(wakes));
      var w := Last(wakes);
      StepBounded(c, Last(Front(states)), w.batch, w.flush, w.out, Last(states));
    }
  }

  // ---------- routing ----------

  lemma {:induction false} NextAfterSum(c: Config, next: nat, a: nat, b: nat)
    ensures NextAfter(c, next, a + b) == NextAfter(c, NextAfter(c, next, a), b)
  {
    if b > 0 {
      NextAfterSum(c, next, a, b - 1);
    }
  }

  lemma RoutedConcat(c: Config, next: nat, a: seq<Handed>, b: seq<Handed>)
    requires c.workers > 0 && Routed(c, next, a) && Routed(c, NextAfter(c, next, |a|), b)
    ensures Routed(c, next, a + b)
  {
    forall i | 0 <= i < |a + b|
      ensures RoutedAt(c, NextAfter(c, next, i), (a + b)[i])
    {
      if i < |a| {
        assert RoutedAt(c, NextAfter(c, next, i), a[i]);
      } else {
        NextAfterSum(c, next, |a|, i - |a|);
        assert RoutedAt(c, NextAfter(c, NextAfter(c, next, |a|), i - |a|), b[i - |a|]);
      }
    }
  }

  /** Over a whole run the choices continue one another: it is as if all buffers were handed out at once. */
  lemma {:induction false} RunRouted(c: Config, start: nat, states: seq<Server>, wakes: seq<Wake>)
    requires c.workers > 0 && IsRun(c, start, states, wakes)
    ensures Routed(c, start, AllHanded(wakes))
    ensures Last(states).next == NextAfter(c, start, |AllHanded(wakes)|)
  {
    if wakes != [] {
      RunPrefix(c, start, states, wakes);
      RunRouted(c, start, Front(states), Front(wakes));
      var before := AllHanded(Front(wakes));
      RoutedConcat(c, start, before, Last(wakes).out);
      NextAfterSum(c, start, |before|, |Last(wakes).out|);
    }
  }

  /** In either mode, over every run, a buffer is handed out under the hash of its source, to a worker there is. */
  lemma KeysAreHashes(c: Config, start: nat, states: seq<Server>, wakes: seq<Wake>, i: nat)
    requires c.workers > 0 && IsRun(c, start, states, wakes) && i < |AllHanded(wakes)|
    ensures AllHanded(wakes)[i].key == c.hash(AllHanded(wakes)[i].source)
    ensures AllHanded(wakes)[i].worker < c.workers
  {
    RunRouted(c, start, states, wakes);
    assert RoutedAt(c, NextAfter(c, start, i), AllHanded(wakes)[i]);
  }

  /** With consistent parsing a source's bytes all go to one worker, under one key. */
  lemma ConsistentRouting(c: Config, start: nat, states: seq<Server>, wakes: seq<Wake>, i: nat, j: nat)
    requires c.workers > 0 && c.consistent && IsRun(c, start, states, wakes)
    requires i < |AllHanded(wakes)| && j < |AllHanded(wakes)|
    requires AllHanded(wakes)[i].source == AllHanded(wakes)[j].source
    ensures AllHanded(wakes)[i].worker == AllHanded(wakes)[j].worker < c.workers
    ensures AllHanded(wakes)[i].key == AllHanded(wakes)[j].key
  {
    RunRouted(c, start, states, wakes);
    var out := AllHanded(wakes);
    assert RoutedAt(c, NextAfter(c, start, i), out[i]) && RoutedAt(c, NextAfter(c, start, j), out[j]);
  }

  // ---------- fairness ----------

  /** How many buffers a worker was handed. */
  function Tally(out: seq<Handed>, w: nat): nat {
    if out == [] then 0 else Tally(Front(out), w) + if Last(out).worker == w then 1 else 0
  }

  /** How far past the first choice `first` a worker's turn comes. */
  function Turn(workers: nat, first: nat, w: nat): int {
    if w >= first then w - first else w - first + workers
  }

  /** After q whole laps and r more: everyone has q, and those whose turn is among the first r have one more. */
  lemma {:induction false} Laps(c: Config, next: nat, out: seq<Handed>) returns (q: nat, r: nat)
    requires c.workers > 0 && !c.consistent && Routed(c, next, out)
    ensures r < c.workers
    ensures Turn(c.workers, Wrap(c.workers, next), Wrap(c.workers, NextAfter(c, next, |out|))) == r
    ensures forall w :: 0 <= w < c.workers ==>
      Tally(out, w) == q + if Turn(c.workers, Wrap(c.workers, next), w) < r then 1 else 0
  {
    if out == [] {
      q, r := 0, 0;
    } else {
      q, r := Laps(c, next, Front(out));
      assert RoutedAt(c, NextAfter(c, next, |out| - 1), out[|out| - 1]);
      if r + 1 == c.workers {
        q, r := q + 1, 0;
      } else {
        r := r + 1;
      }
    }
  }

  /** Round robin is fair: from any starting position, after any run, the workers' shares differ by at most one. */
  lemma Fairness(c: Config, start: nat, states: seq<Server>, wakes: seq<Wake>, v: nat, w: nat)
    requires c.workers > 0 && !c.consistent && IsRun(c, start, states, wakes)
    requires v < c.workers && w < c.workers
    ensures Tally(AllHanded(wakes), v) <= Tally(AllHanded(wakes), w) + 1
    ensures forall i :: 0 <= i < |AllHanded(wakes)| ==> AllHanded(wakes)[i].worker < c.workers
  {
    RunRouted(c, start, states, wakes);
    var q, r := Laps(c, start, AllHanded(wakes));
    forall i | 0 <= i < |AllHanded(wakes)|
      ensures AllHanded(wakes)[i].worker < c.workers
    {
      assert RoutedAt(c, NextAfter(c, start, i), AllHanded(wakes)[i]);
    }
  }
}
