/** The two listeners: one datagram at a time, and many at once through a matrix of receive buffers. */
module Listeners {
  import opened Metrics
  import opened Sums
  import opened Ingress

  /** Drains the buffer map in whatever order it yields its keys, choosing a worker for each buffer. */
  method HandOut(c: Config, buffers: Buffers, next: nat) returns (out: seq<Handed>, after: nat)
    requires c.workers > 0
    ensures EachOnce(buffers, out) && Routed(c, next, out)
    ensures after == NextAfter(c, next, |out|)
  {
    out, after := [], next;
    var rest := buffers;
    ghost var taken: Buffers := map[];
    while |rest| > 0
      invariant Split(buffers, taken, rest)
      invariant EachOnce(taken, out) && Routed(c, next, out)
      invariant after == NextAfter(c, next, |out|)
      decreases |rest|
    {
      var source :| source in rest;
      SplitStep(buffers, taken, rest, source);
      Smaller(rest, source);
      var worker;
      if c.consistent {
        worker := c.hash(source) % c.workers;
      } else {
        if after >= c.workers {
          after := 0;
        }
        worker := after;
        after := after + 1;
      }
      var handed := Handed(source, c.hash(source), worker, rest[source]);
      EachOnceStep(taken, out, handed);
      taken := taken[source := rest[source]];
      out := out + [handed];
      rest := rest - {source};
    }
    SplitEnd(buffers, taken, rest);
  }

  /** The end of every wake-up: hand everything out when it is time. */
  method Flush(c: Config, filled: Server, flush: bool) returns (out: seq<Handed>, t: Server)
    requires c.workers > 0
    ensures FlushStep(c, filled, flush, out, t)
  {
    out, t := [], filled;
    if filled.received >= c.flushLength || flush {
      var after;
      out, after := HandOut(c, filled.buffers, filled.next);
      t := Server(map[], 0, after);
    }
  }

  lemma EachOnceStep(b: Buffers, out: seq<Handed>, h: Handed)
    requires EachOnce(b, out) && h.source !in b
    ensures EachOnce(b[h.source := h.data], out + [h])
  {
    assert Front(out + [h]) == out;
    assert b[h.source := h.data] - {h.source} == b;
  }

  // ---------- one datagram at a time ----------

  class StatsdServer {
    const config: Config
    var buffers: Buffers
    var received: nat
    var next: nat
    var running: bool

    ghost function State(): Server
      reads this
    {
      Server(buffers, received, next)
    }

    ghost predicate Valid()
      reads this
    {
      config.workers > 0 && (running ==> Bounded(config, State()))
    }

    constructor (config: Config, start: nat)
      requires config.workers > 0
      ensures Valid() && running && this.config == config
      ensures State() == Server(map[], 0, start)
    {
      this.config := config;
      buffers, received, next, running := map[], 0, start, true;
    }

    /** An empty datagram ends the listener with all it held; any other is one step. */
    method OnDatagram(d: Datagram, flush: bool) returns (out: seq<Handed>)
      requires Valid() && running
      modifies this
      ensures Valid()
      ensures running <==> d.data != []
      ensures d.data == [] ==> out == [] && buffers == map[]
      ensures d.data != [] ==> ServerStep(config, old(State()), [d], flush, out, State())
    {
      out := [];
      if d.data == [] {
        running, buffers := false, map[];
        return;
      }
      ghost var before := State();
      FillOne(before, d);
      buffers := buffers[d.source := Held(buffers, d.source) + d.data];
      received := received + |d.data|;
      var t;
      out, t := Flush(config, Server(buffers, received, next), flush);
      StepBounded(config, before, [d], flush, out, t);
      buffers, received, next := t.buffers, t.received, t.next;
    }

    /** The listener over a stream of datagrams: it runs on up to the first that is empty. */
    method Serve(ds: seq<Datagram>, flushes: seq<bool>) returns (wakes: seq<Wake>, ghost states: seq<Server>)
      requires Valid() && running && buffers == map[] && received == 0 && |flushes| == |ds|
      modifies this
      ensures Valid() && IsRun(config, old(next), states, wakes)
      ensures running <==> forall i :: 0 <= i < |ds| ==> ds[i].data != []
      ensures |wakes| <= |ds| && (running ==> |wakes| == |ds| && Last(states) == State())
      ensures !running ==> |wakes| < |ds| && ds[|wakes|].data == []
      ensures forall i :: 0 <= i < |wakes| ==>
        ds[i].data != [] && wakes[i].batch == [ds[i]] && wakes[i].flush == flushes[i]
    {
      wakes, states := [], [State()];
      var i := 0;
      while i < |ds| && running
        invariant Valid() && i <= |ds|
        invariant IsRun(config, old(next), states, wakes)
        invariant running ==> |wakes| == i && Last(states) == State()
        invariant running ==> forall j :: 0 <= j < i ==> ds[j].data != []
        invariant !running ==> i > 0 && |wakes| == i - 1 && ds[i - 1].data == []
        invariant forall j :: 0 <= j < |wakes| ==>
          ds[j].data != [] && wakes[j].batch == [ds[j]] && wakes[j].flush == flushes[j]
      {
        var out := OnDatagram(ds[i], flushes[i]);
        if running {
          RunExtends(config, old(next), states, wakes, Wake([ds[i]], flushes[i], out), State());
          wakes, states := wakes + [Wake([ds[i]], flushes[i], out)], states + [State()];
        }
        i := i + 1;
      }
    }
  }

  lemma FillOne(s: Server, d: Datagram)
    ensures
      var buffers := s.buffers[d.source := Held(s.buffers, d.source) + d.data];
      Filled(s, [d]) == Server(buffers, s.received + |d.data|, s.next)
  {
    var none: seq<Datagram> := [];
    assert Front([d]) == none && Last([d]) == d;
    assert Fill(s.buffers, none) == s.buffers && DataLen(none) == 0;
  }

  lemma FillNext(s: Server, batch: seq<Datagram>, d: Datagram)
    ensures Filled(s, batch + [d]) == Filled(Filled(s, batch), [d])
  {
    assert Front(batch + [d]) == batch;
    FillOne(Filled(s, batch), d);
  }

  lemma RunExtends(c: Config, start: nat, states: seq<Server>, wakes: seq<Wake>, w: Wake, s: Server)
    requires c.workers > 0 && IsRun(c, start, states, wakes)
    requires ServerStep(c, Last(states), w.batch, w.flush, w.out, s)
    ensures IsRun(c, start, states + [s], wakes + [w])
  {
    forall i | 0 <= i < |wakes + [w]|
      ensures
        var ws, ss := wakes + [w], states + [s];
        ServerStep(c, ss[i], ws[i].batch, ws[i].flush, ws[i].out, ss[i + 1])
    {
      if i < |wakes| {
        assert ServerStep(c, states[i], wakes[i].batch, wakes[i].flush, wakes[i].out, states[i + 1]);
      }
    }
  }

  // ---------- many datagrams at once ----------

  /** Where row `i` begins. */
  function RowAt(i: nat, rowsize: nat): nat {
    i * rowsize
  }

  /** Row `i` of the receive matrix lies inside the allocation. */
  lemma RowInside(packets: nat, bufsize: nat, i: nat)
    requires i < packets
    ensures RowAt(i, bufsize * packets) + bufsize * packets <= packets * packets * bufsize
  {
    var row := bufsize * packets;
    assert (i + 1) * row <= packets * row;
    assert packets * row == packets * packets * bufsize;
  }

  /** Rows do not overlap, so what arrives in one is never read as another message's. */
  lemma RowsDisjoint(rowsize: nat, i: nat, j: nat)
    requires i < j
    ensures RowAt(i, rowsize) + rowsize <= RowAt(j, rowsize)
  {
    assert (i + 1) * rowsize <= j * rowsize;
  }

  /** Every message of a received batch has its bytes inside the matrix. */
  ghost predicate Fits(rows: Bytes, rowsize: nat, lens: seq<nat>, n: nat) {
    n <= |lens| && forall i :: 0 <= i < n ==> RowAt(i, rowsize) + lens[i] <= |rows|
  }

  const NO_SOURCE := Source([])

  /** Appends a batch to the buffers, message by message. */
  method Append(s: Server, batch: seq<Datagram>) returns (t: Server)
    ensures t == Filled(s, batch)
  {
    t := s;
    for i := 0 to |batch|
      invariant t == Filled(s, batch[..i])
    {
      FillNext(s, batch[..i], batch[i]);
      FillOne(t, batch[i]);
      assert batch[..i + 1] == batch[..i] + [batch[i]];
      var d := batch[i];
      t := Server(t.buffers[d.source := Held(t.buffers, d.source) + d.data], t.received + |d.data|, t.next);
    }
    assert batch[..|batch|] == batch;
  }

  class MultiListener {
    const config: Config
    const packets: nat
    const rowsize: nat
    const recvBuffer: array<bv8>
    const addrs: array<Source>
    var buffers: Buffers
    var received: nat
    var next: nat

    ghost function State(): Server
      reads this
    {
      Server(buffers, received, next)
    }

    ghost predicate Valid()
      reads this
    {
      && config.workers > 0
      && addrs.Length == packets && recvBuffer.Length == RowAt(packets, rowsize) && recvBuffer as object != addrs
      && Bounded(config, State())
    }

    constructor (config: Config, packets: nat, bufsize: nat)
      requires config.workers > 0
      ensures Valid() && State() == Server(map[], 0, 0)
      ensures this.config == config && this.packets == packets && rowsize == bufsize * packets
      ensures fresh(recvBuffer) && fresh(addrs)
    {
      this.config, this.packets, this.rowsize := config, packets, bufsize * packets;
      var minBytes := packets * packets * bufsize;
      assert minBytes == packets * (bufsize * packets);
      this.recvBuffer := new bv8[minBytes](_ => 0);
      this.addrs := new Source[packets](_ => NO_SOURCE);
      buffers, received, next := map[], 0, 0;
    }

    lemma AllFit(lens: seq<nat>, n: nat)
      requires Valid() && n <= packets && n <= |lens|
      requires forall i :: 0 <= i < n ==> lens[i] <= rowsize
      ensures Fits(recvBuffer[..], rowsize, lens, n)
    {
      forall i | 0 <= i < n
        ensures RowAt(i, rowsize) + lens[i] <= recvBuffer.Length
      {
        RowsDisjoint(rowsize, i, packets);
      }
    }

    /** Reads the messages out of their rows and clears the address slots. */
    method ReadOut(n: nat, lens: seq<nat>) returns (batch: seq<Datagram>)
      requires n <= packets && |lens| == packets == addrs.Length && recvBuffer as object != addrs
      requires Fits(recvBuffer[..], rowsize, lens, n)
      modifies addrs
      ensures |batch| == n
      ensures forall i :: 0 <= i < n ==>
        i * rowsize + lens[i] <= recvBuffer.Length
        && batch[i].source == old(addrs[i]) && batch[i].data == recvBuffer[i * rowsize..i * rowsize + lens[i]]
      ensures forall i :: 0 <= i < packets ==> addrs[i] == if i < n then NO_SOURCE else old(addrs[i])
    {
      batch := [];
      ghost var rows, from := recvBuffer[..], addrs[..];
      for i := 0 to n
        invariant |batch| == i && recvBuffer[..] == rows
        invariant forall j :: 0 <= j < i ==>
          batch[j] == Datagram(from[j], rows[RowAt(j, rowsize)..RowAt(j, rowsize) + lens[j]])
        invariant forall j :: 0 <= j < packets ==> addrs[j] == if j < i then NO_SOURCE else from[j]
      {
        var data := recvBuffer[RowAt(i, rowsize)..RowAt(i, rowsize) + lens[i]];
        assert data == rows[RowAt(i, rowsize)..RowAt(i, rowsize) + lens[i]];
        batch := batch + [Datagram(addrs[i], data)];
        addrs[i] := NO_SOURCE;
      }
    }

    /**
     What follows a receive call that returned `res`, having written `lens[i]` bytes to row `i` and the
     sender to `addrs[i]`. At most `packets` messages are asked for and none is longer than its row.
     */
    method OnReceive(res: int, lens: seq<nat>, flush: bool) returns (batch: seq<Datagram>, out: seq<Handed>)
      requires Valid() && res <= packets && |lens| == packets
      requires forall i :: 0 <= i < res ==> lens[i] <= rowsize
      modifies this, addrs
      ensures Valid()
      ensures res <= 0 ==> out == [] && State() == old(State())
      ensures res > 0 ==>
        && |batch| == res
        && forall i :: 0 <= i < res ==>
             i * rowsize + lens[i] <= recvBuffer.Length
             && batch[i].source == old(addrs[i]) && batch[i].data == recvBuffer[i * rowsize..i * rowsize + lens[i]]
      ensures res > 0 ==> ServerStep(config, old(State()), batch, flush, out, State())
      ensures forall i :: 0 <= i < packets ==> addrs[i] == if i < res then NO_SOURCE else old(addrs[i])
    {
      batch, out := [], [];
      if res <= 0 {
        return;
      }
      AllFit(lens, res);
      batch := ReadOut(res, lens);
      var t := Append(Server(buffers, received, next), batch);
      out, t := Flush(config, t, flush);
      StepBounded(config, State(), batch, flush, out, t);
      buffers, received, next := t.buffers, t.received, t.next;
    }
  }
}
