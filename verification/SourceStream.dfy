/**
 From the socket to the parser: with consistent parsing, the bytes one source sends reach the metric parser
 of one worker as one unbroken stream.
 */
module SourceStream {
  import opened Metrics
  import opened TaskRunners
  import opened Ingress

  /** The Parse tasks of a worker, as key and data. */
  function Parses(ts: seq<Task>): seq<(nat, Bytes)> {
    if ts == [] then []
    else Parses(Front(ts)) + if Last(ts).Parse? then [(Last(ts).key, Last(ts).data)] else []
  }

  /** What a listener handed to one worker. */
  function HandedTo(out: seq<Handed>, w: nat): seq<(nat, Bytes)> {
    if out == [] then []
    else HandedTo(Front(out), w) + if Last(out).worker == w then [(Last(out).key, Last(out).data)] else []
  }

  function KeyData(parses: seq<(nat, Bytes)>, key: nat): Bytes {
    if parses == [] then []
    else KeyData(Front(parses), key) + if Last(parses).0 == key then Last(parses).1 else []
  }

  /** What arrived under the key for buffers that have been dropped since. */
  function Earlier(ts: seq<Task>, key: nat): Bytes {
    if ts == [] then []
    else if Last(ts).Rotate? && Fed(ts, key) == [] then Earlier(Front(ts), key) + Fed(Front(ts), key)
    else Earlier(Front(ts), key)
  }

  /** All the bytes the parser ever consumed under the key. */
  function Consumed(p: Parser, ts: seq<Task>, key: nat): nat {
    if ts == [] then 0
    else
      var before, t := Consumed(p, Front(ts), key), Last(ts);
      if t.Parse? && t.key == key then
        var buf := Joined(RunAll(p, Front(ts)), key, t.data);
        before + if p(buf).consumed <= |buf| then p(buf).consumed else |buf|
      else before
  }

  /** All the bytes that were dropped unparsed under the key. */
  function Discarded(p: Parser, ts: seq<Task>, key: nat): nat {
    if ts == [] then 0
    else
      var before, w := Discarded(p, Front(ts), key), RunAll(p, Front(ts));
      if Last(ts).Rotate? && key in w.buffers && key !in RunAll(p, ts).buffers then before + |w.buffers[key].data|
      else before
  }

  lemma KeyDataAppend(parses: seq<(nat, Bytes)>, one: (nat, Bytes), key: nat)
    ensures KeyData(parses + [one], key) == KeyData(parses, key) + if one.0 == key then one.1 else []
  {
    assert Front(parses + [one]) == parses;
  }

  lemma {:induction false} KeyDataConcat(a: seq<(nat, Bytes)>, b: seq<(nat, Bytes)>, key: nat)
    ensures KeyData(a + b, key) == KeyData(a, key) + KeyData(b, key)
  {
    if b == [] {
      assert a + b == a;
    } else {
      KeyDataConcat(a, Front(b), key);
      assert Front(a + b) == a + Front(b) && Last(a + b) == Last(b);
    }
  }

  lemma {:induction false} EarlierAndFed(ts: seq<Task>, key: nat)
    ensures KeyData(Parses(ts), key) == Earlier(ts, key) + Fed(ts, key)
  {
    if ts != [] {
      EarlierAndFed(Front(ts), key);
      if Last(ts).Parse? {
        KeyDataAppend(Parses(Front(ts)), (Last(ts).key, Last(ts).data), key);
      } else {
        assert Parses(Front(ts)) + [] == Parses(Front(ts));
      }
    }
  }

  /** The bytes a task adds to those under a key. */
  function Added(t: Task, key: nat): nat {
    if t.Parse? && t.key == key then |t.data| else 0
  }

  lemma KeyBytesStep(p: Parser, ts: seq<Task>, key: nat)
    requires ts != []
    ensures |KeyData(Parses(ts), key)| == |KeyData(Parses(Front(ts)), key)| + Added(Last(ts), key)
    ensures
      var front := Front(ts);
      Consumed(p, ts, key) + Discarded(p, ts, key) + |Unparsed(RunAll(p, ts), key)|
        == Consumed(p, front, key) + Discarded(p, front, key) + |Unparsed(RunAll(p, front), key)| + Added(Last(ts), key)
  {
    if Last(ts).Parse? {
      KeyDataAppend(Parses(Front(ts)), (Last(ts).key, Last(ts).data), key);
    } else {
      assert Parses(Front(ts)) + [] == Parses(Front(ts));
    }
  }

  /** All that arrived under a key was consumed, was dropped with its buffer, or is buffered. */
  lemma {:induction false} KeyBytes(p: Parser, ts: seq<Task>, key: nat)
    ensures |KeyData(Parses(ts), key)| == Consumed(p, ts, key) + Discarded(p, ts, key) + |Unparsed(RunAll(p, ts), key)|
  {
    if ts != [] {
      KeyBytes(p, Front(ts), key);
      KeyBytesStep(p, ts, key);
    }
  }

  // ---------- keys and sources ----------

  /** Nothing was handed out under this source's key for another source. */
  predicate OwnKey(c: Config, out: seq<Handed>, s: Source) {
    forall i :: 0 <= i < |out| && out[i].key == c.hash(s) && out[i].source != s ==> out[i].data == []
  }

  /** What was handed to one worker for a source, and under its key for others. */
  function HandedForTo(out: seq<Handed>, s: Source, w: nat): Bytes {
    if out == [] then []
    else HandedForTo(Front(out), s, w) + if Last(out).source == s && Last(out).worker == w then Last(out).data else []
  }

  function ForeignTo(c: Config, out: seq<Handed>, s: Source, w: nat): nat {
    if out == [] then 0
    else
      var h := Last(out);
      ForeignTo(c, Front(out), s, w) + if h.worker == w && h.key == c.hash(s) && h.source != s then |h.data| else 0
  }

  /** No worker but this one was handed anything of the source. */
  predicate AllTo(out: seq<Handed>, s: Source, w: nat) {
    forall i :: 0 <= i < |out| && out[i].source == s ==> out[i].worker == w
  }

  predicate OwnKeyAt(c: Config, out: seq<Handed>, s: Source, w: nat) {
    forall i :: 0 <= i < |out| && out[i].worker == w && out[i].key == c.hash(s) && out[i].source != s ==>
      out[i].data == []
  }

  lemma {:induction false} ForeignToNone(c: Config, out: seq<Handed>, s: Source, w: nat)
    ensures ForeignTo(c, out, s, w) == 0 <==> OwnKeyAt(c, out, s, w)
  {
    if out != [] {
      ForeignToNone(c, Front(out), s, w);
      assert forall i :: 0 <= i < |out| - 1 ==> out[i] == Front(out)[i];
      assert out[|out| - 1] == Last(out);
    }
  }

  /** In either mode a worker is handed under a key the data of its source that it was picked for, and the foreign. */
  lemma {:induction false} HandedUnderKeyTo(c: Config, next: nat, out: seq<Handed>, s: Source, w: nat)
    requires c.workers > 0 && Routed(c, next, out)
    ensures
      var data := KeyData(HandedTo(out, w), c.hash(s));
      && |data| == |HandedForTo(out, s, w)| + ForeignTo(c, out, s, w)
      && (ForeignTo(c, out, s, w) == 0 ==> data == HandedForTo(out, s, w))
  {
    if out != [] {
      HandedUnderKeyTo(c, next, Front(out), s, w);
      var h := Last(out);
      assert out[|out| - 1] == h && RoutedAt(c, NextAfter(c, next, |out| - 1), h);
      if h.worker == w {
        KeyDataAppend(HandedTo(Front(out), w), (h.key, h.data), c.hash(s));
      } else {
        assert HandedTo(Front(out), w) + [] == HandedTo(Front(out), w);
      }
    }
  }

  /** The workers' shares of a source are all of it, whatever the mode. */
  function SharesOf(out: seq<Handed>, s: Source, workers: nat): nat {
    if workers == 0 then 0 else SharesOf(out, s, workers - 1) + |HandedForTo(out, s, workers - 1)|
  }

  lemma {:induction false} ShareStep(out: seq<Handed>, s: Source, workers: nat)
    requires out != []
    ensures
      var h := Last(out);
      SharesOf(out, s, workers)
        == SharesOf(Front(out), s, workers) + if h.source == s && h.worker < workers then |h.data| else 0
  {
    if workers > 0 {
      ShareStep(out, s, workers - 1);
    }
  }

  lemma {:induction false} ShareNone(s: Source, workers: nat)
    ensures SharesOf([], s, workers) == 0
  {
    if workers > 0 {
      ShareNone(s, workers - 1);
    }
  }

  lemma {:induction false} SharesAreAll(c: Config, next: nat, out: seq<Handed>, s: Source)
    requires c.workers > 0 && Routed(c, next, out)
    ensures SharesOf(out, s, c.workers) == |HandedFor(out, s)|
  {
    if out == [] {
      ShareNone(s, c.workers);
    } else {
      SharesAreAll(c, next, Front(out), s);
      ShareStep(out, s, c.workers);
      assert RoutedAt(c, NextAfter(c, next, |out| - 1), out[|out| - 1]);
    }
  }

  lemma {:induction false} ShareOfOne(out: seq<Handed>, s: Source, w: nat)
    requires AllTo(out, s, w)
    ensures HandedForTo(out, s, w) == HandedFor(out, s)
  {
    if out != [] {
      ShareOfOne(Front(out), s, w);
      assert out[|out| - 1] == Last(out);
    }
  }

  // ---------- from the socket to the parser ----------

  /** All a worker has of a key: what came for dropped buffers, then consumed, then buffered, then queued. */
  function AtWorker(p: Parser, ts: seq<Task>, channel: seq<(nat, Bytes)>, key: nat): Bytes
    requires Eaten(p, ts, key) <= |Fed(ts, key)|
  {
    Earlier(ts, key) + Fed(ts, key)[..Eaten(p, ts, key)] + Unparsed(RunAll(p, ts), key) + KeyData(channel, key)
  }

  /** Whatever tasks the worker ran, drops and shared keys included, it has of a key what it was handed. */
  lemma KeyReachesParser(p: Parser, ts: seq<Task>, channel: seq<(nat, Bytes)>, handed: seq<(nat, Bytes)>, key: nat)
    requires Parses(ts) + channel == handed
    ensures Eaten(p, ts, key) <= |Fed(ts, key)| && AtWorker(p, ts, channel, key) == KeyData(handed, key)
  {
    ParserSeesStream(p, ts, key);
    EarlierAndFed(ts, key);
    KeyDataConcat(Parses(ts), channel, key);
    var fed, eaten := Fed(ts, key), Eaten(p, ts, key);
    assert fed == fed[..eaten] + fed[eaten..];
    Associative(Earlier(ts, key), fed[..eaten], fed[eaten..]);
  }

  /**
   In either mode: a worker that has run any tasks, among them in order some first part of what the listener handed
   it, has under a source's key its share of that source, if and only if it was handed nothing under the key for
   another source. The shares of all the workers are together all that was handed out for the source.
   */
  lemma WorkerParsesShare(p: Parser, c: Config, start: nat, states: seq<Server>, wakes: seq<Wake>, w: nat,
                          ts: seq<Task>, channel: seq<(nat, Bytes)>, s: Source)
    requires c.workers > 0 && IsRun(c, start, states, wakes)
    requires Parses(ts) + channel == HandedTo(AllHanded(wakes), w)
    ensures Eaten(p, ts, c.hash(s)) <= |Fed(ts, c.hash(s))|
    ensures AtWorker(p, ts, channel, c.hash(s)) == HandedForTo(AllHanded(wakes), s, w)
       <==> OwnKeyAt(c, AllHanded(wakes), s, w)
    ensures SharesOf(AllHanded(wakes), s, c.workers) + |Held(Last(states).buffers, s)| == |SentIn(wakes, s)|
  {
    var out := AllHanded(wakes);
    StreamConservation(c, start, states, wakes, s);
    RunRouted(c, start, states, wakes);
    HandedUnderKeyTo(c, start, out, s, w);
    ForeignToNone(c, out, s, w);
    SharesAreAll(c, start, out, s);
    KeyReachesParser(p, ts, channel, HandedTo(out, w), c.hash(s));
  }

  /** With consistent parsing one worker gets all of a source, and all of whatever shares its key. */
  lemma OneWorker(c: Config, next: nat, out: seq<Handed>, s: Source)
    requires c.workers > 0 && c.consistent && Routed(c, next, out)
    ensures AllTo(out, s, c.hash(s) % c.workers)
    ensures OwnKey(c, out, s) <==> OwnKeyAt(c, out, s, c.hash(s) % c.workers)
  {
    forall i | 0 <= i < |out|
      ensures out[i].key == c.hash(out[i].source) && out[i].worker == out[i].key % c.workers
    {
      assert RoutedAt(c, NextAfter(c, next, i), out[i]);
    }
  }

  /**
   The worker a source is routed to has run any tasks, among them in order some first part of what the listener
   handed it; the rest is in its channel. What the source sent is what that worker has under its key, then what
   the listener still holds, if and only if nothing was handed out under the key for another source.
   */
  lemma SourceReachesParser(p: Parser, c: Config, start: nat, states: seq<Server>, wakes: seq<Wake>,
                            ts: seq<Task>, channel: seq<(nat, Bytes)>, s: Source)
    requires c.workers > 0 && c.consistent && IsRun(c, start, states, wakes)
    requires Parses(ts) + channel == HandedTo(AllHanded(wakes), c.hash(s) % c.workers)
    ensures Eaten(p, ts, c.hash(s)) <= |Fed(ts, c.hash(s))|
    ensures SentIn(wakes, s) == AtWorker(p, ts, channel, c.hash(s)) + Held(Last(states).buffers, s)
       <==> OwnKey(c, AllHanded(wakes), s)
  {
    var key, out, held := c.hash(s), AllHanded(wakes), Held(Last(states).buffers, s);
    StreamConservation(c, start, states, wakes, s);
    RunRouted(c, start, states, wakes);
    WorkerParsesShare(p, c, start, states, wakes, key % c.workers, ts, channel, s);
    OneWorker(c, start, out, s);
    ShareOfOne(out, s, key % c.workers);
    KeyReachesParser(p, ts, channel, HandedTo(out, key % c.workers), key);
    HandedUnderKeyTo(c, start, out, s, key % c.workers);
    ForeignToNone(c, out, s, key % c.workers);
    if ForeignTo(c, out, s, key % c.workers) > 0 {
      assert |AtWorker(p, ts, channel, key) + held| > |HandedFor(out, s) + held|;
    }
  }
}
