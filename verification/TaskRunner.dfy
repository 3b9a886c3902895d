/**
 A counting worker: the two-tier cache, the per-source parse buffers, and the tasks that change them.

 `TaskRunner` is the worker as it runs, changing its fields; `Apply` and `Reply` say on values what
 each task does, and every later module reasons with those.
 */
module TaskRunners {
  import opened Metrics
  import opened Sums

  /** What the metric parser makes of a buffer: the metrics it finds and how much of the front it consumes. */
  datatype Parsed = Parsed(entries: seq<Entry>, consumed: nat)

  type Parser = Bytes -> Parsed

  /** An unparsed tail, and the number of rotations since anything arrived for it. */
  datatype Buffer = Buffer(times: nat, data: Bytes)

  datatype Task =
    | Parse(key: nat, data: Bytes)
    | AddMetric(entry: Entry)
    | AddMetrics(list: seq<Entry>)
    | AddSnapshot(list: seq<Entry>)
    | TakeSnapshot
    | Rotate

  datatype Worker = Worker(long: Cache, short: Cache, buffers: map<nat, Buffer>)

  const FRESH := Worker(map[], map[], map[])

  /** A buffer that reaches this many rotations without data is dropped. */
  const MAX_AGE: nat := 5

  /** What is buffered under a key. */
  function Unparsed(w: Worker, key: nat): Bytes {
    if key in w.buffers then w.buffers[key].data else []
  }

  /** The bytes the parser is shown when `data` arrives under `key`. */
  function Joined(w: Worker, key: nat, data: Bytes): Bytes {
    Unparsed(w, key) + data
  }

  function Rest(parsed: Parsed, buf: Bytes): Bytes {
    if parsed.consumed <= |buf| then buf[parsed.consumed..] else []
  }

  /** The entries a task brings to the short cache. */
  function Ingested(p: Parser, w: Worker, t: Task): seq<Entry> {
    match t
    case Parse(key, data) => p(Joined(w, key, data)).entries
    case AddMetric(entry) => [entry]
    case AddMetrics(list) => list
    case _ => []
  }

  function Aged(buffers: map<nat, Buffer>): map<nat, Buffer> {
    map k | k in buffers && buffers[k].times + 1 < MAX_AGE :: Buffer(buffers[k].times + 1, buffers[k].data)
  }

  /** The worker after a task. */
  function Apply(p: Parser, w: Worker, t: Task): Worker {
    match t
    case Parse(key, data) =>
      var buf := Joined(w, key, data);
      w.(short := AddAll(w.short, p(buf).entries),
         buffers := w.buffers[key := Buffer(0, Rest(p(buf), buf))])
    case AddMetric(entry) => w.(short := AddAll(w.short, [entry]))
    case AddMetrics(list) => w.(short := AddAll(w.short, list))
    case AddSnapshot(list) => w.(long := AddAll(w.long, list))
    case TakeSnapshot => w.(long := MergeInto(w.long, w.short), short := map[])
    case Rotate => w.(long := map[], buffers := Aged(w.buffers))
  }

  /** What the task's requester is sent. */
  function Reply(w: Worker, t: Task): Option<Cache> {
    match t
    case TakeSnapshot => Some(w.short)
    case Rotate => Some(w.long)
    case _ => None
  }

  /** How many merges a task makes that are refused. */
  function Errors(p: Parser, w: Worker, t: Task): nat {
    match t
    case AddSnapshot(list) => |Refused(w.long, list)|
    case TakeSnapshot => |Conflicts(w.long, w.short)|
    case _ => |Refused(w.short, Ingested(p, w, t))|
  }

  /** Adds a list to a cache entry by entry, counting the refusals. */
  method UpdateAll(cache: Cache, l: seq<Entry>) returns (c: Cache, errors: nat)
    ensures c == AddAll(cache, l)
    ensures errors == |Refused(cache, l)|
  {
    c, errors := cache, 0;
    for i := 0 to |l|
      invariant c == AddAll(cache, l[..i])
      invariant errors == |Refused(cache, l[..i])|
    {
      assert Front(l[..i + 1]) == l[..i];
      if l[i].name in c {
        if c[l[i].name].kind == l[i].metric.kind {
          c := c[l[i].name := Metric(c[l[i].name].kind, c[l[i].name].samples + l[i].metric.samples)];
        } else {
          errors := errors + 1;
        }
      } else {
        c := c[l[i].name := l[i].metric];
      }
    }
    assert l[..|l|] == l;
  }

  /** One more name taken is one more entry added to what was poured so far. */
  lemma DrainStep(into: Cache, taken: Cache, name: Name, metric: Metric)
    requires name !in taken
    ensures MergeInto(into, taken[name := metric]) == Update(MergeInto(into, taken), Entry(name, metric))
  {
    var before, after := MergeInto(into, taken), MergeInto(into, taken[name := metric]);
    var updated := Update(before, Entry(name, metric));
    assert after.Keys == updated.Keys;
    forall x | x in after.Keys
      ensures after[x] == updated[x]
    {
      if x == name {
        assert x in before <==> x in into;
      }
    }
  }

  lemma ConflictStep(into: Cache, taken: Cache, name: Name, metric: Metric)
    requires name !in taken
    ensures Conflicts(into, taken[name := metric]).Keys == Conflicts(into, taken).Keys +
      (if Refuses(into, Entry(name, metric)) then {name} else {})
  {
  }

  lemma DrainErrors(into: Cache, taken: Cache, name: Name, metric: Metric)
    requires name !in taken
    ensures Refuses(MergeInto(into, taken), Entry(name, metric)) <==> Refuses(into, Entry(name, metric))
    ensures |Conflicts(into, taken[name := metric]).Keys|
         == |Conflicts(into, taken).Keys| + (if Refuses(into, Entry(name, metric)) then 1 else 0)
  {
    ConflictStep(into, taken, name, metric);
  }

  lemma MergeNothing(into: Cache)
    ensures MergeInto(into, map[]) == into
    ensures Conflicts(into, map[]) == map[]
  {
  }

  /** Drains one cache into another, taking the names in whatever order the map yields them. */
  method Drain(into: Cache, from: Cache) returns (c: Cache, errors: nat)
    ensures c == MergeInto(into, from)
    ensures errors == |Conflicts(into, from)|
  {
    c, errors := into, 0;
    var rest := from;
    ghost var taken: Cache := map[];
    MergeNothing(into);
    while |rest| > 0
      invariant Split(from, taken, rest)
      invariant c == MergeInto(into, taken)
      invariant errors == |Conflicts(into, taken)|
      decreases |rest|
    {
      var name :| name in rest;
      SplitStep(from, taken, rest, name);
      Smaller(rest, name);
      DrainStep(into, taken, name, rest[name]);
      DrainErrors(into, taken, name, rest[name]);
      if Refuses(c, Entry(name, rest[name])) {
        errors := errors + 1;
      }
      c := Update(c, Entry(name, rest[name]));
      taken := taken[name := rest[name]];
      rest := rest - {name};
    }
    SplitEnd(from, taken, rest);
  }

  class TaskRunner {
    const parser: Parser
    var long: Cache
    var short: Cache
    var buffers: map<nat, Buffer>
    var aggErrors: nat

    function State(): Worker
      reads this
    {
      Worker(long, short, buffers)
    }

    constructor (parser: Parser)
      ensures this.parser == parser
      ensures State() == FRESH && aggErrors == 0
    {
      this.parser := parser;
      long, short, buffers, aggErrors := map[], map[], map[], 0;
    }

    method Run(task: Task) returns (reply: Option<Cache>)
      modifies this
      ensures State() == Apply(parser, old(State()), task)
      ensures reply == Reply(old(State()), task)
      ensures aggErrors == old(aggErrors) + Errors(parser, old(State()), task)
    {
      reply := None;
      var errors: nat;
      match task {
        case Parse(key, data) =>
          var buf := Joined(State(), key, data);
          var parsed := parser(buf);
          buffers := buffers[key := Buffer(0, Rest(parsed, buf))];
          short, errors := UpdateAll(short, parsed.entries);
        case AddMetric(entry) =>
          short, errors := UpdateAll(short, [entry]);
        case AddMetrics(list) =>
          short, errors := UpdateAll(short, list);
        case AddSnapshot(list) =>
          long, errors := UpdateAll(long, list);
        case TakeSnapshot =>
          reply := Some(short);
          long, errors := Drain(long, short);
          short := map[];
        case Rotate =>
          reply := Some(long);
          long := map[];
          buffers := Aged(buffers);
          errors := 0;
      }
      aggErrors := aggErrors + errors;
    }
  }

  /** A worker that has run a list of tasks from the start. */
  function RunAll(p: Parser, ts: seq<Task>): Worker {
    if ts == [] then FRESH else Apply(p, RunAll(p, Front(ts)), Last(ts))
  }

  // ---------- what tasks do to the samples ----------

  /** How often a task brings a value under a name. */
  function BroughtCount(p: Parser, w: Worker, t: Task, x: Name, v: Value): nat {
    match t
    case Parse(key, data) =>
      CountList(p(if key in w.buffers then w.buffers[key].data + data else data).entries, x, v)
    case AddMetric(entry) => CountOne(entry, x, v)
    case AddMetrics(list) => CountList(list, x, v)
    case AddSnapshot(list) => CountList(list, x, v)
    case TakeSnapshot => 0
    case Rotate => 0
  }

  /** How often it is refused on the way. */
  function LostCount(p: Parser, w: Worker, t: Task, x: Name, v: Value): nat {
    match t
    case AddSnapshot(list) => CountList(Refused(w.long, list), x, v)
    case TakeSnapshot => Count(Conflicts(w.long, w.short), x, v)
    case Rotate => 0
    case _ => CountList(Refused(w.short, Ingested(p, w, t)), x, v)
  }

  /** How often it is handed out for good: a rotation's answer leaves the worker, a snapshot's is a copy. */
  function HandedOutCount(w: Worker, t: Task, x: Name, v: Value): nat {
    if t.Rotate? && Reply(w, t).Some? then Count(Reply(w, t).value, x, v) else 0
  }

  /** Held before and brought is held after, handed out or refused, for every task, name and value. */
  lemma TaskConserves(p: Parser, w: Worker, t: Task, x: Name, v: Value)
    ensures
      var after := Apply(p, w, t);
      Count(after.long, x, v) + Count(after.short, x, v) + HandedOutCount(w, t, x, v) + LostCount(p, w, t, x, v)
        == Count(w.long, x, v) + Count(w.short, x, v) + BroughtCount(p, w, t, x, v)
  {
    match t
    case AddSnapshot(list) => AddAllCount(w.long, list, x, v);
    case TakeSnapshot => MergeIntoCount(w.long, w.short, x, v);
    case Rotate =>
    case _ => LocalConserves(p, w, t, x, v);
  }

  lemma LocalConserves(p: Parser, w: Worker, t: Task, x: Name, v: Value)
    requires t.Parse? || t.AddMetric? || t.AddMetrics?
    ensures
      var after := Apply(p, w, t);
      && after.long == w.long
      && Count(after.short, x, v) + LostCount(p, w, t, x, v) == Count(w.short, x, v) + BroughtCount(p, w, t, x, v)
  {
    AddAllCount(w.short, Ingested(p, w, t), x, v);
    BroughtIsIngested(p, w, t, x, v);
    assert Apply(p, w, t).short == AddAll(w.short, Ingested(p, w, t));
  }

  lemma BroughtIsIngested(p: Parser, w: Worker, t: Task, x: Name, v: Value)
    requires t.Parse? || t.AddMetric? || t.AddMetrics?
    ensures BroughtCount(p, w, t, x, v) == CountList(Ingested(p, w, t), x, v)
  {
    if t.Parse? {
      assert [] + t.data == t.data;
    } else if t.AddMetric? {
      CountListStep([], t.entry, x, v);
      assert [] + [t.entry] == [t.entry];
    }
  }

  /**
   Local data touches the short cache alone and a peer's the long cache alone. A snapshot answers with all that is
   unshared and leaves none of it in the short cache; a rotation leaves the short cache as it is and the long empty.
   */
  lemma TaskSides(p: Parser, w: Worker, t: Task, x: Name, v: Value)
    ensures
      var after, reply := Apply(p, w, t), Reply(w, t);
      && (t.Parse? || t.AddMetric? || t.AddMetrics? ==> after.long == w.long)
      && (t.AddSnapshot? || t.Rotate? ==> after.short == w.short)
      && (t.TakeSnapshot? ==> after.short == map[] && reply.Some? && Count(reply.value, x, v) == Count(w.short, x, v))
      && (t.Rotate? ==> after.long == map[])
      && (reply.Some? <==> t.TakeSnapshot? || t.Rotate?)
  {
  }

  /** Sums over the tasks of a run. */
  function BroughtByAll(p: Parser, ts: seq<Task>, x: Name, v: Value): nat {
    if ts == [] then 0
    else BroughtByAll(p, Front(ts), x, v) + BroughtCount(p, RunAll(p, Front(ts)), Last(ts), x, v)
  }

  function LostByAll(p: Parser, ts: seq<Task>, x: Name, v: Value): nat {
    if ts == [] then 0
    else LostByAll(p, Front(ts), x, v) + LostCount(p, RunAll(p, Front(ts)), Last(ts), x, v)
  }

  function HandedOutByAll(p: Parser, ts: seq<Task>, x: Name, v: Value): nat {
    if ts == [] then 0
    else HandedOutByAll(p, Front(ts), x, v) + HandedOutCount(RunAll(p, Front(ts)), Last(ts), x, v)
  }

  /** Over every run of a worker: all that was brought is held, was handed out once or was refused. */
  lemma {:induction false} RunConserves(p: Parser, ts: seq<Task>, x: Name, v: Value)
    ensures
      var w := RunAll(p, ts);
      Count(w.long, x, v) + Count(w.short, x, v) + HandedOutByAll(p, ts, x, v) + LostByAll(p, ts, x, v)
        == BroughtByAll(p, ts, x, v)
  {
    if ts != [] {
      RunConserves(p, Front(ts), x, v);
      TaskConserves(p, RunAll(p, Front(ts)), Last(ts), x, v);
    }
  }

  /** The i-th entry of a list meets its name under another kind when its turn comes. */
  predicate RefusedAt(c: Cache, l: seq<Entry>, i: nat)
    requires i < |l|
  {
    Refuses(AddAll(c, l[..i]), l[i])
  }

  predicate SomeRefused(c: Cache, l: seq<Entry>) {
    exists i :: 0 <= i < |l| && RefusedAt(c, l, i)
  }

  lemma SomeRefusedStep(c: Cache, l: seq<Entry>)
    requires l != []
    ensures SomeRefused(c, l) <==> SomeRefused(c, Front(l)) || Refuses(AddAll(c, Front(l)), Last(l))
  {
    var front, n := Front(l), |l| - 1;
    forall i | 0 <= i < n
      ensures RefusedAt(c, front, i) <==> RefusedAt(c, l, i)
    {
      assert front[..i] == l[..i];
    }
    assert l[..n] == front;
    assert RefusedAt(c, l, n) <==> Refuses(AddAll(c, front), Last(l));
  }

  lemma {:induction false} RefusedNone(c: Cache, l: seq<Entry>)
    ensures |Refused(c, l)| == 0 <==> !SomeRefused(c, l)
  {
    if l != [] {
      RefusedNone(c, Front(l));
      SomeRefusedStep(c, l);
    }
  }

  /** A task counts no error exactly when no entry of it meets its name under another kind. */
  lemma ErrorsIff(p: Parser, w: Worker, t: Task)
    ensures
      match t
      case AddSnapshot(list) =>
        Errors(p, w, t) == 0 <==> !SomeRefused(w.long, list)
      case TakeSnapshot =>
        Errors(p, w, t) == 0 <==> forall x :: x in w.long && x in w.short ==> w.long[x].kind == w.short[x].kind
      case Rotate => Errors(p, w, t) == 0
      case _ =>
        Errors(p, w, t) == 0 <==> !SomeRefused(w.short, Ingested(p, w, t))
  {
    match t
    case AddSnapshot(list) => RefusedNone(w.long, list);
    case TakeSnapshot =>
      if |Conflicts(w.long, w.short)| == 0 {
        assert Conflicts(w.long, w.short) == map[];
        forall x | x in w.long && x in w.short
          ensures w.long[x].kind == w.short[x].kind
        {
          assert x !in Conflicts(w.long, w.short);
        }
      }
    case Rotate =>
    case _ => RefusedNone(w.short, Ingested(p, w, t));
  }

  // ---------- parse buffers ----------

  /** The rotations since data last arrived under `key`, if it ever did. */
  function RotationsSince(ts: seq<Task>, key: nat): Option<nat> {
    if ts == [] then None
    else if Last(ts).Parse? && Last(ts).key == key then Some(0)
    else
      var before := RotationsSince(Front(ts), key);
      if Last(ts).Rotate? && before.Some? then Some(before.value + 1) else before
  }

  /** A parse buffer lives until the fifth rotation in a row without data, and its counter says how many passed. */
  lemma {:induction false} BufferAge(p: Parser, ts: seq<Task>, key: nat)
    ensures
      var w, age := RunAll(p, ts), RotationsSince(ts, key);
      && (key in w.buffers <==> age.Some? && age.value < 5)
      && (key in w.buffers ==> w.buffers[key].times == age.value)
  {
    if ts != [] {
      BufferAge(p, Front(ts), key);
    }
  }

  /** The bytes that arrived under `key` since its buffer was made. */
  function Fed(ts: seq<Task>, key: nat): Bytes {
    if ts == [] then []
    else match Last(ts)
      case Parse(k, data) => if k == key then Fed(Front(ts), key) + data else Fed(Front(ts), key)
      case Rotate =>
        var age := RotationsSince(ts, key);
        if age.Some? && age.value < MAX_AGE then Fed(Front(ts), key) else []
      case _ => Fed(Front(ts), key)
  }

  /** How many of those the parser has consumed. */
  function Eaten(p: Parser, ts: seq<Task>, key: nat): nat {
    if ts == [] then 0
    else match Last(ts)
      case Parse(k, data) =>
        if k != key then Eaten(p, Front(ts), key)
        else
          var buf := Joined(RunAll(p, Front(ts)), key, data);
          Eaten(p, Front(ts), key) + if p(buf).consumed <= |buf| then p(buf).consumed else |buf|
      case Rotate =>
        var age := RotationsSince(ts, key);
        if age.Some? && age.value < MAX_AGE then Eaten(p, Front(ts), key) else 0
      case _ => Eaten(p, Front(ts), key)
  }

  /**
   Whatever tasks come in between, a buffer is the part of its source's stream the parser has not consumed:
   the parser is always shown the stream from where it stopped, with no gap and nothing repeated.
   */
  lemma {:induction false} ParserSeesStream(p: Parser, ts: seq<Task>, key: nat)
    ensures Eaten(p, ts, key) <= |Fed(ts, key)|
    ensures Unparsed(RunAll(p, ts), key) == Fed(ts, key)[Eaten(p, ts, key)..]
    ensures key !in RunAll(p, ts).buffers ==> Fed(ts, key) == []
  {
    if ts != [] {
      var front, t := Front(ts), Last(ts);
      ParserSeesStream(p, front, key);
      var w := RunAll(p, front);
      if t.Parse? && t.key == key {
        var consumed := p(Joined(w, key, t.data)).consumed;
        WindowMoves(Fed(front, key), Eaten(p, front, key), t.data, Unparsed(w, key), consumed);
      } else if t.Rotate? {
        BufferAge(p, ts, key);
        assert key in RunAll(p, ts).buffers ==> Unparsed(RunAll(p, ts), key) == Unparsed(w, key);
      } else {
        assert Unparsed(RunAll(p, ts), key) == Unparsed(w, key);
      }
    }
  }

  lemma WindowMoves(fed: Bytes, eaten: nat, data: Bytes, held: Bytes, n: nat)
    requires eaten <= |fed| && held == fed[eaten..]
    ensures
      var buf := held + data;
      var more := if n <= |buf| then n else |buf|;
      eaten + more <= |fed + data| && buf[more..] == (fed + data)[eaten + more..]
  {
    assert held + data == (fed + data)[eaten..];
  }
}
