/**
 From an accumulated cache to the lines that go to the backend, in the three aggregation modes.

 What an accumulated metric computes is outside this model: it yields some statistics, each a name suffix
 and a value, and the number of updates it saw.
 */
module Aggregation {
  import opened Metrics
  import opened Sums

  const DOT: bv8 := 46

  datatype Stat = Stat(suffix: Bytes, value: Value)

  datatype Outcome = Outcome(updates: nat, stats: seq<Stat>)

  type Accumulated = map<Name, Outcome>

  datatype CounterOptions = CounterOptions(threshold: nat, prefix: Bytes, suffix: Bytes)

  datatype OutLine = OutLine(name: Bytes, value: Value)

  // ---------- names ----------

  /** The name of a metric's update counter: prefix and suffix, each with its dot, when they are given. */
  function CounterName(o: CounterOptions, name: Bytes): Bytes {
    (if o.prefix != [] then o.prefix + [DOT] else []) + name + (if o.suffix != [] then [DOT] + o.suffix else [])
  }

  /** Counting is turned off at startup when neither prefix nor suffix is given. */
  function StartupOptions(countUpdates: bool, o: CounterOptions): Option<CounterOptions> {
    if countUpdates && !(|o.prefix| == 0 && |o.suffix| == 0) then Some(o) else None
  }

  /** A counter takes its metric's own name exactly when prefix and suffix are both empty. */
  lemma CounterNameIff(o: CounterOptions, name: Bytes)
    ensures CounterName(o, name) == name <==> o.prefix == [] && o.suffix == []
  {
    if o.prefix != [] || o.suffix != [] {
      assert |CounterName(o, name)| > |name|;
    } else {
      assert [] + name + [] == name;
    }
  }

  /** So under the startup guard no counter ever takes its metric's own name. */
  lemma StartupGuard(countUpdates: bool, o: CounterOptions, name: Bytes)
    requires StartupOptions(countUpdates, o).Some?
    ensures CounterName(StartupOptions(countUpdates, o).value, name) != name
  {
    CounterNameIff(o, name);
  }

  /** Each part that is given is set off by a dot, which is byte 46. */
  lemma CounterNameParts(o: CounterOptions, name: Bytes)
    ensures o.prefix != [] && o.suffix != [] ==> CounterName(o, name) == o.prefix + [46] + name + [46] + o.suffix
    ensures o.prefix != [] && o.suffix == [] ==> CounterName(o, name) == o.prefix + [46] + name
    ensures o.prefix == [] && o.suffix != [] ==> CounterName(o, name) == name + [46] + o.suffix
    ensures o.prefix == [] && o.suffix == [] ==> CounterName(o, name) == name
  {
  }

  /** Updates are counted, with the options as configured, exactly when that is asked for and a part is given. */
  lemma StartupIff(countUpdates: bool, o: CounterOptions)
    ensures StartupOptions(countUpdates, o) == Some(o) <==> countUpdates && (o.prefix != [] || o.suffix != [])
    ensures StartupOptions(countUpdates, o) == None <==> !countUpdates || (o.prefix == [] && o.suffix == [])
  {
  }

  /** The prefix with its dot, and the suffix with its dot. */
  function Before(o: CounterOptions): Bytes {
    if o.prefix != [] then o.prefix + [DOT] else []
  }

  function Behind(o: CounterOptions): Bytes {
    if o.suffix != [] then [DOT] + o.suffix else []
  }

  /** `name` is `b` over and over, broken off anywhere. */
  predicate Cycles(name: Bytes, b: Bytes)
    requires b != []
    decreases |name|
  {
    if |name| < |b| then name <= b else b <= name && Cycles(name[|b|..], b)
  }

  /** How much of `b` the last, broken-off round has. */
  function BrokenOff(name: Bytes, b: Bytes): (m: nat)
    requires b != []
    ensures m < |b|
    decreases |name|
  {
    if |name| < |b| then |name| else BrokenOff(name[|b|..], b)
  }

  /** `b` begun at another place. */
  function Turned(b: Bytes, m: nat): Bytes
    requires m <= |b|
  {
    b[m..] + b[..m]
  }

  lemma Cancel(a: Bytes, b: Bytes, c: Bytes)
    ensures a + b == a + c <==> b == c
  {
    if a + b == a + c {
      assert b == (a + b)[|a|..] == (a + c)[|a|..] == c;
    }
  }

  /** Putting `b` in front of a name is putting something behind it exactly when the name cycles through `b`. */
  lemma {:induction false} FrontIsBehind(name: Bytes, b: Bytes, rest: Bytes, stat: Bytes)
    requires b != []
    ensures b + name + rest == name + stat <==> Cycles(name, b) && stat == Turned(b, BrokenOff(name, b)) + rest
    decreases |name|
  {
    if |name| < |b| {
      var m := |name|;
      assert b + name + rest == b[..m] + (b[m..] + name + rest);
      if name == b[..m] {
        Cancel(name, b[m..] + name + rest, stat);
      } else {
        assert (name + stat)[..m] == name && (b + name + rest)[..m] == b[..m];
      }
    } else if b <= name {
      var less := name[|b|..];
      assert name == b + less;
      FrontIsBehind(less, b, rest, stat);
      assert b + name + rest == b + (b + less + rest);
      assert name + stat == b + (less + stat);
      Cancel(b, b + less + rest, less + stat);
    } else {
      assert (name + stat)[..|b|] == name[..|b|] && (b + name + rest)[..|b|] == b;
    }
  }

  /**
   The guard does not cover the statistics. A counter takes the name of a statistic of its metric exactly when
   there is no prefix and the statistic's suffix is the counter's, or the metric's name cycles through the
   prefix and its dot and the statistic's suffix goes on where the name breaks off.
   */
  lemma CounterTakesStatistic(o: CounterOptions, name: Bytes, stat: Bytes)
    ensures CounterName(o, name) == name + stat <==>
      if o.prefix == [] then stat == Behind(o)
      else Cycles(name, Before(o)) && stat == Turned(Before(o), BrokenOff(name, Before(o))) + Behind(o)
  {
    assert CounterName(o, name) == Before(o) + name + Behind(o);
    if o.prefix == [] {
      assert [] + name == name;
      Cancel(name, Behind(o), stat);
    } else {
      FrontIsBehind(name, Before(o), Behind(o), stat);
    }
  }

  /** Any metric counted under its own name as prefix takes the name of its statistic of that name, past the guard. */
  lemma GuardLetsCollide(name: Bytes, threshold: nat)
    requires name != []
    ensures
      var o := CounterOptions(threshold, name, []);
      StartupOptions(true, o) == Some(o) && CounterName(o, name) == name + ([DOT] + name)
  {
  }

  // ---------- one metric ----------

  predicate Counts(m: Outcome, options: Option<CounterOptions>) {
    options.Some? && m.updates > options.value.threshold
  }

  /** How often a line is owed for a metric: once for each statistic it is, and once if it is the counter. */
  function StatCount(name: Name, q: OutLine): Stat -> nat {
    (s: Stat) => if q.name == name.bytes + s.suffix && q.value == s.value then 1 else 0
  }

  function Owed(name: Name, m: Outcome, options: Option<CounterOptions>, q: OutLine): nat {
    Sum(m.stats, StatCount(name, q))
      + if Counts(m, options) && q == OutLine(CounterName(options.value, name.bytes), m.updates as real) then 1 else 0
  }

  /**
   The lines of a metric: a line per statistic, in order, with the statistic's suffix and value, then the counter when
   the updates exceed the threshold. One name buffer serves all: it is empty whenever a name has been taken out.
   */
  method AggregateTask(name: Name, m: Outcome, options: Option<CounterOptions>) returns (lines: seq<OutLine>)
    ensures |lines| == |m.stats| + if options.Some? && m.updates > options.value.threshold then 1 else 0
    ensures forall i :: 0 <= i < |m.stats| ==>
      lines[i].name == name.bytes + m.stats[i].suffix && lines[i].value == m.stats[i].value
    ensures |lines| > |m.stats| ==>
      && lines[|m.stats|].name == CounterName(options.value, name.bytes)
      && lines[|m.stats|].value == m.updates as real
    ensures forall q :: multiset(lines)[q] == Owed(name, m, options, q)
  {
    var buf: Bytes := [];
    var upd: seq<OutLine> := [];
    if options.Some? && m.updates > options.value.threshold {
      var o := options.value;
      if |o.prefix| > 0 {
        buf := buf + o.prefix;
        buf := buf + [DOT];
      }
      buf := buf + name.bytes;
      if |o.suffix| > 0 {
        buf := buf + [DOT];
        buf := buf + o.suffix;
      }
      CounterBuilt(o, name.bytes, buf);
      upd := [OutLine(buf, m.updates as real)];
      buf := [];
    }
    lines := [];
    for i := 0 to |m.stats|
      invariant buf == []
      invariant |lines| == i
      invariant forall j :: 0 <= j < i ==> lines[j] == OutLine(name.bytes + m.stats[j].suffix, m.stats[j].value)
    {
      buf := buf + name.bytes;
      buf := buf + m.stats[i].suffix;
      assert buf == name.bytes + m.stats[i].suffix;
      lines := lines + [OutLine(buf, m.stats[i].value)];
      buf := [];
    }
    forall q
      ensures multiset(lines + upd)[q] == Owed(name, m, options, q)
    {
      StatLines(name, m.stats, lines, q);
    }
    lines := lines + upd;
  }

  lemma {:induction false} StatLines(name: Name, stats: seq<Stat>, lines: seq<OutLine>, q: OutLine)
    requires |lines| == |stats|
    requires forall j :: 0 <= j < |stats| ==> lines[j] == OutLine(name.bytes + stats[j].suffix, stats[j].value)
    ensures multiset(lines)[q] == Sum(stats, StatCount(name, q))
  {
    if stats != [] {
      StatLines(name, Front(stats), Front(lines), q);
      BagOfFront(lines);
      assert lines[|lines| - 1] == OutLine(name.bytes + stats[|stats| - 1].suffix, stats[|stats| - 1].value);
    }
  }

  lemma CounterBuilt(o: CounterOptions, name: Bytes, buf: Bytes)
    requires buf == (if |o.prefix| > 0 then [] + o.prefix + [DOT] else []) + name
      + (if |o.suffix| > 0 then [DOT] + o.suffix else [])
    ensures buf == CounterName(o, name)
  {
    assert [] + o.prefix == o.prefix;
  }

  // ---------- the modes ----------

  function LineCount(options: Option<CounterOptions>, q: OutLine): (Name, Outcome) -> nat {
    (name: Name, m: Outcome) => Owed(name, m, options, q)
  }

  /** `out` holds every line of every accumulated metric, each as often as the metrics give it, and no other. */
  ghost predicate Emits(acc: Accumulated, options: Option<CounterOptions>, out: seq<OutLine>) {
    forall q :: multiset(out)[q] == SumMap(acc, LineCount(options, q))
  }

  /** The modes agree: whatever each emits for the same cache is the same bag of lines. */
  lemma ModesAgree(acc: Accumulated, options: Option<CounterOptions>, a: seq<OutLine>, b: seq<OutLine>)
    requires Emits(acc, options, a) && Emits(acc, options, b)
    ensures multiset(a) == multiset(b)
  {
    forall q: OutLine
      ensures multiset(a)[q] == multiset(b)[q]
    {
    }
  }

  lemma SumMapStep(taken: Accumulated, name: Name, m: Outcome, f: (Name, Outcome) -> nat)
    requires name !in taken
    ensures SumMap(taken[name := m], f) == SumMap(taken, f) + f(name, m)
  {
    SumMapPut(taken, name, m, f);
    assert taken - {name} == taken;
  }

  /** The lines are those owed for a metric. */
  ghost predicate AreOwed(lines: seq<OutLine>, name: Name, m: Outcome, options: Option<CounterOptions>) {
    forall q :: multiset(lines)[q] == Owed(name, m, options, q)
  }

  lemma EmitsStep(taken: Accumulated, options: Option<CounterOptions>, out: seq<OutLine>, name: Name, m: Outcome,
                  lines: seq<OutLine>)
    requires Emits(taken, options, out) && name !in taken && AreOwed(lines, name, m, options)
    ensures Emits(taken[name := m], options, out + lines)
  {
    forall q
      ensures multiset(out + lines)[q] == SumMap(taken[name := m], LineCount(options, q))
    {
      SumMapStep(taken, name, m, LineCount(options, q));
    }
  }

  /** Single: one metric after another, in the order the map yields them. */
  method Single(acc: Accumulated, options: Option<CounterOptions>) returns (out: seq<OutLine>)
    ensures Emits(acc, options, out)
  {
    out := [];
    var rest := acc;
    ghost var taken: Accumulated := map[];
    while |rest| > 0
      invariant Split(acc, taken, rest)
      invariant Emits(taken, options, out)
      decreases |rest|
    {
      var name :| name in rest;
      SplitStep(acc, taken, rest, name);
      Smaller(rest, name);
      var lines := AggregateTask(name, rest[name], options);
      EmitsStep(taken, options, out, name, rest[name], lines);
      out := out + lines;
      taken := taken[name := rest[name]];
      rest := rest - {name};
    }
    SplitEnd(acc, taken, rest);
  }

  datatype Job = Job(name: Name, m: Outcome)

  /** What is still to be emitted from the workers' queues. */
  function Queued(queues: seq<seq<Job>>, options: Option<CounterOptions>, q: OutLine): nat {
    Sum(queues, QueueCount(options, q))
  }

  function QueueCount(options: Option<CounterOptions>, q: OutLine): seq<Job> -> nat {
    (jobs: seq<Job>) => Sum(jobs, JobCount(options, q))
  }

  function JobCount(options: Option<CounterOptions>, q: OutLine): Job -> nat {
    (job: Job) => Owed(job.name, job.m, options, q)
  }

  function JobsLeft(): seq<Job> -> nat {
    (jobs: seq<Job>) => |jobs|
  }

  lemma EnqueueCount(queues: seq<seq<Job>>, w: nat, job: Job, options: Option<CounterOptions>, q: OutLine)
    requires w < |queues|
    ensures Queued(queues[w := queues[w] + [job]], options, q) == Queued(queues, options, q) + JobCount(options, q)(job)
  {
    SumUpdate(queues, w, queues[w] + [job], QueueCount(options, q));
    SumAppend(queues[w], job, JobCount(options, q));
  }

  lemma DequeueCount(queues: seq<seq<Job>>, w: nat, options: Option<CounterOptions>, q: OutLine)
    requires w < |queues| && queues[w] != []
    ensures Queued(queues, options, q)
         == Queued(queues[w := queues[w][1..]], options, q) + JobCount(options, q)(queues[w][0])
  {
    SumUpdate(queues, w, queues[w][1..], QueueCount(options, q));
    SumHead(queues[w], JobCount(options, q));
  }

  /** Common, first half: metric number `num` is queued at worker `num % workers`. */
  method Distribute(acc: Accumulated, options: Option<CounterOptions>, workers: nat) returns (queues: seq<seq<Job>>)
    requires workers > 0
    ensures |queues| == workers
    ensures forall q :: Queued(queues, options, q) == SumMap(acc, LineCount(options, q))
    ensures forall v, w :: 0 <= v < workers && 0 <= w < workers ==> |queues[v]| <= |queues[w]| + 1
  {
    queues := seq(workers, i => []);
    forall q
      ensures Queued(queues, options, q) == 0
    {
      SumZero(queues, QueueCount(options, q));
    }
    var rest, num := acc, 0;
    ghost var taken: Accumulated := map[];
    while |rest| > 0
      invariant Split(acc, taken, rest) && |queues| == workers
      invariant forall q :: Queued(queues, options, q) == SumMap(taken, LineCount(options, q))
      invariant Dealt(queues, num)
      decreases |rest|
    {
      var name :| name in rest;
      SplitStep(acc, taken, rest, name);
      Smaller(rest, name);
      var job, w := Job(name, rest[name]), num % workers;
      QueuedStep(queues, w, job, options, taken);
      DealtStep(queues, num, job);
      queues := queues[w := queues[w] + [job]];
      taken := taken[name := rest[name]];
      rest, num := rest - {name}, num + 1;
    }
    SplitEnd(acc, taken, rest);
  }

  /** `num` jobs dealt out in turn. */
  ghost predicate Dealt(queues: seq<seq<Job>>, num: nat) {
    && |queues| > 0
    && forall w :: 0 <= w < |queues| ==> |queues[w]| == num / |queues| + if w < num % |queues| then 1 else 0
  }

  lemma NextTurn(num: nat, workers: nat)
    requires workers > 0
    ensures num % workers + 1 < workers ==>
      (num + 1) / workers == num / workers && (num + 1) % workers == num % workers + 1
    ensures num % workers + 1 == workers ==> (num + 1) / workers == num / workers + 1 && (num + 1) % workers == 0
  {
    var q, r := num / workers, num % workers;
    assert num == q * workers + r;
    if r + 1 < workers {
      DivModIs(num + 1, workers, q, r + 1);
    } else {
      assert num + 1 == (q + 1) * workers;
      DivModIs(num + 1, workers, q + 1, 0);
    }
  }

  lemma DivModIs(n: nat, d: nat, q: nat, r: nat)
    requires d > 0 && n == q * d + r && r < d
    ensures n / d == q && n % d == r
  {
    var a, b := n / d, n % d;
    assert n == a * d + b;
    OneQuotient(d, q, r, a, b);
  }

  lemma OneQuotient(d: nat, q: int, r: nat, a: int, b: nat)
    requires q * d + r == a * d + b && r < d && b < d
    ensures q == a && r == b
  {
    if a > q {
      AtLeast(a - q, d);
    } else if a < q {
      AtLeast(q - a, d);
    }
  }

  lemma AtLeast(k: int, d: nat)
    requires k >= 1
    ensures k * d >= d
  {
  }

  lemma DealtStep(queues: seq<seq<Job>>, num: nat, job: Job)
    requires Dealt(queues, num)
    ensures
      var w := num % |queues|;
      Dealt(queues[w := queues[w] + [job]], num + 1)
  {
    NextTurn(num, |queues|);
  }

  lemma QueuedStep(queues: seq<seq<Job>>, w: nat, job: Job, options: Option<CounterOptions>, taken: Accumulated)
    requires w < |queues| && job.name !in taken
    requires forall q :: Queued(queues, options, q) == SumMap(taken, LineCount(options, q))
    ensures forall q ::
      Queued(queues[w := queues[w] + [job]], options, q) == SumMap(taken[job.name := job.m], LineCount(options, q))
  {
    forall q
      ensures Queued(queues[w := queues[w] + [job]], options, q)
           == SumMap(taken[job.name := job.m], LineCount(options, q))
    {
      EnqueueCount(queues, w, job, options, q);
      SumMapStep(taken, job.name, job.m, LineCount(options, q));
    }
  }

  /** Common, second half: the workers take their jobs in turn, in any interleaving. */
  method RunWorkers(start: seq<seq<Job>>, options: Option<CounterOptions>) returns (out: seq<OutLine>)
    ensures forall q :: multiset(out)[q] == Queued(start, options, q)
  {
    out := [];
    var queues: seq<seq<Job>> := start;
    while exists w :: 0 <= w < |queues| && queues[w] != []
      invariant forall q :: multiset(out)[q] + Queued(queues, options, q) == Queued(start, options, q)
      decreases Sum(queues, JobsLeft())
    {
      var w :| 0 <= w < |queues| && queues[w] != [];
      var job: Job := queues[w][0];
      var lines := AggregateTask(job.name, job.m, options);
      TakeJob(start, queues, w, options, out, lines);
      SumUpdate(queues, w, queues[w][1..], JobsLeft());
      out := out + lines;
      queues := queues[w := queues[w][1..]];
    }
    NoneQueued(queues, options);
  }

  lemma TakeJob(start: seq<seq<Job>>, queues: seq<seq<Job>>, w: nat, options: Option<CounterOptions>,
                out: seq<OutLine>, lines: seq<OutLine>)
    requires w < |queues| && queues[w] != [] && AreOwed(lines, queues[w][0].name, queues[w][0].m, options)
    requires forall q :: multiset(out)[q] + Queued(queues, options, q) == Queued(start, options, q)
    ensures forall q ::
      multiset(out + lines)[q] + Queued(queues[w := queues[w][1..]], options, q) == Queued(start, options, q)
  {
    forall q
      ensures multiset(out + lines)[q] + Queued(queues[w := queues[w][1..]], options, q) == Queued(start, options, q)
    {
      DequeueCount(queues, w, options, q);
      assert multiset(out + lines)[q] == multiset(out)[q] + multiset(lines)[q];
    }
  }

  lemma NoneQueued(queues: seq<seq<Job>>, options: Option<CounterOptions>)
    requires forall w :: 0 <= w < |queues| ==> queues[w] == []
    ensures forall q :: Queued(queues, options, q) == 0
  {
    forall q
      ensures Queued(queues, options, q) == 0
    {
      SumZero(queues, QueueCount(options, q));
    }
  }

  /** Common: the workers of the node share the metrics. */
  method Common(acc: Accumulated, options: Option<CounterOptions>, workers: nat) returns (out: seq<OutLine>)
    requires workers > 0
    ensures Emits(acc, options, out)
  {
    var queues := Distribute(acc, options, workers);
    out := RunWorkers(queues, options);
  }

  /** Lines a thread of the pool has computed and not sent yet. */
  function PendingCount(q: OutLine): seq<OutLine> -> nat {
    (lines: seq<OutLine>) => multiset(lines)[q]
  }

  function LinesLeft(): seq<OutLine> -> nat {
    (lines: seq<OutLine>) => |lines|
  }

  /** Everything started is emitted or pending. */
  ghost predicate InHand(taken: Accumulated, options: Option<CounterOptions>, out: seq<OutLine>,
                         pending: seq<seq<OutLine>>)
  {
    forall q :: multiset(out)[q] + Sum(pending, PendingCount(q)) == SumMap(taken, LineCount(options, q))
  }

  lemma StartMetric(taken: Accumulated, options: Option<CounterOptions>, out: seq<OutLine>, pending: seq<seq<OutLine>>,
                    name: Name, m: Outcome, lines: seq<OutLine>)
    requires InHand(taken, options, out, pending) && name !in taken && AreOwed(lines, name, m, options)
    ensures InHand(taken[name := m], options, out, pending + [lines])
  {
    forall q
      ensures multiset(out)[q] + Sum(pending + [lines], PendingCount(q))
           == SumMap(taken[name := m], LineCount(options, q))
    {
      SumAppend(pending, lines, PendingCount(q));
      SumMapStep(taken, name, m, LineCount(options, q));
    }
  }

  lemma SendLine(taken: Accumulated, options: Option<CounterOptions>, out: seq<OutLine>,
                 pending: seq<seq<OutLine>>, t: nat)
    requires InHand(taken, options, out, pending) && t < |pending| && pending[t] != []
    ensures InHand(taken, options, out + [pending[t][0]], pending[t := pending[t][1..]])
  {
    forall q
      ensures multiset(out + [pending[t][0]])[q] + Sum(pending[t := pending[t][1..]], PendingCount(q))
           == SumMap(taken, LineCount(options, q))
    {
      SumUpdate(pending, t, pending[t][1..], PendingCount(q));
      assert pending[t] == [pending[t][0]] + pending[t][1..];
    }
  }

  /** Separate: a pool of threads; any metric may be started and any computed line sent at any moment. */
  method Separate(acc: Accumulated, options: Option<CounterOptions>) returns (out: seq<OutLine>)
    ensures Emits(acc, options, out)
  {
    out := [];
    var rest := acc;
    var pending: seq<seq<OutLine>> := [];
    ghost var taken: Accumulated := map[];
    while |rest| > 0 || exists t :: 0 <= t < |pending| && pending[t] != []
      invariant Split(acc, taken, rest)
      invariant InHand(taken, options, out, pending)
      decreases |rest|, Sum(pending, LinesLeft())
    {
      if
      case |rest| > 0 =>
        var name :| name in rest;
        SplitStep(acc, taken, rest, name);
        Smaller(rest, name);
        var lines := AggregateTask(name, rest[name], options);
        StartMetric(taken, options, out, pending, name, rest[name], lines);
        pending := pending + [lines];
        taken := taken[name := rest[name]];
        rest := rest - {name};
      case exists t :: 0 <= t < |pending| && pending[t] != [] =>
        var t :| 0 <= t < |pending| && pending[t] != [];
        SendLine(taken, options, out, pending, t);
        SumUpdate(pending, t, pending[t][1..], LinesLeft());
        out := out + [pending[t][0]];
        pending := pending[t := pending[t][1..]];
    }
    SplitEnd(acc, taken, rest);
    forall q
      ensures Sum(pending, PendingCount(q)) == 0
    {
      SumZero(pending, PendingCount(q));
    }
  }
}
