/**
 The retrying future: it alternates between an attempt and a wait until an attempt succeeds or the
 retries are used up. The executor polls it at times of its own choosing.
 */
module Retry {
  import opened Metrics

  datatype Options = Options(delay: nat, delayMul: real, delayMax: nat, retries: nat)

  /** How an attempt ends. */
  datatype End<T, E> = Done(item: T) | Failed(error: E)

  datatype Poll<T, E> = NotReady | Ready(item: T) | Err(error: E)

  /** Truncation of a number to an unsigned integer; below zero it saturates. */
  function Truncate(d: real): nat {
    if d < 0.0 then 0 else d.Floor
  }

  /** The wait before a retry. It is computed from the base delay each time and so never grows. */
  function Wait(o: Options): nat {
    var d := o.delay as real * o.delayMul;
    if d <= o.delayMax as real then Truncate(d) else o.delayMax
  }

  /** Every wait is the same, and within the cap. */
  ghost predicate Steady(waits: seq<nat>, o: Options) {
    forall i :: 0 <= i < |waits| ==> waits[i] == Wait(o) <= o.delayMax
  }

  lemma OneMoreWait(waits: seq<nat>, o: Options)
    requires Steady(waits, o)
    ensures Steady(waits + [Wait(o)], o)
  {
    WaitCapped(o);
  }

  /** The wait is the scaled delay, cut to whole units and to the cap; it never exceeds the cap. */
  lemma WaitCapped(o: Options)
    ensures Wait(o) <= o.delayMax
    ensures
      var d := o.delay as real * o.delayMul;
      0.0 <= d ==>
        && Wait(o) as real <= d
        && (d < Wait(o) as real + 1.0 || Wait(o) == o.delayMax)
    ensures o.delay as real * o.delayMul < 0.0 ==> Wait(o) == 0
  {
    var d := o.delay as real * o.delayMul;
    if 0.0 <= d <= o.delayMax as real {
      assert d.Floor as real <= d < d.Floor as real + 1.0;
    }
  }

  /** The verdict on attempts that end as `ends` says: the first success within the budget, else the last error. */
  ghost predicate IsVerdict<T, E>(ends: nat -> End<T, E>, retries: nat, r: Poll<T, E>) {
    match r
    case NotReady => false
    case Ready(item) =>
      exists j: nat :: j <= retries && ends(j) == Done(item) && forall i: nat :: i < j ==> ends(i).Failed?
    case Err(error) =>
      (forall i: nat :: i <= retries ==> ends(i).Failed?) && ends(retries) == Failed(error)
  }

  ghost predicate AllFail<T, E>(ends: nat -> End<T, E>, n: nat) {
    forall i: nat :: i < n ==> ends(i).Failed?
  }

  lemma SuccessIsVerdict<T, E>(ends: nat -> End<T, E>, retries: nat, j: nat)
    requires j <= retries && ends(j).Done? && AllFail(ends, j)
    ensures IsVerdict(ends, retries, Ready(ends(j).item))
  {
  }

  lemma LastErrorIsVerdict<T, E>(ends: nat -> End<T, E>, retries: nat)
    requires ends(retries).Failed? && AllFail(ends, retries)
    ensures IsVerdict(ends, retries, Err(ends(retries).error))
  {
  }

  lemma OneMoreFails<T, E>(ends: nat -> End<T, E>, n: nat)
    requires AllFail(ends, n) && ends(n).Failed?
    ensures AllFail(ends, n + 1)
  {
  }

  /** There is one verdict, and it is an error exactly when every attempt in the budget fails. */
  lemma VerdictUnique<T, E>(ends: nat -> End<T, E>, retries: nat, a: Poll<T, E>, b: Poll<T, E>)
    requires IsVerdict(ends, retries, a) && IsVerdict(ends, retries, b)
    ensures a == b
    ensures a.Err? <==> forall i: nat :: i <= retries ==> ends(i).Failed?
  {
    if a.Ready? && b.Ready? {
      var j: nat :| j <= retries && ends(j) == Done(a.item) && forall i: nat :: i < j ==> ends(i).Failed?;
      var k: nat :| k <= retries && ends(k) == Done(b.item) && forall i: nat :: i < k ==> ends(i).Failed?;
      assert j <= k <= j;
    }
  }

  lemma ErrorIsAllFail<T, E>(ends: nat -> End<T, E>, retries: nat, r: Poll<T, E>)
    requires IsVerdict(ends, retries, r)
    ensures r.Err? <==> AllFail(ends, retries + 1)
  {
    VerdictUnique(ends, retries, r, r);
  }

  /** The attempt that settles the matter: the first from `from` on that succeeds, or the last of the budget. */
  function Settler<T, E>(ends: nat -> End<T, E>, from: nat, retries: nat): (j: nat)
    requires from <= retries
    ensures from <= j <= retries
    decreases retries - from
  {
    if ends(from).Done? || from == retries then from else Settler(ends, from + 1, retries)
  }

  /** Every attempt before it fails, and it succeeds or is the last. */
  lemma {:induction false} SettlerSettles<T, E>(ends: nat -> End<T, E>, from: nat, retries: nat)
    requires from <= retries
    ensures
      var j := Settler(ends, from, retries);
      && (forall i: nat :: from <= i < j ==> ends(i).Failed?)
      && (ends(j).Done? || j == retries)
    decreases retries - from
  {
    if !ends(from).Done? && from < retries {
      SettlerSettles(ends, from + 1, retries);
    }
  }

  lemma SettlesHere<T, E>(ends: nat -> End<T, E>, attempt: nat, retries: nat)
    requires AllFail(ends, attempt) && attempt <= Settler(ends, 0, retries)
    ensures attempt == Settler(ends, 0, retries) <==> ends(attempt).Done? || attempt == retries
  {
    SettlerSettles(ends, 0, retries);
  }

  // ---------- schedules ----------

  /** What is polled in each turn up to and including turn `n` is ready. */
  ghost predicate ReadyThrough(ready: nat -> bool, n: nat) {
    forall k: nat :: k <= n ==> ready(k)
  }

  /** How many of the first `n` turns come before one that is not ready. */
  function ReadyTurns(ready: nat -> bool, n: nat): nat {
    if n == 0 then 0
    else
      var before := ReadyTurns(ready, n - 1);
      if before == n - 1 && ready(n - 1) then n else before
  }

  lemma {:induction false} FirstUnready(ready: nat -> bool, n: nat)
    ensures
      var k := ReadyTurns(ready, n);
      && k <= n
      && (forall i: nat :: i < k ==> ready(i))
      && (k < n ==> !ready(k))
  {
    if n > 0 {
      FirstUnready(ready, n - 1);
    }
  }

  /** The turns that `need` more turns and a ready end still lack after a series of polls; none when it settled. */
  function Lacking(schedules: seq<nat -> bool>, need: nat): Option<nat> {
    if schedules == [] then Some(need)
    else
      var before := Lacking(Front(schedules), need);
      if before.None? then None else AfterPoll(Last(schedules), before.value)
  }

  function AfterPoll(ready: nat -> bool, need: nat): Option<nat> {
    var k := ReadyTurns(ready, need + 1);
    if k <= need then Some(need - k) else None
  }

  lemma PollOutcome(ready: nat -> bool, need: nat, turns: nat)
    requires turns <= need && (forall k: nat :: k < turns ==> ready(k))
    ensures ReadyThrough(ready, need) ==> AfterPoll(ready, need).None?
    ensures !ready(turns) ==> AfterPoll(ready, need) == Some(need - turns)
  {
    FirstUnready(ready, need + 1);
  }

  lemma OneMorePoll(schedules: seq<nat -> bool>, i: nat, need: nat, left: nat)
    requires i < |schedules| && Lacking(schedules[..i], need) == Some(left)
    ensures Lacking(schedules[..i + 1], need) == AfterPoll(schedules[i], left)
  {
    assert Front(schedules[..i + 1]) == schedules[..i];
  }

  lemma {:induction false} SettledStays(schedules: seq<nat -> bool>, n: nat, need: nat)
    requires n <= |schedules| && Lacking(schedules[..n], need).None?
    ensures Lacking(schedules, need).None?
  {
    if n == |schedules| {
      assert schedules[..n] == schedules;
    } else {
      assert Front(schedules)[..n] == schedules[..n];
      SettledStays(Front(schedules), n, need);
    }
  }

  /** Polls that each find something ready settle the matter, with at most one more of them than turns are needed. */
  lemma {:induction false} FairPollsSettle(schedules: seq<nat -> bool>, need: nat)
    requires forall i :: 0 <= i < |schedules| ==> schedules[i](0)
    ensures Lacking(schedules, need).Some? ==> Lacking(schedules, need).value + |schedules| <= need
    ensures |schedules| > need ==> Lacking(schedules, need).None?
  {
    if schedules != [] {
      FairPollsSettle(Front(schedules), need);
      var before := Lacking(Front(schedules), need);
      if before.Some? {
        assert schedules[|schedules| - 1](0);
        FirstUnready(Last(schedules), before.value + 1);
      }
    }
  }

  class BackoffRetry<T, E> {
    const options: Options
    const ends: nat -> End<T, E>  // how the attempts of this action would end, in order
    var retries: nat
    var waiting: bool
    var waits: seq<nat>           // the delays taken so far
    var attempt: nat              // the attempt under way, or the one the wait is for
    ghost var over: bool

    ghost predicate Valid()
      reads this
    {
      && attempt + retries == options.retries
      && AllFail(ends, attempt)
      && attempt <= Settler(ends, 0, options.retries)
      && |waits| == attempt
      && Steady(waits, options)
    }

    /** The attempts that have been started. */
    ghost function Started(): nat
      reads this
    {
      attempt + if waiting then 0 else 1
    }

    /** The turns before the settling attempt is polled: a failed attempt and a wait for each attempt before it. */
    ghost function Needed(): nat
      requires Valid()
      reads this
    {
      2 * (Settler(ends, 0, options.retries) - attempt) + if waiting then 1 else 0
    }

    constructor (options: Options, ends: nat -> End<T, E>)
      ensures Valid() && !over && Needed() == 2 * Settler(ends, 0, options.retries) && Started() == 1
      ensures this.options == options && this.ends == ends
    {
      this.options, this.ends := options, ends;
      retries, waiting, waits, attempt, over := options.retries, false, [], 0, false;
    }

    /**
     One poll. `ready(k)` says whether what is polled in the k-th turn of the loop, the attempt or the
     timer, is ready. The poll settles exactly when everything up to the settling attempt is ready, and then
     with the verdict on all attempts; otherwise it has used the turns that were ready and no more.
     */
    method DoPoll(ready: nat -> bool) returns (r: Poll<T, E>, turns: nat)
      requires Valid() && !over
      modifies this
      ensures Valid()
      ensures over <==> !r.NotReady?
      ensures !r.NotReady? <==> ReadyThrough(ready, old(Needed()))
      ensures !r.NotReady? ==> IsVerdict(ends, options.retries, r) && Started() == Settler(ends, 0, options.retries) + 1
      ensures forall k: nat :: k < turns ==> ready(k)
      ensures r.NotReady? ==> !ready(turns)
      ensures Needed() + turns == old(Needed())
      ensures old(waits) <= waits && Started() >= old(Started())
    {
      turns := 0;
      while true
        invariant Valid() && !over
        invariant Needed() + turns == old(Needed())
        invariant forall k: nat :: k < turns ==> ready(k)
        invariant old(waits) <= waits && Started() >= old(Started())
        decreases Needed()
      {
        if !ready(turns) {
          return NotReady, turns;
        }
        if !waiting {
          SettlesHere(ends, attempt, options.retries);
          match ends(attempt) {
            case Done(item) =>
              SuccessIsVerdict(ends, options.retries, attempt);
              over := true;
              return Ready(item), turns;
            case Failed(e) =>
              if retries == 0 {
                LastErrorIsVerdict(ends, options.retries);
                over := true;
                return Err(e), turns;
              }
          }
          retries := retries - 1;
          OneMoreWait(waits, options);
          OneMoreFails(ends, attempt);
          waits := waits + [Wait(options)];
          waiting := true;
          attempt := attempt + 1;
        } else {
          waiting := false;
        }
        turns := turns + 1;
      }
    }
  }

  /**
   The future from its making on, polled on one schedule after another until it settles. It is an error if and
   only if the schedules are ready for long enough and every attempt in the budget fails; it is still unsettled
   if and only if they are not.
   */
  method PollSeries<T, E>(options: Options, ends: nat -> End<T, E>, schedules: seq<nat -> bool>)
    returns (r: Poll<T, E>, started: nat, waits: seq<nat>)
    ensures
      var need := 2 * Settler(ends, 0, options.retries);
      && (r.NotReady? <==> Lacking(schedules, need).Some?)
      && (r.Err? <==> Lacking(schedules, need).None? && AllFail(ends, options.retries + 1))
      && (!r.NotReady? ==>
            && IsVerdict(ends, options.retries, r)
            && started == Settler(ends, 0, options.retries) + 1 <= options.retries + 1)
    ensures started <= options.retries + 1
    ensures Steady(waits, options) && started - 1 <= |waits| <= started
  {
    var retry := new BackoffRetry(options, ends);
    ghost var need := retry.Needed();
    r := NotReady;
    var i := 0;
    while i < |schedules| && r.NotReady?
      invariant 0 <= i <= |schedules|
      invariant retry.Valid() && retry.options == options && retry.ends == ends
      invariant retry.over <==> !r.NotReady?
      invariant Lacking(schedules[..i], need) == if r.NotReady? then Some(retry.Needed()) else None
      invariant !r.NotReady? ==> IsVerdict(ends, options.retries, r)
      invariant !r.NotReady? ==> retry.Started() == Settler(ends, 0, options.retries) + 1
    {
      ghost var left := retry.Needed();
      var turns;
      r, turns := retry.DoPoll(schedules[i]);
      OneMorePoll(schedules, i, need, left);
      PollOutcome(schedules[i], left, turns);
      i := i + 1;
    }
    if r.NotReady? {
      assert schedules[..i] == schedules;
    } else {
      SettledStays(schedules, i, need);
      ErrorIsAllFail(ends, options.retries, r);
    }
    started := retry.attempt + if retry.waiting then 0 else 1;
    waits := retry.waits;
  }
}
