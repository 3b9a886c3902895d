/**
 Who leads: the consensus state and the leader flag as two cells written by two threads.

 The main thread runs the management handler and Consul; the Raft thread runs Raft. Within one thread
 nothing interleaves, so a handler comes whole before or after a Consul answer. Between the threads
 everything does. A `switch_leader` call of the Raft thread reads the consensus state under its lock, lets
 go of the lock, and only then stores the flag; between the two it is armed. The handler writes the
 consensus state first and the flag second.
 */
module Leadership {
  import opened Metrics

  datatype Consensus = Enabled | Paused | Disabled

  datatype ConsensusAction = Enable | Disable | Pause | Resume

  datatype LeaderAction = Unchanged | Lead | Follow

  /** What is configured to choose the leader. Raft enables consensus itself when its start delay is over. */
  datatype Chooser = Nobody | Consul | RaftWaiting | RaftRunning

  datatype State = State(
    consensus: Consensus,
    isLeader: bool,
    armed: Option<bool>,            // Raft thread: what a switch_leader call past its check will store
    pending: Option<LeaderAction>,  // main thread: the second write of a handler that has done its first
    asked: bool,                    // main thread: a lock request to Consul is out
    chooser: Chooser)

  datatype Step =
    | Ask                                                // a renew tick asks Consul for the key
    | NoAnswer                                           // and the request fails
    | Answer(acquired: bool)                             // or its answer goes through switch_leader
    | Command(action: ConsensusAction, leader: LeaderAction)  // a handler writes the consensus state
    | CommandLeader(leader: LeaderAction)                // and then the flag
    | Start                                              // the start delay of Raft is over
    | Notice(acquired: bool)                             // a Raft notification reaches the check of switch_leader
    | Store(acquired: bool)                              // and stores the flag

  function After(a: ConsensusAction): Consensus {
    match a
    case Enable => Enabled
    case Resume => Enabled
    case Disable => Disabled
    case Pause => Paused
  }

  /** The flag a leader action asks for. */
  function Asked(flag: bool, leader: LeaderAction): bool {
    match leader
    case Unchanged => flag
    case Lead => true
    case Follow => false
  }

  /** Consensus is off until a chooser or a command turns it on; Consul starts in the state configured for it. */
  function Startup(startAsLeader: bool, chooser: Chooser, consulState: Consensus): State {
    State(if chooser.Consul? then consulState else Disabled, startAsLeader, None, None, false, chooser)
  }

  ghost predicate CanStep(s: State, l: Step) {
    match l
    case Ask => s.pending.None? && s.chooser.Consul? && !s.asked && s.consensus != Disabled
    case NoAnswer => s.pending.None? && s.asked
    case Answer(_) => s.pending.None? && s.asked
    case Command(_, _) => s.pending.None?
    case CommandLeader(a) => s.pending == Some(a)
    case Start => s.chooser.RaftWaiting?
    case Notice(_) => s.chooser.RaftRunning? && s.armed.None?
    case Store(a) => s.armed == Some(a)
  }

  function Next(s: State, l: Step): State {
    match l
    case Ask => s.(asked := true)
    case NoAnswer => s.(asked := false)
    case Answer(a) => s.(isLeader := if s.consensus == Enabled then a else s.isLeader, asked := false)
    case Command(action, a) => s.(consensus := After(action), pending := Some(a))
    case CommandLeader(a) => s.(isLeader := Asked(s.isLeader, a), pending := None)
    case Start => s.(consensus := Enabled, chooser := RaftRunning)
    case Notice(a) => if s.consensus == Enabled then s.(armed := Some(a)) else s
    case Store(a) => s.(isLeader := a, armed := None)
  }

  /** The state after a list of steps. */
  function Trace(s: State, steps: seq<Step>): State {
    if steps == [] then s else Next(Trace(s, Front(steps)), Last(steps))
  }

  ghost predicate CanRun(s: State, steps: seq<Step>) {
    steps != [] ==> CanRun(s, Front(steps)) && CanStep(Trace(s, Front(steps)), Last(steps))
  }

  /** Only a Raft thread that runs can be inside a call, and only Consul can be asked. */
  predicate Sound(s: State) {
    (s.armed.Some? ==> s.chooser.RaftRunning?) && (s.asked ==> s.chooser.Consul?)
  }

  /** So it is in every state of every run from startup. */
  lemma {:induction false} RunsAreSound(startAsLeader: bool, chooser: Chooser, consulState: Consensus, steps: seq<Step>)
    requires !chooser.RaftRunning? && CanRun(Startup(startAsLeader, chooser, consulState), steps)
    ensures Sound(Trace(Startup(startAsLeader, chooser, consulState), steps))
  {
    if steps != [] {
      RunsAreSound(startAsLeader, chooser, consulState, Front(steps));
    }
  }

  lemma OneStep(s: State, l: Step)
    requires CanStep(s, l)
    ensures CanRun(s, [l]) && Trace(s, [l]) == Next(s, l)
  {
    var none: seq<Step> := [];
    assert Front([l]) == none && CanRun(s, none) && Trace(s, none) == s;
  }

  lemma OneMoreStep(s: State, steps: seq<Step>, l: Step)
    requires CanRun(s, steps) && CanStep(Trace(s, steps), l)
    ensures CanRun(s, steps + [l]) && Trace(s, steps + [l]) == Next(Trace(s, steps), l)
  {
    assert Front(steps + [l]) == steps;
  }

  ghost predicate Has(steps: seq<Step>, kind: Step -> bool) {
    exists i :: 0 <= i < |steps| && kind(steps[i])
  }

  lemma HasStep(steps: seq<Step>, kind: Step -> bool)
    requires steps != []
    ensures Has(steps, kind) <==> Has(Front(steps), kind) || kind(Last(steps))
  {
    assert forall i :: 0 <= i < |steps| - 1 ==> Front(steps)[i] == steps[i];
    assert steps[|steps| - 1] == Last(steps);
  }

  /**
   As configured, so it stays until something comes: without commands consensus is off, or as configured for Consul,
   until Raft starts, and the flag is as configured until a call or an answer stores.
   */
  lemma {:induction false} StartupHolds(startAsLeader: bool, chooser: Chooser, consulState: Consensus, steps: seq<Step>)
    requires CanRun(Startup(startAsLeader, chooser, consulState), steps) && NoCommands(steps)
    ensures
      var t := Trace(Startup(startAsLeader, chooser, consulState), steps);
      && t.pending.None?
      && t.consensus == (if Has(steps, (l: Step) => l.Start?) then Enabled
                         else if chooser == Consul then consulState else Disabled)
      && (!Has(steps, (l: Step) => l.Store? || l.Answer?) ==> t.isLeader == startAsLeader)
      && (chooser == Nobody ==> t == State(Disabled, startAsLeader, None, None, false, Nobody))
  {
    if steps != [] {
      assert !steps[|steps| - 1].Command? && !steps[|steps| - 1].CommandLeader?;
      StartupHolds(startAsLeader, chooser, consulState, Front(steps));
      HasStep(steps, (l: Step) => l.Start?);
      HasStep(steps, (l: Step) => l.Store? || l.Answer?);
    }
  }

  // ---------- while consensus is off ----------

  /** Consensus is not enabled at the start nor after any of the steps. */
  ghost predicate StaysOff(s: State, steps: seq<Step>) {
    Trace(s, steps).consensus != Enabled && (steps != [] ==> StaysOff(s, Front(steps)))
  }

  predicate ByCommand(l: Step) {
    l.CommandLeader? && l.leader != Unchanged
  }

  function Stores(steps: seq<Step>): nat {
    if steps == [] then 0 else Stores(Front(steps)) + if Last(steps).Store? then 1 else 0
  }

  function Answers(steps: seq<Step>): nat {
    if steps == [] then 0 else Answers(Front(steps)) + if Last(steps).Answer? then 1 else 0
  }

  /** How often the flag changes other than by a management command. */
  function Strays(s: State, steps: seq<Step>): nat {
    if steps == [] then 0
    else
      var before := Trace(s, Front(steps));
      var changed := Next(before, Last(steps)).isLeader != before.isLeader;
      Strays(s, Front(steps)) + if changed && !ByCommand(Last(steps)) then 1 else 0
  }

  /**
   While consensus stays off no call becomes armed. The one that was, if there was one, stores at most once,
   and only then can the flag change other than by a command.
   */
  lemma {:induction false} ArmedRunsOut(s: State, steps: seq<Step>)
    requires CanRun(s, steps) && StaysOff(s, steps)
    ensures
      var t := Trace(s, steps);
      && t.armed == (if Stores(steps) == 0 then s.armed else None)
      && Stores(steps) <= (if s.armed.Some? then 1 else 0)
      && Strays(s, steps) <= Stores(steps)
  {
    if steps != [] {
      ArmedRunsOut(s, Front(steps));
    }
  }

  /** With no call armed and consensus off, only management commands change the flag. */
  lemma {:induction false} OnlyCommandsLead(s: State, steps: seq<Step>)
    requires CanRun(s, steps) && StaysOff(s, steps) && s.armed.None?
    ensures Strays(s, steps) == 0
    ensures Trace(s, steps).armed.None?
  {
    ArmedRunsOut(s, steps);
  }

  /** The flag follows the management commands alone. */
  function Commanded(flag: bool, steps: seq<Step>): bool {
    if steps == [] then flag
    else if ByCommand(Last(steps)) then Last(steps).leader == Lead
    else Commanded(flag, Front(steps))
  }

  lemma {:induction false} FlagIsCommanded(s: State, steps: seq<Step>)
    requires CanRun(s, steps) && StaysOff(s, steps) && s.armed.None?
    ensures Trace(s, steps).isLeader == Commanded(s.isLeader, steps)
  {
    if steps != [] {
      OnlyCommandsLead(s, Front(steps));
      FlagIsCommanded(s, Front(steps));
    }
  }

  ghost predicate StaysDisabled(s: State, steps: seq<Step>) {
    Trace(s, steps).consensus == Disabled && (steps != [] ==> StaysDisabled(s, Front(steps)))
  }

  /** While disabled Consul is not asked: only the request that was out can still be answered, once. */
  lemma {:induction false} DisabledStopsAsking(s: State, steps: seq<Step>)
    requires CanRun(s, steps) && StaysDisabled(s, steps)
    ensures Answers(steps) + (if Trace(s, steps).asked then 1 else 0) <= (if s.asked then 1 else 0)
  {
    if steps != [] {
      DisabledStopsAsking(s, Front(steps));
    }
  }

  /**
   What each command leaves running: only enabling or resuming lets an answer through to the flag, and only
   disabling stops the requests for the lock; a pause stops the one and not the other.
   */
  lemma CommandGates(s: State, action: ConsensusAction, leader: LeaderAction, acquired: bool)
    requires s.chooser.Consul? && s.pending.None? && !s.asked
    ensures
      var t := Trace(s, [Command(action, leader), CommandLeader(leader)]);
      && (CanRun(t, [Ask]) <==> action != Disable)
      && (action != Disable ==>
            && CanRun(t, [Ask, Answer(acquired)])
            && (action == Pause ==> Trace(t, [Ask, Answer(acquired)]) == t)
            && (action != Pause ==> Trace(t, [Ask, Answer(acquired)]) == t.(isLeader := acquired)))
  {
    var first := Command(action, leader);
    OneStep(s, first);
    OneMoreStep(s, [first], CommandLeader(leader));
    assert [first] + [CommandLeader(leader)] == [first, CommandLeader(leader)];
    var t := Trace(s, [first, CommandLeader(leader)]);
    var none: seq<Step> := [];
    assert Front([Ask]) == none && CanRun(t, none) && Trace(t, none) == t;
    if action != Disable {
      OneStep(t, Ask);
      OneMoreStep(t, [Ask], Answer(acquired));
      assert [Ask] + [Answer(acquired)] == [Ask, Answer(acquired)];
    }
  }

  // ---------- without Raft everything that counts happens in one thread ----------

  /** The i-th step is a leader action, or an answer that found consensus enabled. */
  ghost predicate Decides(s: State, steps: seq<Step>, i: nat)
    requires i < |steps|
  {
    ByCommand(steps[i]) || (steps[i].Answer? && Trace(s, steps[..i]).consensus == Enabled)
  }

  predicate Decision(l: Step) {
    (l.CommandLeader? && l.leader == Lead) || (l.Answer? && l.acquired)
  }

  ghost predicate LastToDecide(s: State, steps: seq<Step>, i: nat) {
    i < |steps| && Decides(s, steps, i) && forall j :: i < j < |steps| ==> !Decides(s, steps, j)
  }

  /** Where there is no Raft thread, over every run the flag is the last decision, or as it was when nothing decided. */
  lemma {:induction false} FlagIsLastDecision(s: State, steps: seq<Step>)
    requires Sound(s) && CanRun(s, steps) && (s.chooser.Consul? || s.chooser.Nobody?)
    ensures Trace(s, steps).chooser == s.chooser && Trace(s, steps).armed.None?
    ensures forall i: nat :: LastToDecide(s, steps, i) ==> Trace(s, steps).isLeader == Decision(steps[i])
    ensures (forall i: nat :: i < |steps| ==> !Decides(s, steps, i)) ==> Trace(s, steps).isLeader == s.isLeader
  {
    if steps != [] {
      var front, n := Front(steps), |steps| - 1;
      FlagIsLastDecision(s, front);
      forall i: nat | i < n
        ensures Decides(s, front, i) <==> Decides(s, steps, i)
      {
        assert front[..i] == steps[..i];
      }
      assert steps[..n] == front;
      forall i: nat | LastToDecide(s, steps, i)
        ensures Trace(s, steps).isLeader == Decision(steps[i])
      {
        if i < n {
          assert !Decides(s, steps, n);
          assert LastToDecide(s, front, i);
        }
      }
      if forall i: nat :: i < |steps| ==> !Decides(s, steps, i) {
        assert !Decides(s, steps, n);
      }
    }
  }

  // ---------- turning consensus off does not at once stop its influence ----------

  ghost predicate NoCommands(steps: seq<Step>) {
    forall i :: 0 <= i < |steps| ==> !steps[i].Command? && !steps[i].CommandLeader?
  }

  /** A run without management commands that ends with the flag turned over. */
  ghost predicate FlipsAlone(s: State, steps: seq<Step>) {
    CanRun(s, steps) && NoCommands(steps) && Trace(s, steps).isLeader != s.isLeader
  }

  /**
   With consensus off, consensus can still flip the flag if and only if a call armed to the other value is
   left, or Raft has yet to start and will then turn consensus on.
   */
  lemma LateFlipIff(s: State)
    requires Sound(s) && s.consensus != Enabled
    ensures s.armed == Some(!s.isLeader) || s.chooser.RaftWaiting? <==> exists steps :: FlipsAlone(s, steps)
  {
    if s.armed == Some(!s.isLeader) {
      OneStep(s, Store(!s.isLeader));
      assert FlipsAlone(s, [Store(!s.isLeader)]);
    } else if s.chooser.RaftWaiting? {
      var steps := RaftFlips(s);
      assert FlipsAlone(s, steps);
    } else {
      forall steps
        ensures !FlipsAlone(s, steps)
      {
        if CanRun(s, steps) && NoCommands(steps) {
          NoLateFlip(s, steps);
        }
      }
    }
  }

  /** A Raft thread that waits can start, be told the other value and store it. */
  lemma RaftFlips(s: State) returns (steps: seq<Step>)
    requires s.chooser.RaftWaiting? && s.armed.None?
    ensures CanRun(s, steps) && NoCommands(steps)
    ensures Trace(s, steps) == s.(consensus := Enabled, isLeader := !s.isLeader, chooser := RaftRunning)
  {
    OneStep(s, Start);
    OneMoreStep(s, [Start], Notice(!s.isLeader));
    OneMoreStep(s, [Start] + [Notice(!s.isLeader)], Store(!s.isLeader));
    steps := [Start] + [Notice(!s.isLeader)] + [Store(!s.isLeader)];
  }

  lemma {:induction false} NoLateFlip(s: State, steps: seq<Step>)
    requires s.consensus != Enabled && s.armed != Some(!s.isLeader) && !s.chooser.RaftWaiting?
    requires CanRun(s, steps) && NoCommands(steps)
    ensures
      var t := Trace(s, steps);
      && t.consensus == s.consensus && t.isLeader == s.isLeader && t.chooser == s.chooser
      && t.armed != Some(!s.isLeader)
  {
    if steps != [] {
      assert !steps[|steps| - 1].Command? && !steps[|steps| - 1].CommandLeader?;
      NoLateFlip(s, Front(steps));
    }
  }

  // ---------- what a command is worth ----------

  /** The handler is done: the pair is as the command said. */
  predicate AsCommanded(t: State, action: ConsensusAction, flag: bool) {
    t.pending.None? ==> t.consensus == After(action) && t.isLeader == flag
  }

  ghost predicate UntilNextCommand(s: State, steps: seq<Step>) {
    CanRun(s, steps) && forall i :: 0 <= i < |steps| ==> !steps[i].Command?
  }

  /** From the end of its handler to the next command, whatever else happens, the pair is as the command said. */
  ghost predicate Lasts(s: State, action: ConsensusAction, leader: LeaderAction) {
    forall steps :: UntilNextCommand(Next(s, Command(action, leader)), steps) ==>
      AsCommanded(Trace(Next(s, Command(action, leader)), steps), action, Asked(s.isLeader, leader))
  }

  /**
   Exactly when a command lasts. One that turns consensus off: when, as it comes, no call is armed to the other
   value and Raft is not yet to start. One that turns consensus on: when nobody is there to choose.
   */
  predicate WillLast(s: State, action: ConsensusAction, leader: LeaderAction) {
    if After(action) == Enabled then s.chooser.Nobody?
    else s.armed != Some(!Asked(s.isLeader, leader)) && !s.chooser.RaftWaiting?
  }

  lemma CommandLastsIff(s: State, action: ConsensusAction, leader: LeaderAction)
    requires Sound(s) && s.pending.None?
    ensures Lasts(s, action, leader) <==> WillLast(s, action, leader)
  {
    var t, flag := Next(s, Command(action, leader)), Asked(s.isLeader, leader);
    if WillLast(s, action, leader) {
      forall steps | UntilNextCommand(t, steps)
        ensures AsCommanded(Trace(t, steps), action, flag)
      {
        StaysCommanded(s, action, leader, steps);
      }
    } else {
      var steps := Undone(s, action, leader);
      assert UntilNextCommand(t, steps) && !AsCommanded(Trace(t, steps), action, flag);
    }
  }

  lemma {:induction false} StaysCommanded(s: State, action: ConsensusAction, leader: LeaderAction, steps: seq<Step>)
    requires Sound(s) && WillLast(s, action, leader) && UntilNextCommand(Next(s, Command(action, leader)), steps)
    ensures
      var t, flag := Trace(Next(s, Command(action, leader)), steps), Asked(s.isLeader, leader);
      && t.consensus == After(action) && t.chooser == s.chooser && Sound(t)
      && (t.pending == Some(leader) || t.pending.None?)
      && flag == (if t.pending.None? then t.isLeader else Asked(t.isLeader, leader))
      && t.armed != Some(!flag)
  {
    if steps != [] {
      assert !steps[|steps| - 1].Command?;
      StaysCommanded(s, action, leader, Front(steps));
    }
  }

  /** The rest of the handler. */
  lemma Handled(s: State, action: ConsensusAction, leader: LeaderAction)
    requires s.pending.None?
    ensures
      var t := Next(s, Command(action, leader));
      && UntilNextCommand(t, [CommandLeader(leader)])
      && Trace(t, [CommandLeader(leader)]) == s.(consensus := After(action), isLeader := Asked(s.isLeader, leader))
  {
    OneStep(Next(s, Command(action, leader)), CommandLeader(leader));
  }

  lemma Continued(s: State, steps: seq<Step>, l: Step)
    requires UntilNextCommand(s, steps) && CanStep(Trace(s, steps), l) && !l.Command?
    ensures UntilNextCommand(s, steps + [l]) && Trace(s, steps + [l]) == Next(Trace(s, steps), l)
  {
    OneMoreStep(s, steps, l);
  }

  /** Consul answers, asked first when it was not, with the other value. */
  lemma ConsulUndoes(s: State, steps: seq<Step>, other: bool) returns (more: seq<Step>)
    requires UntilNextCommand(s, steps)
    requires
      var t := Trace(s, steps);
      t.chooser.Consul? && t.pending.None? && t.consensus == Enabled
    ensures UntilNextCommand(s, more) && Trace(s, more) == Trace(s, steps).(isLeader := other, asked := false)
  {
    more := steps;
    if !Trace(s, steps).asked {
      Continued(s, steps, Ask);
      more := steps + [Ask];
    }
    Continued(s, more, Answer(other));
    more := more + [Answer(other)];
  }

  /** Raft starts or finishes its call, whichever is left, and is told the other value. */
  lemma RaftUndoes(s: State, steps: seq<Step>, other: bool) returns (more: seq<Step>)
    requires UntilNextCommand(s, steps)
    requires
      var t := Trace(s, steps);
      (t.chooser.RaftRunning? || (t.chooser.RaftWaiting? && t.armed.None?)) && t.pending.None? && t.consensus == Enabled
    ensures UntilNextCommand(s, more) && Trace(s, more).pending.None? && Trace(s, more).isLeader == other
  {
    more := steps;
    var t := Trace(s, steps);
    if t.chooser.RaftWaiting? {
      Continued(s, steps, Start);
      more := steps + [Start];
    } else if t.armed.Some? {
      Continued(s, steps, Store(t.armed.value));
      more := steps + [Store(t.armed.value)];
    }
    Continued(s, more, Notice(other));
    more := more + [Notice(other)];
    Continued(s, more, Store(other));
    more := more + [Store(other)];
  }

  /** The rest of the handler and then a run of the chooser that undoes the command. */
  lemma Undone(s: State, action: ConsensusAction, leader: LeaderAction) returns (steps: seq<Step>)
    requires Sound(s) && s.pending.None? && !WillLast(s, action, leader)
    ensures UntilNextCommand(Next(s, Command(action, leader)), steps)
    ensures !AsCommanded(Trace(Next(s, Command(action, leader)), steps), action, Asked(s.isLeader, leader))
  {
    var t, other := Next(s, Command(action, leader)), !Asked(s.isLeader, leader);
    Handled(s, action, leader);
    steps := [CommandLeader(leader)];
    if After(action) != Enabled {
      var l := if s.armed == Some(other) then Store(other) else Start;
      Continued(t, steps, l);
      steps := steps + [l];
    } else if s.chooser.Consul? {
      steps := ConsulUndoes(t, steps, other);
    } else {
      steps := RaftUndoes(t, steps, other);
    }
  }

  /**
   A run from startup in which a command does not last: Raft has a call past its check when the command comes,
   and the node ends up leading with consensus disabled though it was told to follow.
   */
  lemma RaftOvertakesCommand()
    ensures
      var s := Startup(false, RaftWaiting, Disabled);
      var steps := [Start, Notice(true), Command(Disable, Follow), CommandLeader(Follow), Store(true)];
      && CanRun(s, steps)
      && Trace(s, steps) == State(Disabled, true, None, None, false, RaftRunning)
  {
    var s := Startup(false, RaftWaiting, Disabled);
    OneStep(s, Start);
    OneMoreStep(s, [Start], Notice(true));
    OneMoreStep(s, [Start] + [Notice(true)], Command(Disable, Follow));
    OneMoreStep(s, [Start] + [Notice(true)] + [Command(Disable, Follow)], CommandLeader(Follow));
    OneMoreStep(s, [Start] + [Notice(true)] + [Command(Disable, Follow)] + [CommandLeader(Follow)], Store(true));
    assert [Start] + [Notice(true)] + [Command(Disable, Follow)] + [CommandLeader(Follow)] + [Store(true)]
        == [Start, Notice(true), Command(Disable, Follow), CommandLeader(Follow), Store(true)];
  }

  // ---------- following Raft ----------

  datatype RaftState = Follower | Candidate | Leader

  /** A notification is worth a switch only when leadership is gained or lost. */
  predicate Crosses(was: RaftState, now: RaftState) {
    (was == Leader) != (now == Leader)
  }

  /** A notification, run to its end: the flag after it, when consensus was enabled or not at its check. */
  function Notified(flag: bool, enabled: bool, was: RaftState, now: RaftState): bool {
    if was == now then flag
    else if now == Leader then (if enabled then true else flag)
    else if was == Leader then (if enabled then false else flag)
    else flag
  }

  /** A chain of Raft states notified one by one, with the consensus gate at each. */
  function Followed(flag: bool, chain: seq<RaftState>, gates: seq<bool>): bool
    requires |chain| == |gates| + 1
  {
    if gates == [] then flag
    else Notified(Followed(flag, Front(chain), Front(gates)), Last(gates), chain[|chain| - 2], Last(chain))
  }

  /** The crossings missed since the last one that was let through. */
  function Missed(chain: seq<RaftState>, gates: seq<bool>): nat
    requires |chain| == |gates| + 1
  {
    if gates == [] then 0
    else if !Crosses(chain[|chain| - 2], Last(chain)) then Missed(Front(chain), Front(gates))
    else if Last(gates) then 0
    else Missed(Front(chain), Front(gates)) + 1
  }

  predicate LetThrough(chain: seq<RaftState>, gates: seq<bool>)
    requires |chain| == |gates| + 1
  {
    exists i :: 0 <= i < |gates| && gates[i] && Crosses(chain[i], chain[i + 1])
  }

  /**
   For every chain of notifications and every pattern of pauses: the flag tells the Raft state exactly when
   an even number of crossings was missed since the last one let through, or, when none was let through,
   when that parity agrees with whether it told the truth at the start.
   */
  lemma {:induction false} FlagTracksRaft(flag: bool, chain: seq<RaftState>, gates: seq<bool>)
    requires |chain| == |gates| + 1
    ensures
      (Followed(flag, chain, gates) == (Last(chain) == Leader))
        <==> (Missed(chain, gates) % 2 == 0) == (LetThrough(chain, gates) || flag == (chain[0] == Leader))
  {
    if gates != [] {
      FlagTracksRaft(flag, Front(chain), Front(gates));
      LetThroughStep(chain, gates);
    }
  }

  lemma LetThroughStep(chain: seq<RaftState>, gates: seq<bool>)
    requires |chain| == |gates| + 1 && gates != []
    ensures LetThrough(chain, gates) <==>
      LetThrough(Front(chain), Front(gates)) || (Last(gates) && Crosses(chain[|chain| - 2], Last(chain)))
  {
    var n := |gates| - 1;
    assert gates[n] == Last(gates) && chain[n] == chain[|chain| - 2] && chain[n + 1] == Last(chain);
    if LetThrough(Front(chain), Front(gates)) {
      var i :| 0 <= i < |Front(gates)| && Front(gates)[i] && Crosses(Front(chain)[i], Front(chain)[i + 1]);
      assert gates[i] && Crosses(chain[i], chain[i + 1]);
    }
    if LetThrough(chain, gates) {
      var i :| 0 <= i < |gates| && gates[i] && Crosses(chain[i], chain[i + 1]);
      if i < n {
        assert Front(gates)[i] && Crosses(Front(chain)[i], Front(chain)[i + 1]);
      }
    }
  }

  /** Never paused: right from the first crossing on, and before it exactly when the flag was right at the start. */
  lemma {:induction false} AlwaysEnabledTracks(flag: bool, chain: seq<RaftState>, gates: seq<bool>)
    requires |chain| == |gates| + 1 && forall i :: 0 <= i < |gates| ==> gates[i]
    ensures Followed(flag, chain, gates) == (Last(chain) == Leader) <==>
      flag == (chain[0] == Leader) || exists i :: 0 <= i < |gates| && Crosses(chain[i], chain[i + 1])
  {
    NothingMissed(chain, gates);
    FlagTracksRaft(flag, chain, gates);
    assert LetThrough(chain, gates) <==> exists i :: 0 <= i < |gates| && Crosses(chain[i], chain[i + 1]);
  }

  lemma {:induction false} NothingMissed(chain: seq<RaftState>, gates: seq<bool>)
    requires |chain| == |gates| + 1 && forall i :: 0 <= i < |gates| ==> gates[i]
    ensures Missed(chain, gates) == 0
  {
    if gates != [] {
      NothingMissed(Front(chain), Front(gates));
    }
  }

  /** With nothing in between, a notification that crosses is a check and, when that lets it through, a store. */
  lemma NotificationIsSwitch(s: State, was: RaftState, now: RaftState)
    requires s.chooser.RaftRunning? && s.armed.None? && Crosses(was, now)
    ensures
      var acquired := now == Leader;
      var steps := if s.consensus == Enabled then [Notice(acquired), Store(acquired)] else [Notice(acquired)];
      && CanRun(s, steps)
      && Trace(s, steps) == s.(isLeader := Notified(s.isLeader, s.consensus == Enabled, was, now))
  {
    var acquired := now == Leader;
    OneStep(s, Notice(acquired));
    if s.consensus == Enabled {
      OneMoreStep(s, [Notice(acquired)], Store(acquired));
      assert [Notice(acquired)] + [Store(acquired)] == [Notice(acquired), Store(acquired)];
    }
  }

  // ---------- following Raft while commands come and go ----------

  /** The flag once the call that is under way has stored. */
  function Effective(s: State): bool {
    if s.armed.Some? then s.armed.value else s.isLeader
  }

  /** What Raft notified of, in order, and whether each notification found consensus enabled. */
  function Notices(steps: seq<Step>): seq<bool> {
    if steps == [] then []
    else Notices(Front(steps)) + if Last(steps).Notice? then [Last(steps).acquired] else []
  }

  function Gates(s: State, steps: seq<Step>): seq<bool> {
    if steps == [] then []
    else
      var enabled := Trace(s, Front(steps)).consensus == Enabled;
      Gates(s, Front(steps)) + if Last(steps).Notice? then [enabled] else []
  }

  /** No command touches the flag. */
  ghost predicate FlagUntouched(steps: seq<Step>) {
    forall i :: 0 <= i < |steps| ==> !ByCommand(steps[i])
  }

  /** A chain of Raft states that gains or loses leadership at each step, and the notifications of it. */
  ghost predicate Notifies(chain: seq<RaftState>, notices: seq<bool>) {
    && |chain| == |notices| + 1
    && forall i :: 0 <= i < |notices| ==> Crosses(chain[i], chain[i + 1]) && notices[i] == (chain[i + 1] == Leader)
  }

  lemma {:induction false} OneGateEach(s: State, steps: seq<Step>)
    ensures |Gates(s, steps)| == |Notices(steps)|
  {
    if steps != [] {
      OneGateEach(s, Front(steps));
    }
  }

  /** Where Consul has no part, only a notification let through or a command changes what the flag will be. */
  lemma EffectiveStep(s: State, l: Step)
    requires Sound(s) && !s.chooser.Consul? && CanStep(s, l) && !ByCommand(l)
    ensures Sound(Next(s, l)) && !Next(s, l).chooser.Consul?
    ensures Effective(Next(s, l)) == if l.Notice? && s.consensus == Enabled then l.acquired else Effective(s)
  {
  }

  lemma FollowsOneMore(flag: bool, chain: seq<RaftState>, gates: seq<bool>)
    requires |chain| == |gates| + 1 && gates != [] && Crosses(chain[|chain| - 2], Last(chain))
    ensures Followed(flag, chain, gates)
         == if Last(gates) then Last(chain) == Leader else Followed(flag, Front(chain), Front(gates))
  {
  }

  /**
   Over every run of the two threads in which no command touches the flag, whatever commands do to the consensus
   state between and inside the calls, the flag is what following the chain call by call gives.
   */
  lemma {:induction false} RunFollows(s: State, steps: seq<Step>, chain: seq<RaftState>)
    requires Sound(s) && !s.chooser.Consul?
    requires CanRun(s, steps) && FlagUntouched(steps) && Notifies(chain, Notices(steps))
    ensures |Gates(s, steps)| == |Notices(steps)|
    ensures Effective(Trace(s, steps)) == Followed(Effective(s), chain, Gates(s, steps))
    ensures Sound(Trace(s, steps)) && !Trace(s, steps).chooser.Consul?
  {
    OneGateEach(s, steps);
    if steps != [] {
      var front, l := Front(steps), Last(steps);
      assert !ByCommand(steps[|steps| - 1]);
      if l.Notice? {
        assert Notices(front) == Front(Notices(steps)) && Gates(s, front) == Front(Gates(s, steps));
        var n := |Notices(front)|;
        assert Crosses(chain[n], chain[n + 1]) && Notices(steps)[n] == l.acquired;
        RunFollows(s, front, Front(chain));
        FollowsOneMore(Effective(s), chain, Gates(s, steps));
      } else {
        assert Notices(front) == Notices(steps) && Gates(s, front) == Gates(s, steps);
        RunFollows(s, front, chain);
      }
      EffectiveStep(Trace(s, front), l);
    }
  }

  /**
   So over every such run, once no call is under way, the flag tells the Raft state exactly when an even number of
   crossings was missed since the last one let through, or, when none was, when that parity agrees with the start.
   */
  lemma RunTracksRaft(s: State, steps: seq<Step>, chain: seq<RaftState>)
    requires Sound(s) && !s.chooser.Consul?
    requires CanRun(s, steps) && FlagUntouched(steps) && Notifies(chain, Notices(steps)) && Trace(s, steps).armed.None?
    ensures
      var gates := Gates(s, steps);
      && |chain| == |gates| + 1
      && ((Trace(s, steps).isLeader == (Last(chain) == Leader)) <==>
            ((Missed(chain, gates) % 2 == 0) == (LetThrough(chain, gates) || Effective(s) == (chain[0] == Leader))))
  {
    RunFollows(s, steps, chain);
    FlagTracksRaft(Effective(s), chain, Gates(s, steps));
  }

  // ---------- the calls as they run when nothing comes between ----------

  class Cells {
    var consensus: Consensus
    var isLeader: bool

    /** The two cells as a state between calls. */
    ghost function Between(): State
      reads this
    {
      State(consensus, isLeader, None, None, false, RaftRunning)
    }

    constructor (startAsLeader: bool)
      ensures consensus == Disabled && isLeader == startAsLeader
    {
      consensus, isLeader := Disabled, startAsLeader;
    }

    method SwitchLeader(acquired: bool)
      modifies this`isLeader
      ensures isLeader == if consensus == Enabled then acquired else old(isLeader)
    {
      var shouldSet := consensus == Enabled;
      if shouldSet {
        isLeader := acquired;
      }
    }

    method StateChanged(was: RaftState, now: RaftState)
      modifies this`isLeader
      ensures isLeader == Notified(old(isLeader), consensus == Enabled, was, now)
    {
      if was != now {
        if now == Leader {
          SwitchLeader(true);
        } else if was == Leader {
          SwitchLeader(false);
        }
      }
    }

    /**
     The handler's two writes, in its order. Undisturbed they are the two steps of a command, so what lasts of
     them is for `CommandLastsIff` to say.
     */
    method PostConsensus(action: ConsensusAction, leader: LeaderAction)
      modifies this
      ensures CanRun(old(Between()), [Command(action, leader), CommandLeader(leader)])
      ensures Between() == Trace(old(Between()), [Command(action, leader), CommandLeader(leader)])
      ensures AsCommanded(Between(), action, Asked(old(isLeader), leader))
      ensures Lasts(old(Between()), action, leader) <==> After(action) != Enabled
    {
      ghost var s := Between();
      CommandLastsIff(s, action, leader);
      OneStep(s, Command(action, leader));
      OneMoreStep(s, [Command(action, leader)], CommandLeader(leader));
      assert [Command(action, leader)] + [CommandLeader(leader)] == [Command(action, leader), CommandLeader(leader)];
      consensus := After(action);
      match leader
      case Lead => isLeader := true;
      case Follow => isLeader := false;
      case Unchanged =>
    }

    /** A chain of notifications; between any two the consensus state may be changed. */
    method FollowRaft(chain: seq<RaftState>, gates: seq<bool>)
      requires |chain| == |gates| + 1
      modifies this
      ensures isLeader == Followed(old(isLeader), chain, gates)
    {
      var i := 0;
      while i < |gates|
        invariant 0 <= i <= |gates|
        invariant isLeader == Followed(old(isLeader), chain[..i + 1], gates[..i])
      {
        consensus := if gates[i] then Enabled else Paused;
        StateChanged(chain[i], chain[i + 1]);
        assert Front(chain[..i + 2]) == chain[..i + 1] && Front(gates[..i + 1]) == gates[..i];
        i := i + 1;
      }
      assert chain[..|gates| + 1] == chain && gates[..|gates|] == gates;
    }
  }
}
