/**
 Reading command lines late changes nothing but what they say. A collector whose reads fail any
 number of times delivers the same messages, in the same order, as one that reads every command
 line the moment its program starts.
 */
module Refinement {
  import opened Basics
  import opened Messages
  import opened Ordering
  import opened CollectorModel
  import opened FileView
  import opened DeliveryOrder
  import opened Ledger
  import opened Fragments

  // ---- The instant reader ----

  /** Answers that are always ready and always about the program that just started. */
  function Readily(image: Word): nat -> Answer {
    n => Answered(Inspection(0, [], [], image))
  }

  function Instantly(input: Input): Input {
    match input
    case Seen(r, env) => Seen(r, Env(Readily(r.args[2]), env.present))
    case Ticked(env) => input
  }

  function Instant(inputs: seq<Input>): (instant: seq<Input>)
    ensures |instant| == |inputs|
    ensures forall i | 0 <= i < |inputs| :: instant[i] == Instantly(inputs[i])
  {
    if inputs == [] then [] else Instant(inputs[..|inputs| - 1]) + [Instantly(inputs[|inputs| - 1])]
  }

  lemma InstantPrefix(inputs: seq<Input>, n: nat)
    requires n <= |inputs|
    ensures Instant(inputs[..n]) == Instant(inputs)[..n]
  {
  }

  // ---- What a run must keep to ----

  predicate IsHeld(exits: seq<HeldExit>, pid: Pid) {
    exists e :: e in exits && e.pid == pid
  }

  /** No process acts, and no pid is forked again, between an exit and that exit's delivery. */
  predicate Quiet(s: State, r: Record) {
    && (r.thread in s.threads ==> !IsHeld(s.heldExits, s.threads[r.thread]))
    && (r.Code() == NEWTHREAD && IsFollowedThread(s, r.thread) && s.threads[r.thread] != AsI32(r.args[1])
        ==> !IsHeld(s.heldExits, AsI32(r.args[1])))
  }

  predicate QuietInput(s: State, input: Input) {
    input.Seen? ==> s.latest < input.record.timestamp && Quiet(s, input.record)
  }

  /** Timestamps increase strictly, and every record is quiet in the state it meets. */
  predicate QuietRun(s: State, inputs: seq<Input>) {
    inputs == [] ||
    (var n := |inputs| - 1;
     QuietRun(s, inputs[..n]) && QuietInput(Run(s, inputs[..n]).state, inputs[n]))
  }

  // ---- The simulation ----

  /** The processes that end when their held exits are believed. */
  function Ending(exits: seq<HeldExit>, root: Pid): set<Pid> {
    PidsOf(exits) - {root}
  }

  /**
   `i` is where an instant reader is when a delayed one is at `d`: it waits for nothing, has ended
   the processes whose exits `d` holds, and agrees on all else but the names it used.
   */
  predicate Matches(d: State, i: State) {
    && i.heldExits == [] && i.argvRetries == [] && i.queued == []
    && i.processes == d.processes - Ending(d.heldExits, d.root)
    && SameTrace(d, i)
  }

  predicate SameTrace(d: State, i: State) {
    && i.root == d.root && i.window == d.window && i.fileEvents == d.fileEvents
    && i.threads == d.threads && i.lookups == d.lookups && i.calls == d.calls
    && i.vnodePaths == d.vnodePaths && i.newTasks == d.newTasks && i.replaced == d.replaced
    && i.rootCommand == d.rootCommand && i.latest == d.latest && i.created == d.created
    && i.heldOpens == d.heldOpens && i.dropped == d.dropped && i.started == d.started
  }

  lemma {:induction false} PidsOfMember(exits: seq<HeldExit>, pid: Pid)
    ensures pid in PidsOf(exits) <==> exists e :: e in exits && e.pid == pid
  {
    if exits != [] {
      var n := |exits| - 1;
      PidsOfMember(exits[..n], pid);
      assert exits == exits[..n] + [exits[n]];
      if pid == exits[n].pid {
        assert exits[n] in exits;
      }
      if e :| e in exits[..n] && e.pid == pid {
        assert e in exits;
      }
    }
  }

  lemma BelievePids(exits: seq<HeldExit>, pending: seq<Pending>)
    ensures PidsOf(exits) == PidsOf(Waiting(exits, pending)) + PidsOf(Believable(exits, pending))
  {
    forall pid ensures pid in PidsOf(exits)
                   <==> pid in PidsOf(Waiting(exits, pending)) + PidsOf(Believable(exits, pending)) {
      PidsOfMember(exits, pid);
      PidsOfMember(Waiting(exits, pending), pid);
      PidsOfMember(Believable(exits, pending), pid);
      WaitingFrom(exits, pending);
      forall e | e in exits ensures e in Waiting(exits, pending) || e in Believable(exits, pending) {
        WaitingOrBelievable(exits, pending, e);
      }
    }
  }

  lemma {:induction false} WaitingOrBelievable(exits: seq<HeldExit>, pending: seq<Pending>, e: HeldExit)
    requires e in exits
    ensures e in Waiting(exits, pending) || e in Believable(exits, pending)
  {
    if e != exits[0] {
      WaitingOrBelievable(exits[1..], pending, e);
    }
  }

  lemma WithoutPidPids(exits: seq<HeldExit>, pid: Pid)
    requires !IsHeld(exits, pid)
    ensures WithoutPid(exits, pid) == exits && OfPid(exits, pid) == []
  {
    if exits != [] {
      assert exits[0] in exits;
      WithoutPidPids(exits[1..], pid);
    }
  }

  /** Taking the settled view commutes with a change to a process that is not held. */
  lemma MinusSet<V>(m: map<Pid, V>, gone: set<Pid>, pid: Pid, v: V)
    requires pid !in gone
    ensures m[pid := v] - gone == (m - gone)[pid := v]
  {
  }

  /** Believing exits ends exactly the processes that stop being counted as ending. */
  lemma BelieveEnds(d: State)
    ensures var t := BelieveExits(d).state;
            && t.processes - Ending(t.heldExits, t.root) == d.processes - Ending(d.heldExits, d.root)
            && t == d.(processes := t.processes, names := t.names, heldExits := t.heldExits)
  {
    BelievePids(d.heldExits, d.argvRetries);
    var gone, kept := PidsOf(Believable(d.heldExits, d.argvRetries)), PidsOf(Waiting(d.heldExits, d.argvRetries));
    MinusBoth(d.processes, gone - {d.root}, kept - {d.root});
    assert (gone + kept) - {d.root} == (gone - {d.root}) + (kept - {d.root});
  }

  lemma MinusBoth<V>(m: map<Pid, V>, a: set<Pid>, b: set<Pid>)
    ensures (m - a) - b == m - (a + b) && (m - a) - b == (m - b) - a
  {
  }

  // ---- One record ----

  lemma NotHeld(exits: seq<HeldExit>, pid: Pid)
    requires !IsHeld(exits, pid)
    ensures pid !in PidsOf(exits)
  {
    PidsOfMember(exits, pid);
  }

  lemma FactsMatch(d: State, i: State, r: Record, env: Env)
    requires Matches(d, i) && Quiet(d, r)
    ensures Facts(d, r, env) == Facts(i, r, Instantly(Seen(r, env)).env)
    ensures Cancelled(d, r) == []
  {
    hide SyscallStep, OfPid;
    if r.thread in d.threads {
      var pid := d.threads[r.thread];
      NotHeld(d.heldExits, pid);
      SyscallEnv(d, pid, r, env, Instantly(Seen(r, env)).env);
      SyscallSame(d, i, pid, r, Instantly(Seen(r, env)).env);
    }
    if Cancelled(d, r) == OfPid(d.heldExits, AsI32(r.args[1])) && Quiet(d, r) && IsFollowedThread(d, r.thread)
       && r.Code() == NEWTHREAD && d.threads[r.thread] != AsI32(r.args[1]) {
      WithoutPidPids(d.heldExits, AsI32(r.args[1]));
    }
  }

  /** A system call asks the file system alone. */
  lemma SyscallEnv(s: State, pid: Pid, r: Record, a: Env, b: Env)
    requires a.present == b.present
    ensures SyscallStep(s, pid, r, a) == SyscallStep(s, pid, r, b)
  {
    hide FinishCall;
    if !r.IsStart() && r.IsEnd() && r.thread in s.calls {
      FinishEnv(s.(calls := s.calls - {r.thread}), pid, r.timestamp, s.calls[r.thread], r.args[1], a, b);
    }
  }

  lemma FinishEnv(s: State, pid: Pid, time: nat, call: Call, returned: Word, a: Env, b: Env)
    requires a.present == b.present
    ensures FinishCall(s, pid, time, call, returned, a) == FinishCall(s, pid, time, call, returned, b)
  {
    hide OpenPlaced, OpenUnplaced, FinishFchdir, FinishClose, Duplicate, FinishFcntl, IsOpen, IsRename, IsClose,
         IsFcntl, SetProcess, Resolve, Confirms, LinuxOpenFlags, HasFlag, AsI32;
    forall vnode, raw, directory, creating
      ensures Resolve(s, pid, vnode, raw, directory, creating, a) == Resolve(s, pid, vnode, raw, directory, creating, b)
    {
      ResolveEnv(s, pid, vnode, raw, directory, creating, a, b);
    }
    forall path, creating ensures Confirms(s, path, creating, a) == Confirms(s, path, creating, b) {
      ConfirmsEnv(s, path, creating, a, b);
    }
  }

  lemma ConfirmsEnv(s: State, path: Text, creating: bool, a: Env, b: Env)
    requires a.present == b.present
    ensures Confirms(s, path, creating, a) == Confirms(s, path, creating, b)
  {
  }

  lemma ResolveEnv(s: State, pid: Pid, vnode: Word, raw: Text, directory: Option<Word>, creating: bool, a: Env, b: Env)
    requires a.present == b.present
    ensures Resolve(s, pid, vnode, raw, directory, creating, a) == Resolve(s, pid, vnode, raw, directory, creating, b)
  {
  }

  lemma SyscallMatches(d: State, i: State, pid: Pid, r: Record, env: Env)
    requires Matches(d, i) && pid !in PidsOf(d.heldExits)
    ensures Matches(SyscallStep(d, pid, r, env).state, SyscallStep(i, pid, r, env).state)
  {
    hide SyscallStep;
    SyscallSame(d, i, pid, r, env);
    SyscallSame(i, d, pid, r, env);
    var a, b := SyscallStep(d, pid, r, env).state, SyscallStep(i, pid, r, env).state;
    assert b.processes == a.processes - Ending(d.heldExits, d.root) by {
      forall q | q in b.processes
        ensures q in a.processes && q !in Ending(d.heldExits, d.root) && a.processes[q] == b.processes[q]
      {
        if q == pid {
          assert Get(a.processes, pid) == Get(b.processes, pid);
        }
      }
    }
  }

  lemma NewThreadMatches(d: State, i: State, r: Record)
    requires Matches(d, i) && r.Code() == NEWTHREAD && Quiet(d, r)
    ensures Matches(NewThread(d, r).state, NewThread(i, r).state)
  {
    hide StartProcess, Ending, RegisterThread, IsHeld, PidsOf;
    var pid := AsI32(r.args[1]);
    var parent := Get(d.threads, r.thread);
    RegisterMatches(d, i, r);
    if parent.Some? && parent.value != pid {
      NotHeld(d.heldExits, parent.value);
      if parent.value in d.processes {
        assert IsFollowedThread(d, r.thread);
        NotHeld(d.heldExits, pid);
        WithoutPidPids(d.heldExits, pid);
      }
      StartProcessMatches(RegisterThread(d, r), RegisterThread(i, r), parent.value, pid, r.timestamp);
    }
  }

  lemma RegisterMatches(d: State, i: State, r: Record)
    requires Matches(d, i)
    ensures Matches(RegisterThread(d, r), RegisterThread(i, r))
    ensures RegisterThread(d, r).processes == d.processes && RegisterThread(d, r).heldExits == d.heldExits
  {
    hide Ending;
  }

  lemma StartProcessMatches(d: State, i: State, parent: Pid, pid: Pid, time: nat)
    requires Matches(d, i) && parent !in PidsOf(d.heldExits)
    requires parent in d.processes ==> pid !in PidsOf(d.heldExits) && WithoutPid(d.heldExits, pid) == d.heldExits
    ensures Matches(StartProcess(d, parent, pid, time).state, StartProcess(i, parent, pid, time).state)
  {
    hide PidsOf, WithoutPid;
    assert WithoutPid([], pid) == [] by { NoneWithoutPid(pid); }
    if parent in d.processes {
      MinusSet(d.processes, Ending(d.heldExits, d.root), pid, d.processes[parent]);
      assert i.processes[parent] == d.processes[parent];
    } else {
      MinusBoth(d.processes, {pid}, Ending(d.heldExits, d.root));
    }
  }

  lemma NoneWithoutPid(pid: Pid)
    ensures WithoutPid([], pid) == []
  {
  }

  lemma ExecMatches(d: State, i: State, pid: Pid, time: nat, image: Word, env: Env)
    requires Matches(d, i) && pid !in PidsOf(d.heldExits)
    ensures Matches(ExecStep(d, pid, time, image, env).state,
                    ExecStep(i, pid, time, image, Env(Readily(image), env.present)).state)
  {
    hide SettleEarlier, StartProgram, CloseOnExec;
    var d1, i1 := CloseOnExec(d, pid), CloseOnExec(i, pid);
    CloseOnExecMatches(d, i, pid);
    SettleEarlierMatches(d1, i1, pid);
    StartMatches(SettleEarlier(d1, pid).state, SettleEarlier(i1, pid).state, pid, time, image, env.inspect(pid));
  }

  lemma CloseOnExecMatches(d: State, i: State, pid: Pid)
    requires Matches(d, i) && pid !in PidsOf(d.heldExits)
    ensures Matches(CloseOnExec(d, pid), CloseOnExec(i, pid))
  {
    hide KeptOnExec;
    if pid in d.processes {
      MinusSet(d.processes, Ending(d.heldExits, d.root), pid, CloseOnExec(d, pid).processes[pid]);
    }
  }

  lemma SettleEarlierMatches(d: State, i: State, pid: Pid)
    requires Matches(d, i)
    ensures Matches(SettleEarlier(d, pid).state, SettleEarlier(i, pid).state)
  {
    hide Settled, Ending;
  }

  lemma StartMatches(d: State, i: State, pid: Pid, time: nat, image: Word, answer: Answer)
    requires Matches(d, i)
    ensures Matches(StartProgram(d, pid, time, image, answer).state,
                    StartProgram(i, pid, time, image, Readily(image)(0)).state)
  {
    hide ExecMessage, Ending;
  }

  lemma ExitMatches(d: State, i: State, pid: Pid, r: Record)
    requires Matches(d, i) && pid !in PidsOf(d.heldExits)
    ensures Matches(ProcExit(d, pid, r).state, ProcExit(i, pid, r).state)
  {
    hide BelieveExits, Ending;
    if r.thread !in d.replaced && r.thread !in d.newTasks {
      var exit := HeldExit(pid, r.timestamp, AsI32(r.args[1]));
      var d1, i1 := d.(heldExits := d.heldExits + [exit]), i.(heldExits := [exit]);
      assert i.heldExits + [exit] == [exit];
      BelieveEnds(d1);
      BelieveEnds(i1);
      BelieveAlone(i1, exit);
      OneMoreEnding(d.heldExits, exit, d.root);
      MinusBoth(d.processes, Ending(d.heldExits, d.root), Ending([exit], d.root));
      NothingEnding(BelieveExits(i1).state.processes, d.root);
    }
  }

  lemma NothingEnding<V>(m: map<Pid, V>, root: Pid)
    ensures m - Ending([], root) == m
  {
  }

  lemma OneMoreEnding(exits: seq<HeldExit>, exit: HeldExit, root: Pid)
    ensures Ending(exits + [exit], root) == Ending(exits, root) + Ending([exit], root)
  {
    assert (exits + [exit])[..|exits|] == exits;
    assert [exit][..0] == [];
    assert PidsOf([exit]) == PidsOf([]) + {exit.pid};
  }

  /** With nothing unread, an exit is believed at once. */
  lemma BelieveAlone(i: State, exit: HeldExit)
    requires i.argvRetries == [] && i.heldExits == [exit]
    ensures BelieveExits(i).state.heldExits == []
  {
    assert [exit][1..] == [];
    assert !HasPending([], exit.pid);
    assert Waiting([exit], []) == [] + Waiting([exit][1..], []);
  }

  lemma ProcessStepMatches(d: State, i: State, pid: Pid, r: Record, env: Env)
    requires Matches(d, i) && pid !in PidsOf(d.heldExits)
    ensures Matches(ProcessStep(d, pid, r, env).state,
                    ProcessStep(i, pid, r, Env(Readily(r.args[2]), env.present)).state)
  {
    hide ExecStep, ProcExit, SyscallStep, LookupStep, Ending, ReplaceAsker, NameProgram;
    var env' := Env(Readily(r.args[2]), env.present);
    if r.Code() == STRING_EXEC {
      NameMatches(d, i, pid, r.args);
    } else if r.Code() == DATA_EXEC {
      ReplaceMatches(d, i, r.thread);
      ExecMatches(ReplaceAsker(d, r.thread), ReplaceAsker(i, r.thread), pid, r.timestamp, r.args[2], env);
    } else if r.Code() == PROC_EXIT && r.IsEnd() {
      ExitMatches(d, i, pid, r);
    } else if r.Code() == VFS_LOOKUP {
      LookupMatches(d, i, r);
    } else {
      SyscallEnv(d, pid, r, env, env');
      SyscallMatches(d, i, pid, r, env');
    }
  }

  lemma NameMatches(d: State, i: State, pid: Pid, args: Args)
    requires Matches(d, i)
    ensures Matches(NameProgram(d, pid, args), NameProgram(i, pid, args))
  {
    hide Ending;
  }

  lemma ReplaceMatches(d: State, i: State, thread: Tid)
    requires Matches(d, i)
    ensures Matches(ReplaceAsker(d, thread), ReplaceAsker(i, thread))
    ensures ReplaceAsker(d, thread).heldExits == d.heldExits
  {
    hide Ending;
  }

  lemma LookupMatches(d: State, i: State, r: Record)
    requires Matches(d, i)
    ensures Matches(LookupStep(d, r), LookupStep(i, r))
  {
    hide Ending, Gather, FinishLookup;
    var entry := Gather(LookupOf(d, r.thread), r);
    FinishLookupMatches(d, i, r.thread, entry.vnode, Decoded(entry.words));
  }

  lemma FinishLookupMatches(d: State, i: State, thread: Tid, vnode: Word, path: Text)
    requires Matches(d, i)
    ensures Matches(FinishLookup(d, thread, vnode, path), FinishLookup(i, thread, vnode, path))
  {
    hide Ending;
  }

  lemma NoticedMatches(d: State, i: State, r: Record)
    requires Matches(d, i) && Quiet(d, r)
    ensures Matches(Noticed(d, r), Noticed(i, r)) && Quiet(Noticed(d, r), r)
    ensures IsFollowedThread(Noticed(d, r), r.thread) == IsFollowedThread(Noticed(i, r), r.thread)
    ensures Noticed(d, r).threads == Noticed(i, r).threads
    ensures r.thread in Noticed(d, r).threads ==> Noticed(d, r).threads[r.thread] !in PidsOf(Noticed(d, r).heldExits)
  {
    hide Ending, IsHeld, PidsOf;
    if r.thread in d.threads {
      NotHeld(d.heldExits, d.threads[r.thread]);
      SameFollowed(d, i, d.threads[r.thread]);
    }
  }

  lemma InterpretMatches(d: State, i: State, r: Record, env: Env)
    requires Matches(d, i) && Quiet(d, r)
    ensures Matches(Interpret(d, r, env).state, Interpret(i, r, Instantly(Seen(r, env)).env).state)
  {
    hide ProcessStep, NewThread, Quiet, Noticed, Ending, PidsOf;
    NoticedMatches(d, i, r);
    var d1, i1 := Noticed(d, r), Noticed(i, r);
    if r.Code() == NEWTHREAD {
      NewThreadMatches(d1, i1, r);
    } else if r.Code() != LOST_EVENTS && IsFollowedThread(d1, r.thread) {
      ProcessStepMatches(d1, i1, d1.threads[r.thread], r, env);
    }
  }

  lemma SameFollowed(d: State, i: State, pid: Pid)
    requires Matches(d, i) && pid !in PidsOf(d.heldExits)
    ensures pid in d.processes <==> pid in i.processes
  {
  }

  lemma ObserveMatches(d: State, i: State, r: Record, env: Env)
    requires Matches(d, i) && Quiet(d, r)
    ensures Matches(Observe(d, r, env).state, Observe(i, r, Instantly(Seen(r, env)).env).state)
  {
    hide Interpret, SortByTime, ReadyCount, Ending;
    InterpretMatches(Dequeued(d), Dequeued(i), r, env);
  }

  lemma TickMatches(d: State, i: State, env: Env)
    requires Matches(d, i)
    ensures Matches(Tick(d, env).state, Tick(i, env).state)
  {
    hide RetryList, BelieveExits, SortByTime, ReadyCount, Ending;
    var d1 := RetryCommandLines(Dequeued(d), env, false).state;
    BelieveEnds(d1);
    InstantTick(i, env);
  }

  lemma InstantTick(i: State, env: Env)
    requires i.argvRetries == [] && i.heldExits == [] && i.queued == []
    ensures SameTrace(Tick(i, env).state, i) && Tick(i, env).state.processes == i.processes
    ensures IsNew(Tick(i, env).state.(heldOpens := []))
  {
    hide SortByTime;
    assert Believable([], []) == [] && Waiting([], []) == [];
  }

  // ---- Runs ----

  lemma {:induction false} RunMatches(d: State, i: State, inputs: seq<Input>)
    requires Matches(d, i) && QuietRun(d, inputs)
    ensures Matches(Run(d, inputs).state, Run(i, Instant(inputs)).state)
    ensures AllFacts(i, Instant(inputs)) == AllFacts(d, inputs)
    ensures AllCancelled(d, inputs) == []
  {
    hide Observe, Tick, Facts, Matches, Cancelled, QuietInput;
    if inputs != [] {
      var n := |inputs| - 1;
      InstantPrefix(inputs, n);
      RunMatches(d, i, inputs[..n]);
      NextMatches(Run(d, inputs[..n]).state, Run(i, Instant(inputs[..n])).state, inputs[n]);
    }
  }

  lemma NextMatches(d: State, i: State, input: Input)
    requires Matches(d, i) && QuietInput(d, input)
    ensures Matches(Next(d, input).state, Next(i, Instantly(input)).state)
    ensures InputFacts(i, Instantly(input)) == InputFacts(d, input)
    ensures InputCancelled(d, input) == []
  {
    hide Observe, Tick, Facts, Matches, Cancelled, Quiet;
    match input {
      case Seen(r, env) =>
        ObserveMatches(d, i, r, env);
        FactsMatch(d, i, r, env);
      case Ticked(env) =>
        TickMatches(d, i, env);
    }
  }

  /** A quiet run is in time, so it delivers in order. */
  lemma {:induction false} QuietIsInTime(s: State, inputs: seq<Input>)
    requires QuietRun(s, inputs)
    ensures RunInTime(s, inputs)
  {
    hide Run;
    if inputs != [] {
      var n := |inputs| - 1;
      QuietIsInTime(s, inputs[..n]);
    }
  }

  // ---- Strict time ----

  lemma NextLatest(s: State, input: Input)
    ensures Next(s, input).state.latest == if input.Seen? then Max(s.latest, input.record.timestamp) else s.latest
  {
    hide Interpret, TickStep, Release;
  }

  lemma ProcessStepHolds(s: State, pid: Pid, r: Record, env: Env)
    ensures if IsSyscall(r.Code())
            then HoldsOrSays(s, Step(ProcessStep(s, pid, r, env).state, SyscallStep(s, pid, r, env).out), pid,
                             r.timestamp)
            else ProcessStep(s, pid, r, env).state.heldOpens == s.heldOpens
  {
    hide SyscallStep, LookupStep, ExecStep, ProcExit, NameProgram, ReplaceAsker;
  }

  predicate IsSyscall(code: nat) {
    code != DATA_EXEC && code != STRING_EXEC && code != VFS_LOOKUP && code != PROC_EXIT && IsFollowed(code)
  }

  lemma ObserveHolds(s: State, r: Record, env: Env)
    ensures var pid := if r.thread in s.threads then s.threads[r.thread] else 0;
            HoldsOrSays(s, Step(Observe(s, r, env).state, Facts(s, r, env)), pid, r.timestamp)
  {
    hide SyscallStep, ProcessStep, NewThread, Release;
    if IsFollowedThread(s, r.thread) {
      var s1 := Noticed(Dequeued(s), r);
      SyscallSame(s, s1, s.threads[r.thread], r, env);
      ProcessStepHolds(s1, s.threads[r.thread], r, env);
    }
  }

  lemma TickHolds(s: State, env: Env)
    ensures Tick(s, env).state.heldOpens == s.heldOpens
  {
    hide RetryCommandLines, BelieveExits, Release;
  }

  /** Facts and held opens of a run: each at its own time, none later than the clock. */
  predicate Apart(facts: seq<Message>, held: seq<HeldOpen>, latest: nat) {
    && StrictlySorted(facts) && AllUpTo(facts, latest)
    && forall h | h in held :: h.time <= latest && forall i | 0 <= i < |facts| :: facts[i].time != h.time
  }

  lemma {:induction false} RunApart(s: State, inputs: seq<Input>)
    requires IsNew(s) && QuietRun(s, inputs)
    ensures Apart(AllFacts(s, inputs), Run(s, inputs).state.heldOpens, Run(s, inputs).state.latest)
  {
    hide Observe, Tick, Facts, Quiet;
    if inputs != [] {
      var n := |inputs| - 1;
      RunApart(s, inputs[..n]);
      var before := Run(s, inputs[..n]).state;
      NextLatest(before, inputs[n]);
      match inputs[n] {
        case Seen(r, env) =>
          FactsErased(before, r, env);
          ObserveHolds(before, r, env);
          AddApart(AllFacts(s, inputs[..n]), before, Observe(before, r, env).state, Facts(before, r, env), r.timestamp);
        case Ticked(env) =>
          TickHolds(before, env);
      }
    }
  }

  lemma AddApart(facts: seq<Message>, s: State, t: State, now: seq<Message>, time: nat)
    requires Apart(facts, s.heldOpens, s.latest) && s.latest < time == t.latest
    requires |now| <= 1 && forall i | 0 <= i < |now| :: now[i].time == time
    requires exists pid :: HoldsOrSays(s, Step(t, now), pid, time)
    ensures Apart(facts + now, t.heldOpens, t.latest)
  {
    var pid :| HoldsOrSays(s, Step(t, now), pid, time);
    if t.heldOpens != s.heldOpens {
      assert t.heldOpens == s.heldOpens + [t.heldOpens[|s.heldOpens|]];
    }
  }

  // ---- The result ----

  function HeldTimes(held: seq<HeldOpen>): set<nat> {
    set h | h in held :: h.time
  }

  /** The messages of other times than these. */
  function Others(ms: seq<Message>, times: set<nat>): seq<Message> {
    if ms == [] then []
    else if ms[0].time in times then Others(ms[1..], times)
    else [ms[0]] + Others(ms[1..], times)
  }

  lemma OthersStep(m: Message, rest: seq<Message>, times: set<nat>)
    ensures Others([m] + rest, times) == (if m.time in times then [] else [m]) + Others(rest, times)
  {
    assert ([m] + rest)[1..] == rest;
  }

  lemma {:induction false} OthersConcat(a: seq<Message>, b: seq<Message>, times: set<nat>)
    ensures Others(a + b, times) == Others(a, times) + Others(b, times)
  {
    hide Others;
    if a == [] {
      assert a + b == b;
      OthersNone(times);
    } else {
      OthersConcat(a[1..], b, times);
      OthersStep(a[0], a[1..], times);
      OthersStep(a[0], a[1..] + b, times);
      assert a == [a[0]] + a[1..] && a + b == [a[0]] + (a[1..] + b);
    }
  }

  lemma OthersNone(times: set<nat>)
    ensures Others([], times) == []
  {
  }

  lemma {:induction false} OthersFrom(ms: seq<Message>, times: set<nat>)
    ensures forall m | m in Others(ms, times) :: m in ms && m.time !in times
    ensures Sorted(ms) ==> Sorted(Others(ms, times))
  {
    if ms != [] {
      OthersFrom(ms[1..], times);
      if Sorted(ms) {
        forall m | m in Others(ms[1..], times) ensures ms[0].time <= m.time {
          var i :| 0 <= i < |ms[1..]| && ms[1..][i] == m;
          assert ms[i + 1] == m;
        }
      }
    }
  }

  lemma {:induction false} OthersCount(ms: seq<Message>, times: set<nat>, x: Message)
    ensures Count(Others(ms, times), x) == if x.time in times then 0 else Count(ms, x)
  {
    if ms != [] {
      OthersCount(ms[1..], times, x);
      if ms[0].time !in times {
        assert Others(ms, times)[1..] == Others(ms[1..], times);
      }
    }
  }

  lemma {:induction false} CountAbsent(ms: seq<Message>, x: Message)
    requires forall i | 0 <= i < |ms| :: ms[i].time != x.time
    ensures Count(ms, x) == 0
  {
    if ms != [] {
      CountAbsent(ms[1..], x);
    }
  }

  lemma {:induction false} FactsAreErased(s: State, inputs: seq<Input>)
    ensures ErasedAll(AllFacts(s, inputs)) == AllFacts(s, inputs)
  {
    if inputs != [] {
      var n := |inputs| - 1;
      FactsAreErased(s, inputs[..n]);
      if inputs[n].Seen? {
        FactsErased(Run(s, inputs[..n]).state, inputs[n].record, inputs[n].env);
      }
      ErasedConcat(AllFacts(s, inputs[..n]), InputFacts(Run(s, inputs[..n]).state, inputs[n]));
    }
  }

  /** But for the opens the flush places, a recording is exactly what happened, in the order it happened. */
  lemma RecordingIsWhatHappened(s: State, inputs: seq<Input>, env: Env)
    requires IsNew(s) && QuietRun(s, inputs)
    ensures var times := HeldTimes(Run(s, inputs).state.heldOpens);
            Others(ErasedAll(Recording(s, inputs, env)), times) == AllFacts(s, inputs)
  {
    hide Run, Flush, AllFacts, HeldTimes, Others, OpenMessages, QuietRun, AllCancelled;
    var run := Run(s, inputs);
    var times := HeldTimes(run.state.heldOpens);
    var others := Others(ErasedAll(Recording(s, inputs, env)), times);
    RunApart(s, inputs);
    OthersSorted(s, inputs, env);
    RunMatchesItself(s, inputs);
    forall x ensures multiset(others)[x] == multiset(AllFacts(s, inputs))[x] {
      RecordingBalances(s, inputs, env, x);
      OthersMultiplicity(Recording(s, inputs, env), times, x);
      FactsAreErased(s, inputs);
      CountIsMultiplicity(AllFacts(s, inputs), x);
      FlushOpensApart(run.state, x);
      if x.time in times {
        FactsApart(s, inputs, x);
      }
      assert ExitCount([], x) == 0;
    }
    StrictOrderIsUnique(others, AllFacts(s, inputs));
  }

  lemma FactsApart(s: State, inputs: seq<Input>, x: Message)
    requires Apart(AllFacts(s, inputs), Run(s, inputs).state.heldOpens, Run(s, inputs).state.latest)
    requires x.time in HeldTimes(Run(s, inputs).state.heldOpens)
    ensures Count(AllFacts(s, inputs), x) == 0
  {
    hide AllFacts, Run;
    CountAbsent(AllFacts(s, inputs), x);
  }

  lemma OthersMultiplicity(ms: seq<Message>, times: set<nat>, x: Message)
    ensures multiset(Others(ErasedAll(ms), times))[x] == if x.time in times then 0 else Count(ms, x)
  {
    var erased := ErasedAll(ms);
    OthersCount(erased, times, x);
    ErasedTwice(ms);
    CountIsMultiplicity(erased, x);
    CountIsMultiplicity(ms, x);
    OthersErased(erased, times);
    CountIsMultiplicity(Others(erased, times), x);
  }

  lemma {:induction false} ErasedTwice(ms: seq<Message>)
    ensures ErasedAll(ErasedAll(ms)) == ErasedAll(ms)
  {
  }

  lemma {:induction false} OthersErased(ms: seq<Message>, times: set<nat>)
    requires ErasedAll(ms) == ms
    ensures ErasedAll(Others(ms, times)) == Others(ms, times)
  {
    OthersFrom(ms, times);
    var others := Others(ms, times);
    forall i | 0 <= i < |others| ensures Erased(others[i]) == others[i] {
      assert others[i] in ms;
      var j :| 0 <= j < |ms| && ms[j] == others[i];
      assert ErasedAll(ms)[j] == Erased(ms[j]);
    }
  }

  lemma {:induction false} FlushOpensApart(s: State, x: Message)
    ensures x.time !in HeldTimes(s.heldOpens) ==> Count(OpenMessages(s, s.heldOpens), x) == 0
  {
    var opens := OpenMessages(s, s.heldOpens);
    if x.time !in HeldTimes(s.heldOpens) {
      forall i | 0 <= i < |opens| ensures opens[i].time != x.time {
        assert s.heldOpens[i] in s.heldOpens;
      }
      CountAbsent(opens, x);
    }
  }

  /** A quiet run cancels no exit. */
  lemma RunMatchesItself(s: State, inputs: seq<Input>)
    requires IsNew(s) && QuietRun(s, inputs)
    ensures Matches(Run(s, inputs).state, Run(s, Instant(inputs)).state)
    ensures AllFacts(s, Instant(inputs)) == AllFacts(s, inputs)
    ensures AllCancelled(s, inputs) == []
  {
    hide Run, AllFacts, AllCancelled, QuietRun;
    NothingEnding(s.processes, s.root);
    RunMatches(s, s, inputs);
  }

  lemma OthersSorted(s: State, inputs: seq<Input>, env: Env)
    requires IsNew(s) && QuietRun(s, inputs)
    ensures Sorted(Others(ErasedAll(Recording(s, inputs, env)), HeldTimes(Run(s, inputs).state.heldOpens)))
  {
    hide Run, Flush, OpenMessages, HeldTimes, QuietRun, Others;
    var run := Run(s, inputs);
    var times := HeldTimes(run.state.heldOpens);
    QuietIsInTime(s, inputs);
    RunInOrder(s, [], inputs);
    assert [] + run.out == run.out;
    FlushInOrder(run.state, run.out, env);
    ErasedConcat(run.out, Flush(run.state, env).out);
    RestInOrder(run.state, run.out, Flush(run.state, env).out);
  }

  /** Past the opens that the flush places, its messages follow everything sent. */
  lemma RestInOrder(s: State, sent: seq<Message>, out: seq<Message>)
    requires Sorted(sent) && Sorted(out)
    requires forall m | m in out :: AfterSent(sent, m.time) || m in OpenMessages(s, s.heldOpens)
    ensures Sorted(Others(ErasedAll(sent) + ErasedAll(out), HeldTimes(s.heldOpens)))
  {
    hide Others, OpenMessages, HeldTimes, AfterSent;
    var first, last := ErasedAll(sent), ErasedAll(out);
    forall a, b | a in first && b in last && b.time !in HeldTimes(s.heldOpens) ensures a.time <= b.time {
      FlushOtherAfter(s, sent, out, a, b);
    }
    SortedOthers(first, last, HeldTimes(s.heldOpens));
  }

  lemma SortedOthers(first: seq<Message>, last: seq<Message>, times: set<nat>)
    requires Sorted(first) && Sorted(last)
    requires forall a, b | a in first && b in last && b.time !in times :: a.time <= b.time
    ensures Sorted(Others(first + last, times))
  {
    hide Others;
    OthersConcat(first, last, times);
    OthersFrom(first, times);
    OthersFrom(last, times);
    SortedConcat(Others(first, times), Others(last, times));
  }

  lemma FlushOtherAfter(s: State, sent: seq<Message>, out: seq<Message>, a: Message, b: Message)
    requires forall m | m in out :: AfterSent(sent, m.time) || m in OpenMessages(s, s.heldOpens)
    requires a in ErasedAll(sent) && b in ErasedAll(out)
    requires b.time !in HeldTimes(s.heldOpens)
    ensures a.time <= b.time
  {
    hide HeldTimes, OpenMessages;
    var i :| 0 <= i < |sent| && ErasedAll(sent)[i] == a;
    var j :| 0 <= j < |out| && ErasedAll(out)[j] == b;
    assert out[j] in out;
    OpenMessageTimes(s);
  }

  lemma OpenMessageTimes(s: State)
    ensures forall m | m in OpenMessages(s, s.heldOpens) :: m.time in HeldTimes(s.heldOpens)
  {
    forall m | m in OpenMessages(s, s.heldOpens) ensures m.time in HeldTimes(s.heldOpens) {
      var k :| 0 <= k < |s.heldOpens| && OpenMessages(s, s.heldOpens)[k] == m;
      assert s.heldOpens[k] in s.heldOpens;
    }
  }

  /**
   Delayed reading refines instant reading. Whatever the reads answer and wherever ticks fall, the
   recording is the one a reader gets that reads every command line at its program's start: the same
   messages in the same order, but for what executions say and where the flush puts held opens. The
   held opens are the same too.
   */
  lemma DelayedRefinesInstant(s: State, inputs: seq<Input>, env: Env, env': Env)
    requires IsNew(s) && QuietRun(s, inputs)
    ensures FlushOpens(s, Instant(inputs)) == FlushOpens(s, inputs)
    ensures var times := HeldTimes(Run(s, inputs).state.heldOpens);
            Others(ErasedAll(Recording(s, inputs, env)), times)
              == Others(ErasedAll(Recording(s, Instant(inputs), env')), times)
  {
    hide Run, Recording, AllFacts, HeldTimes, Others, OpenMessages, QuietRun;
    RunMatchesItself(s, inputs);
    RecordingIsWhatHappened(s, inputs, env);
    InstantIsQuiet(s, s, inputs);
    RecordingIsWhatHappened(s, Instant(inputs), env');
    var d, i := Run(s, inputs).state, Run(s, Instant(inputs)).state;
    OpenMessagesSame(d, i, d.heldOpens);
  }

  // ---- When a run is quiet ----

  /** The kernel has reported the end of process `pid`. */
  ghost predicate IsOver(s: State, inputs: seq<Input>, pid: Pid) {
    exists m :: m in AllFacts(s, inputs) && m.event.Exit? && m.pid == pid
  }

  /** Timestamps increase strictly, and once a process's end is reported nothing more is, under its pid. */
  ghost predicate EndsAreLast(s: State, inputs: seq<Input>) {
    inputs == [] ||
    (var n := |inputs| - 1;
     && EndsAreLast(s, inputs[..n])
     && (inputs[n].Seen? ==>
           var t, r := Run(s, inputs[..n]).state, inputs[n].record;
           && t.latest < r.timestamp
           && (r.thread in t.threads ==> !IsOver(s, inputs[..n], t.threads[r.thread]))
           && (r.Code() == NEWTHREAD ==> !IsOver(s, inputs[..n], AsI32(r.args[1])))))
  }

  /** An exit that is held is one the kernel reported. */
  lemma HeldIsOver(s: State, inputs: seq<Input>, e: HeldExit)
    requires IsNew(s) && e in Run(s, inputs).state.heldExits
    ensures IsOver(s, inputs, e.pid)
  {
    hide Run, AllFacts, AllCancelled, Count, ExitCount, PendingCount;
    var x := ExitMessage(e);
    RunBalances(s, inputs, x);
    EmptyCounts(x);
    HeldIsCounted(Run(s, inputs).state.heldExits, e);
    CountedIsThere(AllFacts(s, inputs), x);
    var m :| m in AllFacts(s, inputs) && Erased(m) == x;
  }

  /** A run in which no pid is used again after its process has ended is quiet, whatever the reads answer. */
  lemma {:induction false} EndsLastIsQuiet(s: State, inputs: seq<Input>)
    requires IsNew(s) && EndsAreLast(s, inputs)
    ensures QuietRun(s, inputs)
  {
    hide Run, IsOver;
    if inputs != [] {
      var n := |inputs| - 1;
      EndsLastIsQuiet(s, inputs[..n]);
      forall e | e in Run(s, inputs[..n]).state.heldExits ensures IsOver(s, inputs[..n], e.pid) {
        HeldIsOver(s, inputs[..n], e);
      }
    }
  }

  /** An instant reader never holds an exit, so its run is quiet. */
  lemma {:induction false} InstantIsQuiet(d: State, i: State, inputs: seq<Input>)
    requires Matches(d, i) && QuietRun(d, inputs)
    ensures QuietRun(i, Instant(inputs))
  {
    hide Run, Matches, IsHeld;
    if inputs != [] {
      var n := |inputs| - 1;
      InstantPrefix(inputs, n);
      InstantIsQuiet(d, i, inputs[..n]);
      RunMatches(d, i, inputs[..n]);
      QuietToo(Run(d, inputs[..n]).state, Run(i, Instant(inputs[..n])).state, inputs[n]);
    }
  }

  lemma QuietToo(d: State, i: State, input: Input)
    requires Matches(d, i) && QuietInput(d, input)
    ensures QuietInput(i, Instantly(input))
  {
  }
}
