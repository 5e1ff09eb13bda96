/**
 Conservation. Everything a trace record says happened is delivered exactly once, whatever the
 reads answer, in whatever order records and ticks come.
 */
module Ledger {
  import opened Basics
  import opened Messages
  import opened Ordering
  import opened CollectorModel
  import opened FileView
  import opened DeliveryOrder

  // ---- What a record says happened ----

  /**
   The messages a record is worth, at its own time. Executions are erased: their text is read later, and
   `ExecTexts` has it. What an ended call is worth is by the records alone `KernelFiles.FileFact`.
   */
  function Facts(s: State, r: Record, env: Env): seq<Message> {
    if r.Code() == NEWTHREAD then
      if r.thread in s.threads && s.threads[r.thread] != AsI32(r.args[1]) && s.threads[r.thread] in s.processes
      then [Message(r.timestamp, s.threads[r.thread], 0, Fork(AsI32(r.args[1])))] else []
    else if r.Code() == LOST_EVENTS || !IsFollowedThread(s, r.thread) then []
    else
      var pid := s.threads[r.thread];
      if r.Code() == DATA_EXEC then [Message(r.timestamp, pid, 0, EXEC_ERASED)]
      else if r.Code() == PROC_EXIT then
        if r.IsEnd() && r.thread !in s.replaced && r.thread !in s.newTasks
        then [Message(r.timestamp, pid, 0, Exit(AsI32(r.args[1])))] else []
      else if IsFollowed(r.Code()) then SyscallStep(s, pid, r, env).out
      else []
  }

  /** The exits that are dropped because their pid is forked again before they are believed. */
  function Cancelled(s: State, r: Record): seq<HeldExit> {
    if r.Code() == NEWTHREAD && r.thread in s.threads && s.threads[r.thread] != AsI32(r.args[1])
       && s.threads[r.thread] in s.processes
    then OfPid(s.heldExits, AsI32(r.args[1])) else []
  }

  function OfPid(exits: seq<HeldExit>, pid: Pid): seq<HeldExit> {
    if exits == [] then []
    else (if exits[0].pid == pid then [exits[0]] else []) + OfPid(exits[1..], pid)
  }

  /** A record is worth at most one message, at its own time. */
  lemma FactsErased(s: State, r: Record, env: Env)
    ensures ErasedAll(Facts(s, r, env)) == Facts(s, r, env)
    ensures |Facts(s, r, env)| <= 1 && forall i | 0 <= i < |Facts(s, r, env)| :: Facts(s, r, env)[i].time == r.timestamp
  {
    hide SyscallStep;
    var facts := Facts(s, r, env);
    assert forall i | 0 <= i < |facts| :: Erased(facts[i]) == facts[i];
  }

  // ---- What is owed ----

  function PendingMessage(p: Pending): Message {
    Message(p.time, p.pid, 0, EXEC_ERASED)
  }

  function One(m: Message, x: Message): nat {
    if m == x then 1 else 0
  }

  /** How many of `ms` are `x`, executions erased. */
  function Count(ms: seq<Message>, x: Message): nat {
    if ms == [] then 0 else One(Erased(ms[0]), x) + Count(ms[1..], x)
  }

  function PendingCount(pending: seq<Pending>, x: Message): nat {
    if pending == [] then 0 else One(PendingMessage(pending[0]), x) + PendingCount(pending[1..], x)
  }

  function ExitCount(exits: seq<HeldExit>, x: Message): nat {
    if exits == [] then 0 else One(ExitMessage(exits[0]), x) + ExitCount(exits[1..], x)
  }

  /** Programs unread and exits held. */
  function Held(s: State, x: Message): nat {
    PendingCount(s.argvRetries, x) + ExitCount(s.heldExits, x)
  }

  /** What happened and is not delivered yet, but for the opens held for the flush. */
  function Owed(s: State, x: Message): nat {
    Count(s.queued, x) + Held(s, x)
  }

  // ---- Counting ----

  lemma {:induction false} CountConcat(a: seq<Message>, b: seq<Message>, x: Message)
    ensures Count(a + b, x) == Count(a, x) + Count(b, x)
  {
    if a == [] {
      assert a + b == b;
    } else {
      CountConcat(a[1..], b, x);
      assert (a + b)[1..] == a[1..] + b;
    }
  }

  lemma CountOne(m: Message, x: Message)
    ensures Count([m], x) == One(Erased(m), x)
  {
    assert [m][1..] == [];
  }

  lemma {:induction false} CountIsMultiplicity(ms: seq<Message>, x: Message)
    ensures Count(ms, x) == multiset(ErasedAll(ms))[x]
  {
    if ms != [] {
      CountIsMultiplicity(ms[1..], x);
      assert ErasedAll(ms) == [Erased(ms[0])] + ErasedAll(ms[1..]);
    }
  }

  lemma {:induction false} CountMember(ms: seq<Message>, m: Message)
    requires m in ms
    ensures Count(ms, Erased(m)) > 0
  {
    if ms[0] != m {
      CountMember(ms[1..], m);
    }
  }

  lemma {:induction false} CountedIsThere(ms: seq<Message>, x: Message)
    requires Count(ms, x) > 0
    ensures exists m :: m in ms && Erased(m) == x
  {
    if Erased(ms[0]) == x {
      assert ms[0] in ms;
    } else {
      CountedIsThere(ms[1..], x);
      var m :| m in ms[1..] && Erased(m) == x;
      assert m in ms;
    }
  }

  lemma {:induction false} HeldIsCounted(exits: seq<HeldExit>, e: HeldExit)
    requires e in exits
    ensures ExitCount(exits, ExitMessage(e)) > 0
  {
    if exits[0] != e {
      HeldIsCounted(exits[1..], e);
    }
  }

  lemma {:induction false} InsertCount(m: Message, sorted: seq<Message>, x: Message)
    ensures Count(Insert(m, sorted), x) == One(Erased(m), x) + Count(sorted, x)
  {
    if sorted == [] || m.time <= sorted[0].time {
      assert Insert(m, sorted)[1..] == sorted;
    } else {
      InsertCount(m, sorted[1..], x);
      assert Insert(m, sorted)[1..] == Insert(m, sorted[1..]);
    }
  }

  lemma {:induction false} SortCount(ms: seq<Message>, x: Message)
    ensures Count(SortByTime(ms), x) == Count(ms, x)
  {
    if ms != [] {
      SortCount(ms[1..], x);
      InsertCount(ms[0], SortByTime(ms[1..]), x);
    }
  }

  /** The queue's release loses nothing and adds nothing. */
  lemma ReleaseBalances(s: State, batch: seq<Message>, x: Message)
    ensures var step := Release(s, batch);
            Count(step.out, x) + Owed(step.state, x) == Count(batch, x) + Held(s, x)
  {
    hide SortByTime, ReadyCount, PendingCount, ExitCount, Count;
    var sorted := SortByTime(batch);
    var step := Release(s, batch);
    SortCount(batch, x);
    CountConcat(step.out, step.state.queued, x);
    assert step.out + step.state.queued == sorted;
  }

  // ---- Lists of programs and exits ----

  lemma {:induction false} PendingConcat(a: seq<Pending>, b: seq<Pending>, x: Message)
    ensures PendingCount(a + b, x) == PendingCount(a, x) + PendingCount(b, x)
  {
    if a == [] {
      assert a + b == b;
    } else {
      PendingConcat(a[1..], b, x);
      assert (a + b)[1..] == a[1..] + b;
    }
  }

  lemma PendingOne(p: Pending, x: Message)
    ensures PendingCount([p], x) == One(PendingMessage(p), x)
  {
    assert [p][1..] == [];
  }

  lemma {:induction false} ExitsConcat(a: seq<HeldExit>, b: seq<HeldExit>, x: Message)
    ensures ExitCount(a + b, x) == ExitCount(a, x) + ExitCount(b, x)
  {
    if a == [] {
      assert a + b == b;
    } else {
      ExitsConcat(a[1..], b, x);
      assert (a + b)[1..] == a[1..] + b;
    }
  }

  lemma ExitsOne(e: HeldExit, x: Message)
    ensures ExitCount([e], x) == One(ExitMessage(e), x)
  {
    assert [e][1..] == [];
  }

  lemma {:induction false} ExitsCount(exits: seq<HeldExit>, x: Message)
    ensures Count(ExitMessages(exits), x) == ExitCount(exits, x)
  {
    if exits != [] {
      ExitsCount(exits[1..], x);
      assert ExitMessages(exits)[1..] == ExitMessages(exits[1..]);
    }
  }

  lemma {:induction false} WithoutPidBalances(exits: seq<HeldExit>, pid: Pid, x: Message)
    ensures ExitCount(exits, x) == ExitCount(WithoutPid(exits, pid), x) + ExitCount(OfPid(exits, pid), x)
  {
    if exits != [] {
      WithoutPidBalances(exits[1..], pid, x);
      ExitsOne(exits[0], x);
      ExitsConcat([exits[0]], WithoutPid(exits[1..], pid), x);
      ExitsConcat([exits[0]], OfPid(exits[1..], pid), x);
      assert [] + WithoutPid(exits[1..], pid) == WithoutPid(exits[1..], pid);
      assert [] + OfPid(exits[1..], pid) == OfPid(exits[1..], pid);
    }
  }

  lemma {:induction false} BelieveBalances(exits: seq<HeldExit>, pending: seq<Pending>, x: Message)
    ensures ExitCount(exits, x) == ExitCount(Waiting(exits, pending), x) + ExitCount(Believable(exits, pending), x)
  {
    if exits != [] {
      BelieveBalances(exits[1..], pending, x);
      ExitsOne(exits[0], x);
      ExitsConcat([exits[0]], Waiting(exits[1..], pending), x);
      ExitsConcat([exits[0]], Believable(exits[1..], pending), x);
      assert [] + Waiting(exits[1..], pending) == Waiting(exits[1..], pending);
      assert [] + Believable(exits[1..], pending) == Believable(exits[1..], pending);
    }
  }

  lemma {:induction false} RetryBalances(s: State, pending: seq<Pending>, env: Env, lastChance: bool, x: Message)
    ensures var all := RetryList(s, pending, env, lastChance);
            Count(all.out, x) + PendingCount(all.kept, x) == PendingCount(pending, x)
  {
    hide Retry;
    if pending != [] {
      var n := |pending| - 1;
      RetryBalances(s, pending[..n], env, lastChance, x);
      var before := RetryList(s, pending[..n], env, lastChance);
      PendingConcat(pending[..n], [pending[n]], x);
      PendingOne(pending[n], x);
      assert pending == pending[..n] + [pending[n]];
      match Retry(s, pending[n], env.inspect(pending[n].pid), lastChance) {
        case Keep(p) =>
          PendingConcat(before.kept, [p], x);
          PendingOne(p, x);
        case Report(m, lost) =>
          CountConcat(before.out, [m], x);
          CountOne(m, x);
      }
    }
  }

  // ---- One step ----

  /** A step's messages and what it holds, against what it held, what happened and what was dropped. */
  predicate Balances(s: State, step: Step, facts: seq<Message>, dropped: seq<HeldExit>, x: Message) {
    Count(step.out, x) + Held(step.state, x) + ExitCount(dropped, x) == Held(s, x) + Count(facts, x)
  }

  lemma SettleEarlierBalances(s: State, pid: Pid, x: Message)
    ensures Balances(s, SettleEarlier(s, pid), [], [], x)
  {
    hide Settled, PendingCount, ExitCount, Count;
    EmptyCounts(x);
    if HasPending(s.argvRetries, pid) {
      var i := FirstPending(s.argvRetries, pid);
      var before, p, after := s.argvRetries[..i], s.argvRetries[i], s.argvRetries[i + 1..];
      assert s.argvRetries == before + ([p] + after);
      PendingConcat(before, [p] + after, x);
      PendingConcat([p], after, x);
      PendingConcat(before, after, x);
      PendingOne(p, x);
      CountOne(Settled(s, p), x);
    }
  }

  lemma StartProgramBalances(s: State, pid: Pid, time: nat, image: Word, answer: Answer, x: Message)
    ensures Balances(s, StartProgram(s, pid, time, image, answer), [Message(time, pid, 0, EXEC_ERASED)], [], x)
  {
    hide StartProgram;
    var step := StartProgram(s, pid, time, image, answer);
    CountOne(Message(time, pid, 0, EXEC_ERASED), x);
    if step.out == [] {
      var p := step.state.argvRetries[|s.argvRetries|];
      PendingConcat(s.argvRetries, [p], x);
      PendingOne(p, x);
      assert step.state.argvRetries == s.argvRetries + [p];
    } else {
      CountOne(step.out[0], x);
      assert step.out == [step.out[0]];
    }
  }

  lemma ExecBalances(s: State, pid: Pid, time: nat, image: Word, env: Env, x: Message)
    ensures Balances(s, ExecStep(s, pid, time, image, env), [Message(time, pid, 0, EXEC_ERASED)], [], x)
  {
    hide SettleEarlier, StartProgram, Count, PendingCount, ExitCount;
    EmptyCounts(x);
    var s1 := CloseOnExec(s, pid);
    var earlier := SettleEarlier(s1, pid);
    SettleEarlierBalances(s1, pid, x);
    StartProgramBalances(earlier.state, pid, time, image, env.inspect(pid), x);
    CountConcat(earlier.out, StartProgram(earlier.state, pid, time, image, env.inspect(pid)).out, x);
  }

  lemma BelieveStepBalances(s: State, x: Message)
    ensures Balances(s, BelieveExits(s), [], [], x)
  {
    BelieveBalances(s.heldExits, s.argvRetries, x);
    ExitsCount(Believable(s.heldExits, s.argvRetries), x);
  }

  lemma {:induction false} MarkNamedCount(pending: seq<Pending>, pid: Pid, x: Message)
    ensures PendingCount(MarkNamed(pending, pid), x) == PendingCount(pending, x)
  {
    if pending != [] {
      MarkNamedCount(pending[1..], pid, x);
      assert MarkNamed(pending, pid)[1..] == MarkNamed(pending[1..], pid);
    }
  }

  lemma ProcExitBalances(s: State, pid: Pid, r: Record, x: Message)
    ensures Balances(s, ProcExit(s, pid, r),
                     if r.thread in s.replaced || r.thread in s.newTasks then []
                     else [Message(r.timestamp, pid, 0, Exit(AsI32(r.args[1])))], [], x)
  {
    hide BelieveExits;
    if r.thread !in s.replaced && r.thread !in s.newTasks {
      var exit := HeldExit(pid, r.timestamp, AsI32(r.args[1]));
      ExitsConcat(s.heldExits, [exit], x);
      ExitsOne(exit, x);
      CountOne(ExitMessage(exit), x);
      BelieveStepBalances(s.(heldExits := s.heldExits + [exit]), x);
    }
  }

  lemma EmptyCounts(x: Message)
    ensures Count([], x) == 0 && PendingCount([], x) == 0 && ExitCount([], x) == 0
  {
  }

  lemma NameBalances(s: State, pid: Pid, args: Args, x: Message)
    ensures Held(NameProgram(s, pid, args), x) == Held(s, x)
  {
    hide PendingCount, ExitCount, MarkNamed;
    MarkNamedCount(s.argvRetries, pid, x);
  }

  lemma ProcessesAreNoCalls()
    ensures !IsFollowed(STRING_EXEC) && !IsFollowed(DATA_EXEC) && !IsFollowed(PROC_EXIT) && !IsFollowed(VFS_LOOKUP)
  {
  }

  lemma ProcessStepBalances(s: State, pid: Pid, r: Record, env: Env, x: Message)
    requires IsFollowedThread(s, r.thread) && pid == s.threads[r.thread]
    requires r.Code() != NEWTHREAD && r.Code() != LOST_EVENTS
    ensures Balances(s, ProcessStep(s, pid, r, env), Facts(s, r, env), [], x)
  {
    hide ExecStep, ProcExit, SyscallStep, LookupStep, NameProgram, ReplaceAsker, PendingCount, ExitCount, Count, AsI32,
         IsFollowed;
    EmptyCounts(x);
    ProcessesAreNoCalls();
    if r.Code() == STRING_EXEC {
      NameBalances(s, pid, r.args, x);
    } else if r.Code() == DATA_EXEC {
      ExecBalances(ReplaceAsker(s, r.thread), pid, r.timestamp, r.args[2], env, x);
    } else if r.Code() == PROC_EXIT && r.IsEnd() {
      ProcExitBalances(s, pid, r, x);
    }
  }

  lemma NewThreadBalances(s: State, r: Record, env: Env, x: Message)
    requires r.Code() == NEWTHREAD
    ensures Balances(s, NewThread(s, r), Facts(s, r, env), Cancelled(s, r), x)
  {
    hide PendingCount, ExitCount, Count, AsI32, WithoutPid, OfPid, RegisterThread;
    EmptyCounts(x);
    WithoutPidBalances(s.heldExits, AsI32(r.args[1]), x);
  }

  lemma FactsIgnoreQueue(s: State, r: Record, env: Env)
    ensures Facts(s, r, env) == Facts(Noticed(Dequeued(s), r), r, env)
    ensures Cancelled(s, r) == Cancelled(Noticed(Dequeued(s), r), r)
  {
    hide SyscallStep;
    if IsFollowedThread(s, r.thread) {
      SyscallSame(s, Noticed(Dequeued(s), r), s.threads[r.thread], r, env);
    }
  }

  lemma InterpretBalances(s: State, r: Record, env: Env, x: Message)
    ensures Balances(s, Interpret(s, r, env), Facts(Noticed(s, r), r, env), Cancelled(Noticed(s, r), r), x)
  {
    hide ProcessStep, NewThread, Count, PendingCount, ExitCount;
    EmptyCounts(x);
    var s1 := Noticed(s, r);
    if r.Code() == NEWTHREAD {
      NewThreadBalances(s1, r, env, x);
    } else if r.Code() != LOST_EVENTS && IsFollowedThread(s1, r.thread) {
      ProcessStepBalances(s1, s1.threads[r.thread], r, env, x);
    }
  }

  /** What is delivered and owed after a record is what was owed before it and what it says happened. */
  lemma ObserveBalances(s: State, r: Record, env: Env, x: Message)
    ensures var step := Observe(s, r, env);
            Count(step.out, x) + Owed(step.state, x) + ExitCount(Cancelled(s, r), x)
              == Owed(s, x) + Count(Facts(s, r, env), x)
  {
    hide Interpret, Release, Count, PendingCount, ExitCount, Facts, Cancelled;
    var step := Interpret(Dequeued(s), r, env);
    FactsIgnoreQueue(s, r, env);
    InterpretBalances(Dequeued(s), r, env, x);
    CountConcat(s.queued, step.out, x);
    ReleaseBalances(step.state, s.queued + step.out, x);
  }

  lemma TickBalances(s: State, env: Env, x: Message)
    ensures var step := Tick(s, env);
            Count(step.out, x) + Owed(step.state, x) == Owed(s, x)
  {
    hide RetryList, BelieveExits, Release, Count, PendingCount, ExitCount;
    EmptyCounts(x);
    var s1 := Dequeued(s);
    RetryBalances(s1, s1.argvRetries, env, false, x);
    var retried := RetryCommandLines(s1, env, false);
    BelieveStepBalances(retried.state, x);
    var step := TickStep(s1, env);
    CountConcat(retried.out, BelieveExits(retried.state).out, x);
    CountConcat(s.queued, step.out, x);
    ReleaseBalances(step.state, s.queued + step.out, x);
  }

  // ---- The flush ----

  lemma FlushStepBalances(s: State, env: Env, x: Message)
    ensures Count(FlushStep(s, env).out, x) == Held(s, x) + Count(OpenMessages(s, s.heldOpens), x)
  {
    hide RetryList, EndProcesses, Count, PendingCount, ExitCount, OpenMessages;
    EmptyCounts(x);
    var s1 := s.(heldOpens := []);
    RetryBalances(s1, s.argvRetries, env, true, x);
    RetryListFrom(s1, s.argvRetries, env, true);
    var retried := RetryCommandLines(s1, env, true);
    var opens, exits := OpenMessages(s, s.heldOpens), ExitMessages(s.heldExits);
    ExitsCount(s.heldExits, x);
    CountConcat(opens + retried.out, exits, x);
    CountConcat(opens, retried.out, x);
  }

  /** The flush delivers everything still owed, and the held opens. */
  lemma FlushBalances(s: State, env: Env, x: Message)
    ensures Count(Flush(s, env).out, x) == Owed(s, x) + Count(OpenMessages(s, s.heldOpens), x)
  {
    hide FlushStep, SortByTime, Count, PendingCount, ExitCount, OpenMessages;
    var step := FlushStep(Dequeued(s), env);
    FlushStepBalances(Dequeued(s), env, x);
    OpenMessagesSame(s, Dequeued(s), s.heldOpens);
    FlushReleases(s, env);
    SortCount(s.queued + step.out, x);
    CountConcat(s.queued, step.out, x);
  }

  // ---- Whole recordings ----

  /** Everything the records of a run say happened, in their order. */
  function AllFacts(s: State, inputs: seq<Input>): seq<Message> {
    if inputs == [] then [] else
      var n := |inputs| - 1;
      AllFacts(s, inputs[..n]) + InputFacts(Run(s, inputs[..n]).state, inputs[n])
  }

  function InputFacts(s: State, input: Input): seq<Message> {
    match input
    case Seen(r, env) => Facts(s, r, env)
    case Ticked(_) => []
  }

  /** Every exit of a run that was dropped because its pid was forked again while it was held. */
  function AllCancelled(s: State, inputs: seq<Input>): seq<HeldExit> {
    if inputs == [] then [] else
      var n := |inputs| - 1;
      AllCancelled(s, inputs[..n]) + InputCancelled(Run(s, inputs[..n]).state, inputs[n])
  }

  function InputCancelled(s: State, input: Input): seq<HeldExit> {
    match input
    case Seen(r, _) => Cancelled(s, r)
    case Ticked(_) => []
  }

  lemma NextBalances(s: State, input: Input, x: Message)
    ensures var step := Next(s, input);
            Count(step.out, x) + Owed(step.state, x) + ExitCount(InputCancelled(s, input), x)
              == Owed(s, x) + Count(InputFacts(s, input), x)
  {
    hide Observe, Tick, Facts, Cancelled;
    match input {
      case Seen(r, env) => ObserveBalances(s, r, env, x);
      case Ticked(env) => TickBalances(s, env, x);
    }
  }

  lemma {:induction false} RunBalances(s: State, inputs: seq<Input>, x: Message)
    ensures var run := Run(s, inputs);
            Count(run.out, x) + Owed(run.state, x) + ExitCount(AllCancelled(s, inputs), x)
              == Owed(s, x) + Count(AllFacts(s, inputs), x)
  {
    hide Next, InputFacts, InputCancelled, Owed;
    if inputs != [] {
      var n := |inputs| - 1;
      RunBalances(s, inputs[..n], x);
      var before := Run(s, inputs[..n]);
      NextBalances(before.state, inputs[n], x);
      CountConcat(before.out, Next(before.state, inputs[n]).out, x);
      CountConcat(AllFacts(s, inputs[..n]), InputFacts(before.state, inputs[n]), x);
      ExitsConcat(AllCancelled(s, inputs[..n]), InputCancelled(before.state, inputs[n]), x);
    }
  }

  /** Everything a recording delivers: a run of records and ticks, then the flush. */
  function Recording(s: State, inputs: seq<Input>, env: Env): seq<Message> {
    var run := Run(s, inputs);
    run.out + Flush(run.state, env).out
  }

  /** The opens a recording places only at its end. */
  function FlushOpens(s: State, inputs: seq<Input>): seq<Message> {
    var t := Run(s, inputs).state;
    OpenMessages(t, t.heldOpens)
  }

  /**
   A recording delivers everything that happened, and every held open, exactly once; only an exit
   whose pid is forked again while it is held is dropped. This needs nothing of times or order.
   */
  lemma RecordingBalances(s: State, inputs: seq<Input>, env: Env, x: Message)
    requires IsNew(s)
    ensures Count(Recording(s, inputs, env), x) + ExitCount(AllCancelled(s, inputs), x)
         == Count(AllFacts(s, inputs), x) + Count(FlushOpens(s, inputs), x)
  {
    hide Run, Flush, OpenMessages;
    var run := Run(s, inputs);
    RunBalances(s, inputs, x);
    FlushBalances(run.state, env, x);
    CountConcat(run.out, Flush(run.state, env).out, x);
  }

  lemma {:induction false} NoExecAmong(exits: seq<HeldExit>, x: Message)
    requires !x.event.Exit?
    ensures ExitCount(exits, x) == 0
  {
    if exits != [] {
      NoExecAmong(exits[1..], x);
    }
  }

  lemma {:induction false} OnlyOpens(s: State, opens: seq<HeldOpen>, x: Message)
    requires !x.event.Open?
    ensures Count(OpenMessages(s, opens), x) == 0
  {
    if opens != [] {
      var n := |opens| - 1;
      OnlyOpens(s, opens[..n], x);
      CountConcat(OpenMessages(s, opens[..n]), [OpenMessage(s, opens[n])], x);
      CountOne(OpenMessage(s, opens[n]), x);
    }
  }

  /** Each program a followed process started is reported exactly once, with its pid and time. */
  lemma ExecsConserved(s: State, inputs: seq<Input>, env: Env, time: nat, pid: Pid)
    requires IsNew(s)
    ensures var x := Message(time, pid, 0, EXEC_ERASED);
            Count(Recording(s, inputs, env), x) == Count(AllFacts(s, inputs), x)
  {
    hide Recording, AllFacts, AllCancelled;
    var x := Message(time, pid, 0, EXEC_ERASED);
    RecordingBalances(s, inputs, env, x);
    NoExecAmong(AllCancelled(s, inputs), x);
    var t := Run(s, inputs).state;
    OnlyOpens(t, t.heldOpens, x);
  }
}
