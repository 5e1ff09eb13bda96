/**
 What happens when a program starts in a process whose exit is held: the exit goes on waiting, and what was
 only waiting for the program before may be passed on ahead of it. This says exactly when that puts a
 recording out of order.
 */
module Overtaking {
  import opened Basics
  import opened Messages
  import opened Ordering
  import opened CollectorModel
  import opened DeliveryOrder
  import opened Ledger

  // ---- What a program's start passes on ----

  /** A program's start in a followed process. */
  predicate IsStart(s: State, r: Record) {
    r.Code() == DATA_EXEC && IsFollowedThread(s, r.thread)
  }

  /** Whether the program is read there and then. */
  predicate IsReadAtOnce(s: State, r: Record, env: Env)
    requires IsStart(s, r)
  {
    || (s.threads[r.thread] == s.root && s.rootCommand.Some?)
    || CommandLine(r.timestamp, r.args[2], env.inspect(s.threads[r.thread])).Read?
  }

  /** The unread programs but for the first of the process's own, which the new one takes the place of. */
  function Others(pending: seq<Pending>, pid: Pid): seq<Pending> {
    if HasPending(pending, pid)
    then pending[..FirstPending(pending, pid)] + pending[FirstPending(pending, pid) + 1..]
    else pending
  }

  /** Whether no program is left unread that something of this time would have to wait for. */
  predicate IsPassed(s: State, r: Record, env: Env, time: nat)
    requires IsStart(s, r)
  {
    && (forall p | p in Others(s.argvRetries, s.threads[r.thread]) :: time < p.time)
    && (IsReadAtOnce(s, r, env) || time < r.timestamp)
  }

  /** Something later than a held exit is passed on: a message that waited, or the new program's own. */
  predicate IsOvertaken(s: State, r: Record, env: Env, e: HeldExit)
    requires IsStart(s, r)
  {
    && e in s.heldExits
    && ((exists m | m in s.queued :: e.time < m.time && IsPassed(s, r, env, m.time))
        || (IsReadAtOnce(s, r, env) && e.time < r.timestamp && IsPassed(s, r, env, r.timestamp)))
  }

  lemma SettledPending(s: State, pid: Pid)
    ensures var step := SettleEarlier(s, pid);
            && step.state.argvRetries == Others(s.argvRetries, pid) && step.state.heldExits == s.heldExits
            && step.state.root == s.root && step.state.rootCommand == s.rootCommand
            && |step.out| <= 1
            && forall m | m in step.out :: exists p :: p in s.argvRetries && p.pid == pid && p.time == m.time
  {
    hide Settled;
    if HasPending(s.argvRetries, pid) {
      assert s.argvRetries[FirstPending(s.argvRetries, pid)] in s.argvRetries;
    }
  }

  /** What the start leaves unread and held, and what it reports. */
  lemma StartLeaves(s: State, r: Record, env: Env)
    requires IsStart(s, r)
    ensures var step, pid := Interpret(s, r, env), s.threads[r.thread];
            && step.state.heldExits == s.heldExits && step.state.heldOpens == s.heldOpens
            && (forall p | p in Others(s.argvRetries, pid) :: p in step.state.argvRetries)
            && (forall p | p in step.state.argvRetries ::
                  p in Others(s.argvRetries, pid) || (!IsReadAtOnce(s, r, env) && p.time == r.timestamp))
            && (!IsReadAtOnce(s, r, env) ==> exists p :: p in step.state.argvRetries && p.time == r.timestamp)
            && (IsReadAtOnce(s, r, env) ==> exists m :: m in step.out && m.time == r.timestamp)
            && (forall m | m in step.out ::
                  || (IsReadAtOnce(s, r, env) && m.time == r.timestamp)
                  || exists p :: p in s.argvRetries && p.pid == pid && p.time == m.time)
  {
    hide SettleEarlier, CloseOnExec, Others, StartProgram;
    var pid := s.threads[r.thread];
    var s1 := CloseOnExec(ReplaceAsker(Noticed(s, r), r.thread), pid);
    var earlier := SettleEarlier(s1, pid);
    SettledPending(s1, pid);
    StartTells(earlier.state, pid, r.timestamp, r.args[2], env.inspect(pid));
    var next := StartProgram(earlier.state, pid, r.timestamp, r.args[2], env.inspect(pid));
    assert Interpret(s, r, env) == Step(next.state, earlier.out + next.out);
  }

  lemma StartTells(s: State, pid: Pid, time: nat, image: Word, answer: Answer)
    ensures var step := StartProgram(s, pid, time, image, answer);
            if (pid == s.root && s.rootCommand.Some?) || CommandLine(time, image, answer).Read?
            then step.state.argvRetries == s.argvRetries && |step.out| == 1 && step.out[0].time == time
            else step.out == [] && exists p: Pending :: p.time == time && step.state.argvRetries == s.argvRetries + [p]
  {
    hide ExecMessage, CommandLine;
  }

  /** What no unread program comes before is passed on, and nothing else. */
  lemma PassedJustWhen(s: State, batch: seq<Message>, m: Message)
    requires m in batch
    ensures m in Release(s, batch).out <==> forall p | p in s.argvRetries :: m.time < p.time
  {
    hide SortByTime, Earliest;
    var sorted := SortByTime(batch);
    SortSorts(batch);
    SortPermutes(batch);
    assert m in multiset(batch);
    assert m in multiset(sorted);
    var i :| 0 <= i < |sorted| && sorted[i] == m;
    var out := Release(s, batch).out;
    if s.argvRetries == [] {
      assert out[i] == m;
    } else {
      var n := ReadyCount(sorted, Earliest(s.argvRetries));
      var j :| 0 <= j < |s.argvRetries| && Earliest(s.argvRetries) == s.argvRetries[j].time;
      assert s.argvRetries[j] in s.argvRetries;
      if m.time < Earliest(s.argvRetries) {
        assert i < n && sorted[..n][i] == m;
        forall p | p in s.argvRetries ensures m.time < p.time {
          EarliestOfAll(s.argvRetries, p);
        }
      }
    }
  }

  lemma OnlyBatch(s: State, batch: seq<Message>, m: Message)
    requires m in Release(s, batch).out
    ensures m in batch
  {
    hide SortByTime, Earliest;
    SortPermutes(batch);
    assert m in SortByTime(batch);
    assert m in multiset(SortByTime(batch));
    assert m in multiset(batch);
  }

  /** What of the queue and of the record's own messages is passed on. */
  lemma PassedByStart(s: State, r: Record, env: Env, m: Message)
    requires IsStart(s, r)
    ensures m in s.queued && IsPassed(s, r, env, m.time) ==> m in Observe(s, r, env).out
    ensures m in Interpret(Dequeued(s), r, env).out && IsPassed(s, r, env, m.time) ==> m in Observe(s, r, env).out
    ensures m in Observe(s, r, env).out ==>
              (m in s.queued || m in Interpret(Dequeued(s), r, env).out) && IsPassed(s, r, env, m.time)
  {
    hide Interpret, Release, Others, CommandLine;
    var step := Interpret(Dequeued(s), r, env);
    StartLeaves(Dequeued(s), r, env);
    var batch := s.queued + step.out;
    if m in Release(step.state, batch).out {
      OnlyBatch(step.state, batch, m);
    }
    if m in batch {
      PassedJustWhen(step.state, batch, m);
    }
  }

  /** What is still held at the end is reported by the flush. */
  lemma FlushReports(s: State, env: Env, e: HeldExit)
    requires e in s.heldExits
    ensures ExitMessage(e) in Flush(s, env).out
  {
    hide RetryCommandLines, EndProcesses, SortByTime;
    FlushReleases(s, env);
    var batch := s.queued + FlushStep(Dequeued(s), env).out;
    var i :| 0 <= i < |s.heldExits| && s.heldExits[i] == e;
    assert ExitMessages(s.heldExits)[i] == ExitMessage(e);
    assert ExitMessage(e) in ExitMessages(s.heldExits);
    SortPermutes(batch);
    assert ExitMessage(e) in multiset(batch);
    assert ExitMessage(e) in multiset(SortByTime(batch));
  }

  lemma RunMore(s: State, inputs: seq<Input>, input: Input)
    ensures var before, last := Run(s, inputs), Next(Run(s, inputs).state, input);
            Run(s, inputs + [input]) == Step(last.state, before.out + last.out)
  {
    hide Next;
    assert (inputs + [input])[..|inputs|] == inputs;
  }

  lemma StartHolds(s: State, r: Record, env: Env)
    requires IsStart(s, r)
    ensures Observe(s, r, env).state.heldExits == s.heldExits && Observe(s, r, env).state.heldOpens == s.heldOpens
  {
    hide Interpret, Others, CommandLine;
    StartLeaves(Dequeued(s), r, env);
  }

  /** Whatever else waits, and however the program is read: an exit that is overtaken leaves the recording unsorted. */
  lemma OvertakenRecording(s: State, inputs: seq<Input>, r: Record, env: Env, e: HeldExit, last: Env)
    requires IsStart(Run(s, inputs).state, r) && IsOvertaken(Run(s, inputs).state, r, env, e)
    ensures !Sorted(Recording(s, inputs + [Seen(r, env)], last))
  {
    hide Observe, Interpret, Flush, IsPassed, IsReadAtOnce, Run;
    var before := Run(s, inputs);
    var step := Observe(before.state, r, env);
    RunMore(s, inputs, Seen(r, env));
    StartHolds(before.state, r, env);
    FlushReports(step.state, last, e);
    var m := Overtaker(before.state, r, env, e);
    var flushed := Flush(step.state, last).out;
    var i :| 0 <= i < |step.out| && step.out[i] == m;
    var j :| 0 <= j < |flushed| && flushed[j] == ExitMessage(e);
    var all := Recording(s, inputs + [Seen(r, env)], last);
    assert all[|before.out| + i] == m && all[|before.out + step.out| + j] == ExitMessage(e);
  }

  lemma Overtaker(s: State, r: Record, env: Env, e: HeldExit) returns (m: Message)
    requires IsStart(s, r) && IsOvertaken(s, r, env, e)
    ensures m in Observe(s, r, env).out && e.time < m.time
  {
    hide Observe, Interpret, IsPassed, Others, CommandLine;
    if queued :| queued in s.queued && e.time < queued.time && IsPassed(s, r, env, queued.time) {
      m := queued;
    } else {
      StartLeaves(Dequeued(s), r, env);
      SamePassing(s, r, env);
      m :| m in Interpret(Dequeued(s), r, env).out && m.time == r.timestamp;
    }
    PassedByStart(s, r, env, m);
  }

  lemma SamePassing(s: State, r: Record, env: Env)
    requires IsStart(s, r)
    ensures IsStart(Dequeued(s), r) && IsReadAtOnce(Dequeued(s), r, env) == IsReadAtOnce(s, r, env)
  {
    hide CommandLine;
  }

  // ---- Exactly when ----

  /** Only an exit of the process itself can be overtaken. */
  lemma OvertakenIsItsOwn(s: State, sent: seq<Message>, r: Record, env: Env, e: HeldExit)
    requires InOrderSoFar(s, sent) && IsStart(s, r) && IsOvertaken(s, r, env, e)
    ensures e.pid == s.threads[r.thread]
  {
    hide Earliest, CommandLine;
    var pid := s.threads[r.thread];
    if e.pid != pid {
      var p := StillPending(s.argvRetries, pid, e);
      assert false;
    }
  }

  lemma StillPending(pending: seq<Pending>, pid: Pid, e: HeldExit) returns (p: Pending)
    requires ExitFollows(pending, e) && e.pid != pid
    ensures p in Others(pending, pid) && p.time <= e.time
  {
    var j :| 0 <= j < |pending| && pending[j].pid == e.pid;
    p := pending[j];
    assert p in pending;
    if HasPending(pending, pid) {
      var i := FirstPending(pending, pid);
      assert Others(pending, pid)[if j < i then j else j - 1] == p;
    }
  }

  /** What is passed on and overtakes nothing is no later than any held exit. */
  lemma NoneOvertaken(s: State, sent: seq<Message>, r: Record, env: Env, e: HeldExit, m: Message)
    requires InOrderSoFar(s, sent) && IsStart(s, r) && e in s.heldExits && !IsOvertaken(s, r, env, e)
    requires m in Observe(s, r, env).out
    ensures m.time <= e.time
  {
    hide Observe, Interpret, Others, CommandLine, Earliest, Sorted, AfterSent;
    var pid := s.threads[r.thread];
    PassedByStart(s, r, env, m);
    SamePassing(s, r, env);
    StartLeaves(Dequeued(s), r, env);
    if m.time > e.time {
      assert ExitFollows(s.argvRetries, e);
      if e.pid != pid {
        var p := StillPending(s.argvRetries, pid, e);
      }
    }
  }

  lemma CloseIgnoresExits(s: State, pid: Pid)
    ensures CloseOnExec(s.(heldExits := []), pid) == CloseOnExec(s, pid).(heldExits := [])
  {
    hide KeptOnExec;
  }

  lemma SettleIgnoresExits(s: State, pid: Pid)
    ensures var plain := s.(heldExits := []);
            && SettleEarlier(plain, pid).out == SettleEarlier(s, pid).out
            && SettleEarlier(plain, pid).state == SettleEarlier(s, pid).state.(heldExits := [])
  {
    hide FirstPending, HasPending, TrimDashes;
  }

  lemma ReadIgnoresExits(s: State, pid: Pid, time: nat, image: Word, answer: Answer)
    ensures var plain := s.(heldExits := []);
            && StartProgram(plain, pid, time, image, answer).out == StartProgram(s, pid, time, image, answer).out
            && StartProgram(plain, pid, time, image, answer).state
               == StartProgram(s, pid, time, image, answer).state.(heldExits := [])
  {
    hide CommandLine;
  }

  lemma InterpretIgnoresExits(s: State, r: Record, env: Env)
    requires IsStart(s, r)
    ensures var plain := s.(heldExits := []);
            && Interpret(plain, r, env).out == Interpret(s, r, env).out
            && Interpret(plain, r, env).state == Interpret(s, r, env).state.(heldExits := [])
  {
    hide SettleEarlier, CloseOnExec, StartProgram;
    var pid := s.threads[r.thread];
    var s1 := ReplaceAsker(Noticed(s, r), r.thread);
    assert CloseOnExec(s1.(heldExits := []), pid) == CloseOnExec(s1, pid).(heldExits := []) by {
      CloseIgnoresExits(s1, pid);
    }
    SettleIgnoresExits(CloseOnExec(s1, pid), pid);
    ReadIgnoresExits(SettleEarlier(CloseOnExec(s1, pid), pid).state, pid, r.timestamp, r.args[2], env.inspect(pid));
  }

  /** A program's start pays no heed to the exits held. */
  lemma StartIgnoresExits(s: State, r: Record, env: Env)
    requires IsStart(s, r)
    ensures var plain := s.(heldExits := []);
            && IsStart(plain, r)
            && Observe(plain, r, env).out == Observe(s, r, env).out
            && Observe(plain, r, env).state == Observe(s, r, env).state.(heldExits := [])
  {
    hide Interpret, SortByTime, Earliest;
    InterpretIgnoresExits(Dequeued(s), r, env);
    assert Dequeued(s.(heldExits := [])) == Dequeued(s).(heldExits := []);
  }

  /** A flush with no opens to place comes after what was sent if its exits do. */
  lemma FlushFollows(s: State, sent: seq<Message>, env: Env)
    requires InOrderSoFar(s.(heldExits := []), sent) && s.heldOpens == []
    requires forall e | e in s.heldExits :: AfterSent(sent, e.time)
    ensures Sorted(Flush(s, env).out) && forall m | m in Flush(s, env).out :: AfterSent(sent, m.time)
  {
    hide SortByTime, Sorted, AfterSent, EndProcesses, Earliest, RetryList;
    var dequeued := Dequeued(s);
    var batch := s.queued + FlushStep(dequeued, env).out;
    FlushReleases(s, env);
    SortSorts(batch);
    SortPermutes(batch);
    var retried := RetryList(dequeued.(heldOpens := []), s.argvRetries, env, true);
    RetryListFrom(dequeued.(heldOpens := []), s.argvRetries, env, true);
    var exits := ExitMessages(s.heldExits);
    assert OpenMessages(dequeued, []) == [];
    assert FlushStep(dequeued, env).out == retried.out + exits;
    forall m | m in Flush(s, env).out ensures AfterSent(sent, m.time) {
      assert m in multiset(batch);
      assert m in batch;
      if m in retried.out {
        var p :| p in s.argvRetries && p.time == m.time;
      } else if m !in s.queued {
        var i :| 0 <= i < |exits| && exits[i] == m;
        assert s.heldExits[i] in s.heldExits;
      }
    }
  }

  lemma WithoutExitsInOrder(s: State, sent: seq<Message>, r: Record)
    requires InOrderSoFar(s, sent) && s.latest <= r.timestamp
    ensures var plain := s.(heldExits := []); InOrderSoFar(plain, sent) && InTime(plain, r)
    ensures forall e | e in s.heldExits :: AfterSent(sent, e.time)
  {
    hide Earliest, Sorted, AfterSent;
    HeldAfterSent(s, sent);
  }

  /**
   With no opens to place, a recording that was in time and ends with a program's start is in order if and
   only if the start leaves no held exit overtaken; and the only one it can overtake is of the same process.
   */
  lemma SortedJustWhenNotOvertaken(s: State, inputs: seq<Input>, r: Record, env: Env, last: Env)
    requires IsNew(s) && RunInTime(s, inputs) && Run(s, inputs).state.heldOpens == []
    requires Run(s, inputs).state.latest <= r.timestamp && IsStart(Run(s, inputs).state, r)
    ensures var t := Run(s, inputs).state;
            && (Sorted(Recording(s, inputs + [Seen(r, env)], last)) <==> !exists e :: IsOvertaken(t, r, env, e))
            && forall e | IsOvertaken(t, r, env, e) :: e.pid == t.threads[r.thread]
  {
    hide Run, Observe, Flush, IsOvertaken, InOrderSoFar, InTime, AfterSent, RunInTime;
    var sent, t := Run(s, inputs).out, Run(s, inputs).state;
    NewInOrder(s);
    RunInOrder(s, [], inputs);
    assert [] + sent == sent;
    forall e | IsOvertaken(t, r, env, e) ensures e.pid == t.threads[r.thread] {
      OvertakenIsItsOwn(t, sent, r, env, e);
    }
    if e :| IsOvertaken(t, r, env, e) {
      OvertakenRecording(s, inputs, r, env, e, last);
    } else {
      NotOvertaken(t, sent, r, env, last);
      RunMore(s, inputs, Seen(r, env));
    }
  }

  lemma NewInOrder(s: State)
    requires IsNew(s)
    ensures InOrderSoFar(s, [])
  {
  }

  lemma NotOvertaken(s: State, sent: seq<Message>, r: Record, env: Env, last: Env)
    requires InOrderSoFar(s, sent) && IsStart(s, r) && s.heldOpens == [] && s.latest <= r.timestamp
    requires !exists e :: IsOvertaken(s, r, env, e)
    ensures var step := Observe(s, r, env); Sorted(sent + step.out + Flush(step.state, last).out)
  {
    hide Observe, Flush, IsStart, IsOvertaken, InOrderSoFar, InTime;
    var plain, step := s.(heldExits := []), Observe(s, r, env);
    WithoutExitsInOrder(s, sent, r);
    StartIgnoresExits(s, r, env);
    StartHolds(s, r, env);
    ObserveInOrder(plain, sent, r, env);
    StartHolds(plain, r, env);
    assert step.state.(heldExits := []) == Observe(plain, r, env).state;
    forall e | e in step.state.heldExits ensures AfterSent(sent + step.out, e.time) {
      forall m | m in step.out ensures m.time <= e.time {
        NoneOvertaken(s, sent, r, env, e, m);
      }
    }
    FlushFollows(step.state, sent + step.out, last);
    InOrderIsSorted(step.state.(heldExits := []), sent + step.out);
    SortedAfter(sent + step.out, Flush(step.state, last).out);
  }

  lemma InOrderIsSorted(s: State, sent: seq<Message>)
    requires InOrderSoFar(s, sent)
    ensures Sorted(sent)
  {
  }

  lemma SortedAfter(a: seq<Message>, b: seq<Message>)
    requires Sorted(a) && Sorted(b) && forall m | m in b :: AfterSent(a, m.time)
    ensures Sorted(a + b)
  {
    forall j | 0 <= j < |b| ensures AfterSent(a, b[j].time) {
      assert b[j] in b;
    }
    SortedConcat(a, b);
  }

  // ---- Records that lead there ----

  const ROOT_THREAD: Tid := 10
  const CHILD_THREAD: Tid := 20
  const OTHER_THREAD: Tid := 30

  function Forks(time: nat, thread: Tid, pid: Word): Record {
    Record(time, [thread, pid, 0, 0], ROOT_THREAD, NEWTHREAD)
  }

  function Runs(time: nat): Record {
    Record(time, [0, 0, 0, 0], CHILD_THREAD, DATA_EXEC)
  }

  function Ends(time: nat): Record {
    Record(time, [0, 0, 0, 0], CHILD_THREAD, PROC_EXIT + 2)
  }

  const UNREAD := Pending(2, 2, 0, true, None, false)
  const ENDED := HeldExit(2, 3, 0)
  const FORKED := Message(4, 1, 0, Fork(3))

  /** The collector follows the root, 1, and perhaps its child, 2, each by its thread. */
  predicate Follows(s: State, child: bool, pending: seq<Pending>, exits: seq<HeldExit>, queued: seq<Message>,
                    latest: nat) {
    && s.root == 1 && s.newTasks == map[] && s.replaced == {} && s.rootCommand == None && 1 in s.processes
    && Get(s.threads, ROOT_THREAD) == Some(1)
    && (child ==> Get(s.threads, CHILD_THREAD) == Some(2) && 2 in s.processes)
    && s.argvRetries == pending && s.heldExits == exits && s.queued == queued && s.latest == latest
  }

  lemma NothingToRelease(s: State)
    ensures Release(s, []) == Step(s.(queued := []), [])
  {
    hide Earliest;
    assert SortByTime([]) == [];
  }

  lemma ForkWaits(s: State)
    requires s.argvRetries == [UNREAD]
    ensures Release(s, [FORKED]) == Step(s.(queued := [FORKED]), [])
  {
    assert SortByTime([FORKED]) == [FORKED];
    assert ReadyCount([FORKED], Earliest([UNREAD])) == 0;
  }

  lemma ForkPasses(s: State, m: Message)
    requires s.argvRetries == []
    ensures Release(s, [m]) == Step(s.(queued := []), [m])
  {
    hide Earliest;
    assert SortByTime([m]) == [m];
  }

  lemma Codes(time: nat, thread: Tid, pid: Word)
    ensures Forks(time, thread, pid).Code() == NEWTHREAD && Runs(time).Code() == DATA_EXEC
    ensures Ends(time).Code() == PROC_EXIT && Ends(time).IsEnd()
  {
  }

  /** What a fork of the root's does, but for its place in the queue. */
  lemma RootForks(s: State, time: nat, thread: Tid, pid: Word, exits: seq<HeldExit>, pending: seq<Pending>,
                  latest: nat, child: bool, env: Env)
    requires Follows(s, child, pending, exits, [], latest) && latest < time && 1 < pid < 0x8000_0000
    requires WithoutPid(exits, pid) == exits && thread != ROOT_THREAD
    requires if child then thread != CHILD_THREAD else thread == CHILD_THREAD && pid == 2
    ensures var step := Interpret(s, Forks(time, thread, pid), env);
            Follows(step.state, true, pending, exits, [], time) && step.out == [Message(time, 1, 0, Fork(pid))]
  {
    hide WithoutPid;
    Codes(time, thread, pid);
    assert AsI32(pid) == pid;
  }

  lemma ChildForked(s: State, env: Env)
    requires Follows(s, false, [], [], [], 0)
    ensures Follows(Observe(s, Forks(1, CHILD_THREAD, 2), env).state, true, [], [], [], 1)
  {
    hide Interpret, Release;
    assert Dequeued(s) == s;
    RootForks(s, 1, CHILD_THREAD, 2, [], [], 0, false, env);
    var step := Interpret(s, Forks(1, CHILD_THREAD, 2), env);
    assert [] + step.out == step.out;
    ForkPasses(step.state, step.out[0]);
  }

  lemma ChildRan(s: State, env: Env)
    requires Follows(s, true, [], [], [], 1) && env.inspect(2) == NoSuchProcess
    ensures var step := Interpret(s, Runs(2), env); Follows(step.state, true, [UNREAD], [], [], 2) && step.out == []
  {
    hide KeptOnExec;
    Codes(2, 0, 0);
    assert s.newTasks - {CHILD_THREAD} == map[];
    assert !HasPending([], 2);
    assert s.argvRetries + [UNREAD] == [UNREAD];
  }

  lemma ChildRuns(s: State, env: Env)
    requires Follows(s, true, [], [], [], 1) && env.inspect(2) == NoSuchProcess
    ensures Follows(Observe(s, Runs(2), env).state, true, [UNREAD], [], [], 2)
  {
    hide Interpret, Release;
    assert Dequeued(s) == s;
    ChildRan(s, env);
    assert s.queued + [] == [];
    NothingToRelease(Interpret(s, Runs(2), env).state);
  }

  lemma ChildEnded(s: State, env: Env)
    requires Follows(s, true, [UNREAD], [], [], 2)
    ensures Interpret(s, Ends(3), env) == Step(s.(latest := 3, heldExits := [ENDED]), [])
  {
    hide EndProcesses;
    Codes(3, 0, 0);
    assert [UNREAD][0].pid == 2;
    assert AsI32(0) == 0;
    assert s.heldExits + [ENDED] == [ENDED];
    var held := Noticed(s, Ends(3)).(heldExits := [ENDED]);
    assert Believable([ENDED], [UNREAD]) == [] && Waiting([ENDED], [UNREAD]) == [ENDED];
    NoneEnds(held);
  }

  lemma NoneEnds(s: State)
    ensures EndProcesses(s, []) == s && ExitMessages([]) == []
  {
    assert s.processes - {} == s.processes && s.names - {} == s.names;
  }

  lemma ChildEnds(s: State, env: Env)
    requires Follows(s, true, [UNREAD], [], [], 2)
    ensures Follows(Observe(s, Ends(3), env).state, true, [UNREAD], [ENDED], [], 3)
  {
    hide Interpret, Release;
    assert Dequeued(s) == s;
    ChildEnded(s, env);
    assert s.queued + [] == [];
    NothingToRelease(s.(latest := 3, heldExits := [ENDED]));
  }

  lemma OtherForked(s: State, env: Env)
    requires Follows(s, true, [UNREAD], [ENDED], [], 3)
    ensures Follows(Observe(s, Forks(4, OTHER_THREAD, 3), env).state, true, [UNREAD], [ENDED], [FORKED], 4)
  {
    hide Interpret, Release;
    assert Dequeued(s) == s;
    assert WithoutPid([ENDED], 3) == [ENDED];
    RootForks(s, 4, OTHER_THREAD, 3, [ENDED], [UNREAD], 3, true, env);
    var step := Interpret(s, Forks(4, OTHER_THREAD, 3), env);
    assert [] + step.out == step.out;
    ForkWaits(step.state);
  }

  function Begun(env: Env): seq<Input> {
    [Seen(Forks(1, CHILD_THREAD, 2), env), Seen(Runs(2), env), Seen(Ends(3), env), Seen(Forks(4, OTHER_THREAD, 3), env)]
  }

  lemma FourSeen(s: State, a: Input, b: Input, c: Input, d: Input)
    ensures Run(s, [a, b, c, d]).state
         == Next(Next(Next(Next(s, a).state, b).state, c).state, d).state
  {
    hide Next;
    assert [a, b, c, d][..3] == [a, b, c] && [a, b, c][..2] == [a, b] && [a, b][..1] == [a] && [a][..0] == [];
    assert Run(s, []).state == s;
    assert Run(s, [a]).state == Next(s, a).state;
    assert Run(s, [a, b]).state == Next(Next(s, a).state, b).state;
    assert Run(s, [a, b, c]).state == Next(Next(Next(s, a).state, b).state, c).state;
  }

  lemma Overtakes(s: State, env: Env)
    requires Follows(s, true, [UNREAD], [ENDED], [FORKED], 4)
    ensures IsStart(s, Runs(5)) && IsOvertaken(s, Runs(5), env, ENDED)
  {
    hide CommandLine;
    Codes(5, 0, 0);
    assert [UNREAD][0].pid == 2;
    assert Others([UNREAD], 2) == [];
    assert FORKED in s.queued && IsPassed(s, Runs(5), env, FORKED.time);
  }

  /**
   From a new collector: the root forks a child, which starts a program that cannot be read, and exits; the
   root forks another; then the child's thread starts a program after all. The exit, of time 3, is recorded
   after the fork of time 4, whatever the flush reads.
   */
  lemma ARecordingOutOfOrder(cwd: Text, window: nat, fileEvents: bool, env: Env, last: Env)
    requires env.inspect(2) == NoSuchProcess
    ensures var s := Initial(1, cwd, window, fileEvents, map[ROOT_THREAD := 1], None);
            IsNew(s) && !Sorted(Recording(s, Begun(env) + [Seen(Runs(5), env)], last))
  {
    hide Observe, Recording;
    var s := Initial(1, cwd, window, fileEvents, map[ROOT_THREAD := 1], None);
    var s1 := Observe(s, Forks(1, CHILD_THREAD, 2), env).state;
    ChildForked(s, env);
    var s2 := Observe(s1, Runs(2), env).state;
    ChildRuns(s1, env);
    var s3 := Observe(s2, Ends(3), env).state;
    ChildEnds(s2, env);
    OtherForked(s3, env);
    FourSeen(s, Begun(env)[0], Begun(env)[1], Begun(env)[2], Begun(env)[3]);
    Overtakes(Observe(s3, Forks(4, OTHER_THREAD, 3), env).state, env);
    OvertakenRecording(s, Begun(env), Runs(5), env, ENDED, last);
  }
}
