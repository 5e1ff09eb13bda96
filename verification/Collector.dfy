/** The collector itself: fields updated in place, proved against `CollectorModel`. */
module CollectorObject {
  import opened Basics
  import opened Messages
  import opened Ordering
  import opened Paths
  import opened Fragments
  import opened CollectorModel

  // ---- What the loops need ----

  /** Taking out the first believable exit leaves the others, and whatever waits. */
  lemma {:induction false} TakeBelievable(exits: seq<HeldExit>, pending: seq<Pending>, i: nat)
    requires i < |exits| && !HasPending(pending, exits[i].pid)
    requires forall j | 0 <= j < i :: HasPending(pending, exits[j].pid)
    ensures Believable(exits, pending) == [exits[i]] + Believable(exits[..i] + exits[i + 1..], pending)
    ensures Waiting(exits, pending) == Waiting(exits[..i] + exits[i + 1..], pending)
  {
    var rest := exits[..i] + exits[i + 1..];
    if i == 0 {
      assert rest == exits[1..];
    } else {
      TakeBelievable(exits[1..], pending, i - 1);
      assert exits[1..][..i - 1] + exits[1..][i..] == rest[1..];
    }
  }

  /** `believed` are the exits already taken out of `all`, and `rest` is what is left of it. */
  predicate Taken(all: seq<HeldExit>, believed: seq<HeldExit>, rest: seq<HeldExit>, pending: seq<Pending>) {
    && Believable(all, pending) == believed + Believable(rest, pending)
    && Waiting(all, pending) == Waiting(rest, pending)
  }

  lemma TakeOne(all: seq<HeldExit>, believed: seq<HeldExit>, rest: seq<HeldExit>, pending: seq<Pending>, i: nat)
    requires Taken(all, believed, rest, pending)
    requires i < |rest| && IsNextBelievable(rest, pending, i)
    ensures Taken(all, believed + [rest[i]], rest[..i] + rest[i + 1..], pending)
  {
    TakeBelievable(rest, pending, i);
    ConcatAssociates(believed, [rest[i]], Believable(rest[..i] + rest[i + 1..], pending));
  }

  lemma {:induction false} NothingBelievable(exits: seq<HeldExit>, pending: seq<Pending>)
    requires forall j | 0 <= j < |exits| :: HasPending(pending, exits[j].pid)
    ensures Believable(exits, pending) == [] && Waiting(exits, pending) == exits
  {
    if exits != [] {
      NothingBelievable(exits[1..], pending);
    }
  }

  lemma {:induction false} ExitMessagesAppend(exits: seq<HeldExit>, exit: HeldExit)
    ensures ExitMessages(exits + [exit]) == ExitMessages(exits) + [ExitMessage(exit)]
  {
  }

  lemma NoPids()
    ensures PidsOf([]) == {} && ExitMessages([]) == []
  {
  }

  lemma PidsOfAppend(exits: seq<HeldExit>, exit: HeldExit)
    ensures PidsOf(exits + [exit]) == PidsOf(exits) + {exit.pid}
  {
    assert (exits + [exit])[..|exits|] == exits;
  }

  lemma RemoveOneMore<V>(m: map<Pid, V>, gone: set<Pid>, pid: Pid, keep: set<Pid>)
    ensures m - ((gone + {pid}) - keep) == (m - (gone - keep)) - ({pid} - keep)
  {
  }

  /** The exit at `index` is the first that waits for nothing, if any does. */
  predicate IsNextBelievable(exits: seq<HeldExit>, pending: seq<Pending>, index: nat) {
    && index <= |exits|
    && (forall j | 0 <= j < index :: HasPending(pending, exits[j].pid))
    && (index < |exits| ==> !HasPending(pending, exits[index].pid))
  }

  lemma {:induction false} WithoutPidSplit(exits: seq<HeldExit>, pid: Pid, i: nat)
    requires i < |exits|
    ensures WithoutPid(exits[..i + 1], pid)
         == WithoutPid(exits[..i], pid) + if exits[i].pid == pid then [] else [exits[i]]
  {
    if i == 0 {
      assert exits[..1] == [exits[0]] && exits[..0] == [];
      assert exits[..1][1..] == [];
    } else {
      assert exits[1..][..i] == exits[..i + 1][1..] && exits[1..][..i - 1] == exits[..i][1..];
      WithoutPidSplit(exits[1..], pid, i - 1);
    }
  }

  /** Tries each pending program once, in order. None of them changes what another one finds. */
  method RetryEach(s: State, pending: seq<Pending>, env: Env, lastChance: bool)
    returns (kept: seq<Pending>, emitted: seq<Message>, lost: nat)
    ensures RetriedAll(kept, emitted, lost) == RetryList(s, pending, env, lastChance)
  {
    kept, emitted, lost := [], [], 0;
    var i := 0;
    while i < |pending|
      invariant 0 <= i <= |pending|
      invariant RetriedAll(kept, emitted, lost) == RetryList(s, pending[..i], env, lastChance)
    {
      assert pending[..i + 1][..i] == pending[..i];
      match Retry(s, pending[i], env.inspect(pending[i].pid), lastChance) {
        case Keep(p) =>
          kept := kept + [p];
        case Report(m, count) =>
          emitted := emitted + [m];
          lost := lost + count;
      }
      i := i + 1;
    }
    assert pending[..|pending|] == pending;
  }

  class Collector {
    const root: Pid
    const window: nat
    const fileEvents: bool
    var processes: map<Pid, Process>
    var threads: map<Tid, Pid>
    var lookups: map<Tid, Gathered>
    var calls: map<Tid, Call>
    var vnodePaths: map<Word, Text>
    var names: map<Pid, Text>
    var heldExits: seq<HeldExit>
    var newTasks: map<Tid, Tid>
    var replaced: set<Tid>
    var argvRetries: seq<Pending>
    var rootCommand: Option<seq<Text>>
    var latest: nat
    var created: set<Text>
    var heldOpens: seq<HeldOpen>
    var queued: seq<Message>
    var dropped: nat
    var started: nat
    var unnamed: nat

    /** The fields as one value. */
    function Now(): State
      reads this
    {
      State(root, window, fileEvents, processes, threads, lookups, calls, vnodePaths, names, heldExits,
            newTasks, replaced, argvRetries, rootCommand, latest, created, heldOpens, queued,
            dropped, started, unnamed)
    }

    constructor (root: Pid, rootCwd: Text, window: nat, fileEvents: bool)
      ensures Now() == Initial(root, rootCwd, window, fileEvents, map[], None)
    {
      this.root, this.window, this.fileEvents := root, window, fileEvents;
      processes := map[root := Process(Some(Normalized(rootCwd)), map[])];
      threads, lookups, calls, vnodePaths, names := map[], map[], map[], map[], map[];
      heldExits, newTasks, replaced, argvRetries := [], map[], {}, [];
      rootCommand, latest, created, heldOpens, queued := None, 0, {}, [], [];
      dropped, started, unnamed := 0, 0, 0;
    }

    method SetRootCommand(argv: seq<Text>)
      modifies `rootCommand
      ensures Now() == old(Now()).(rootCommand := Some(argv))
    {
      rootCommand := Some(argv);
    }

    /** Adds the processes of threads older than the trace. */
    method SeedThreads(map_: map<Tid, Pid>)
      modifies `threads
      ensures Now() == old(Now()).(threads := old(threads) + map_)
    {
      threads := threads + map_;
    }

    // ---- The three ways in ----

    method ObserveRecord(r: Record, env: Env) returns (delivered: seq<Message>)
      modifies this
      ensures Step(Now(), delivered) == Observe(old(Now()), r, env)
    {
      var waiting := queued;
      queued := [];
      var emitted := InterpretRecord(r, env);
      delivered := ReleaseReady(waiting + emitted);
    }

    /** Retries unread programs, believes what exits it may, and passes on what is due. */
    method TickOnce(env: Env) returns (delivered: seq<Message>)
      modifies this
      ensures Step(Now(), delivered) == Tick(old(Now()), env)
    {
      var waiting := queued;
      queued := [];
      var execs := RetryPending(env, false);
      var exits := BelieveHeldExits();
      delivered := ReleaseReady(waiting + (execs + exits));
    }

    /** Ends the recording: whatever waits for anything is reported as well as it can be. */
    method FlushAll(env: Env) returns (delivered: seq<Message>)
      modifies this
      ensures Step(Now(), delivered) == Flush(old(Now()), env)
    {
      var waiting := queued;
      queued := [];
      var emitted := FlushHeld(env);
      delivered := ReleaseReady(waiting + emitted);
    }

    /** The earliest start among the unread programs. */
    method EarliestUnread() returns (unread: nat)
      requires argvRetries != []
      ensures unread == Earliest(argvRetries)
    {
      hide Earliest;
      unread := argvRetries[0].time;
      var i := 1;
      FirstEarliest(argvRetries[0]);
      assert argvRetries[..1] == [argvRetries[0]];
      while i < |argvRetries|
        invariant 1 <= i <= |argvRetries|
        invariant unread == Earliest(argvRetries[..i])
      {
        EarliestAppend(argvRetries[..i], argvRetries[i]);
        assert argvRetries[..i + 1] == argvRetries[..i] + [argvRetries[i]];
        if argvRetries[i].time < unread {
          unread := argvRetries[i].time;
        }
        i := i + 1;
      }
      assert argvRetries[..i] == argvRetries;
    }

    /** Passes on, in order, what no unread program can come before. */
    method ReleaseReady(batch: seq<Message>) returns (delivered: seq<Message>)
      modifies `queued
      ensures Step(Now(), delivered) == Release(old(Now()), batch)
    {
      var sorted := SortByTime(batch);
      var ready := |sorted|;
      if argvRetries != [] {
        var unread := EarliestUnread();
        ready := ReadyCount(sorted, unread);
      }
      queued := sorted[ready..];
      delivered := sorted[..ready];
    }

    // ---- One record ----

    method InterpretRecord(r: Record, env: Env) returns (emitted: seq<Message>)
      modifies this
      ensures Step(Now(), emitted) == Interpret(old(Now()), r, env)
    {
      var code := r.Code();
      latest := Max(latest, r.timestamp);
      emitted := [];
      if code == NEWTHREAD {
        emitted := AddThread(r);
        return;
      }
      if code == LOST_EVENTS {
        dropped := dropped + 1;
        return;
      }
      if r.thread !in threads {
        return;
      }
      var pid := threads[r.thread];
      if pid !in processes {
        return;
      }
      emitted := InterpretFollowed(pid, r, env);
    }

    method AddThread(r: Record) returns (emitted: seq<Message>)
      modifies this
      ensures Step(Now(), emitted) == NewThread(old(Now()), r)
    {
      var child, pid := r.args[0], AsI32(r.args[1]);
      var parent := Get(threads, r.thread);
      threads := threads[child := pid];
      if r.args[2] == 1 && parent == Some(pid) {
        newTasks := newTasks[child := r.thread];
      }
      assert Now() == RegisterThread(old(Now()), r);
      emitted := [];
      if parent.Some? && parent.value != pid {
        emitted := AddProcess(parent.value, pid, r.timestamp);
      }
    }

    method AddProcess(parent: Pid, pid: Pid, time: nat) returns (emitted: seq<Message>)
      modifies this
      ensures Step(Now(), emitted) == StartProcess(old(Now()), parent, pid, time)
    {
      emitted := [];
      if parent in processes {
        var state := processes[parent];
        started := started + 1;
        CancelExit(pid);
        processes := processes[pid := state];
        emitted := [Message(time, parent, 0, Fork(pid))];
      } else if pid != root && parent != 0 {
        processes := processes - {pid};
      }
    }

    method CancelExit(pid: Pid)
      modifies `heldExits
      ensures heldExits == WithoutPid(old(heldExits), pid)
    {
      var kept: seq<HeldExit> := [];
      var i := 0;
      while i < |heldExits|
        invariant 0 <= i <= |heldExits|
        invariant kept == WithoutPid(heldExits[..i], pid)
        invariant heldExits == old(heldExits)
      {
        WithoutPidSplit(heldExits, pid, i);
        if heldExits[i].pid != pid {
          kept := kept + [heldExits[i]];
        }
        i := i + 1;
      }
      assert heldExits[..i] == heldExits;
      heldExits := kept;
    }

    method InterpretFollowed(pid: Pid, r: Record, env: Env) returns (emitted: seq<Message>)
      modifies this
      ensures Step(Now(), emitted) == ProcessStep(old(Now()), pid, r, env)
    {
      var code := r.Code();
      emitted := [];
      if code == STRING_EXEC {
        NameRunning(pid, r.args);
      } else if code == DATA_EXEC {
        started := started + 1;
        if r.thread in newTasks {
          replaced := replaced + {newTasks[r.thread]};
        }
        newTasks := newTasks - {r.thread};
        assert Now() == ReplaceAsker(old(Now()), r.thread);
        emitted := Exec(pid, r.timestamp, r.args[2], env);
      } else if code == PROC_EXIT && r.IsEnd() {
        emitted := ReportExit(pid, r);
      } else if code == VFS_LOOKUP {
        GatherLookup(r);
      } else if IsFollowed(code) {
        emitted := FollowSyscall(pid, r, env);
      }
    }

    method ReportExit(pid: Pid, r: Record) returns (emitted: seq<Message>)
      modifies this
      ensures Step(Now(), emitted) == ProcExit(old(Now()), pid, r)
    {
      emitted := [];
      if r.thread in replaced {
        replaced := replaced - {r.thread};
      } else if r.thread in newTasks {
        // A start that failed. The process carries on.
        newTasks := newTasks - {r.thread};
      } else {
        heldExits := heldExits + [HeldExit(pid, r.timestamp, AsI32(r.args[1]))];
        emitted := BelieveHeldExits();
      }
    }

    method NameRunning(pid: Pid, args: Args)
      modifies `names, `argvRetries
      ensures Now() == NameProgram(old(Now()), pid, args)
    {
      var name := DecodeString(args);
      names := names[pid := name];
      MarkPending(pid);
    }

    method MarkPending(pid: Pid)
      modifies `argvRetries
      ensures argvRetries == MarkNamed(old(argvRetries), pid)
    {
      var i := 0;
      while i < |argvRetries|
        invariant 0 <= i <= |argvRetries| == |old(argvRetries)|
        invariant forall j | 0 <= j < i :: argvRetries[j] == MarkNamed(old(argvRetries), pid)[j]
        invariant forall j | i <= j < |argvRetries| :: argvRetries[j] == old(argvRetries)[j]
      {
        if argvRetries[i].pid == pid {
          argvRetries := argvRetries[i := argvRetries[i].(named := true)];
        }
        i := i + 1;
      }
    }

    method GatherLookup(r: Record)
      modifies `lookups, `vnodePaths, `calls
      ensures Now() == LookupStep(old(Now()), r)
    {
      var entry := if r.thread in lookups then lookups[r.thread] else Gathered(0, []);
      if r.IsStart() {
        entry := Gathered(r.args[0], r.args[1..]);
      } else {
        entry := Gathered(entry.vnode, entry.words + r.args);
      }
      if r.IsEnd() {
        var path := DecodeString(entry.words);
        EndLookup(r.thread, entry.vnode, path);
      } else {
        lookups := lookups[r.thread := entry];
      }
    }

    method EndLookup(thread: Tid, vnode: Word, path: Text)
      modifies `lookups, `vnodePaths, `calls
      ensures Now() == FinishLookup(old(Now()), thread, vnode, path)
    {
      lookups := lookups[thread := Gathered(0, [])];
      if IsAbsolute(path) {
        var known := Normalize(path);
        vnodePaths := vnodePaths[vnode := known];
      }
      if thread in calls {
        var call := calls[thread];
        calls := calls[thread := call.(lookups := call.lookups + [Lookup(vnode, path)])];
      }
    }

    method FollowSyscall(pid: Pid, r: Record, env: Env) returns (emitted: seq<Message>)
      modifies this
      ensures Step(Now(), emitted) == SyscallStep(old(Now()), pid, r, env)
    {
      emitted := [];
      if r.IsStart() {
        calls := calls[r.thread := Call(r.Code(), r.args, [])];
        return;
      }
      if !r.IsEnd() || r.thread !in calls {
        return;
      }
      var call := calls[r.thread];
      calls := calls - {r.thread};
      if call.code != r.Code() {
        return;
      }
      if r.args[0] != 0 {
        return;
      }
      emitted := Finish(pid, r.timestamp, call, r.args[1], env);
    }

    // ---- Programs and exits ----

    method Exec(pid: Pid, time: nat, image: Word, env: Env) returns (emitted: seq<Message>)
      modifies this
      ensures Step(Now(), emitted) == ExecStep(old(Now()), pid, time, image, env)
    {
      if pid in processes {
        processes := processes[pid := processes[pid].(fds := KeptOnExec(processes[pid].fds))];
      }
      assert Now() == CloseOnExec(old(Now()), pid);
      var earlier := SettleEarlierProgram(pid);
      var next := ReadOrRetry(pid, time, image, env.inspect(pid));
      emitted := earlier + next;
    }

    /** Gives up on the process's last program, if it is unread: another has taken its place. */
    method SettleEarlierProgram(pid: Pid) returns (emitted: seq<Message>)
      modifies `argvRetries, `unnamed
      ensures Step(Now(), emitted) == SettleEarlier(old(Now()), pid)
    {
      emitted := [];
      if HasPending(argvRetries, pid) {
        var i := FirstPending(argvRetries, pid);
        var earlier := argvRetries[i];
        argvRetries := argvRetries[..i] + argvRetries[i + 1..];
        var settled := Settle(earlier);
        emitted := [settled];
      }
    }

    method ReadOrRetry(pid: Pid, time: nat, image: Word, answer: Answer) returns (emitted: seq<Message>)
      modifies `argvRetries, `rootCommand
      ensures Step(Now(), emitted) == StartProgram(old(Now()), pid, time, image, answer)
    {
      emitted := [];
      if pid == root && rootCommand.Some? {
        var argv := rootCommand.value;
        rootCommand := None;
        emitted := [ExecMessage(Now(), pid, time, if argv == [] then [] else argv[0], argv)];
        return;
      }
      match CommandLine(time, image, answer) {
        case Read(executable, argv) =>
          emitted := [ExecMessage(Now(), pid, time, executable, argv)];
        case Unreadable(why) =>
          // Pending even if there is nothing left to read, for a name may come with a later record.
          argvRetries := argvRetries + [Pending(pid, time, image, !why.NotYet?, WhatInstead(why), false)];
      }
    }

    /** Settles an unread program, counting it lost if nothing was passed on for it. */
    method Settle(p: Pending) returns (m: Message)
      modifies `unnamed
      ensures m == Settled(old(Now()), p)
      ensures Now() == old(Now()).(unnamed := old(unnamed) + Lost(p))
    {
      m := Settled(Now(), p);
      if p.movedOn.None? {
        unnamed := unnamed + 1;
      }
    }

    method RetryPending(env: Env, lastChance: bool) returns (emitted: seq<Message>)
      modifies `argvRetries, `unnamed
      ensures Step(Now(), emitted) == RetryCommandLines(old(Now()), env, lastChance)
    {
      var kept, lost;
      kept, emitted, lost := RetryEach(Now(), argvRetries, env, lastChance);
      argvRetries := kept;
      unnamed := unnamed + lost;
    }

    /** Takes the first exit that waits for nothing, until there is none. */
    method BelieveHeldExits() returns (emitted: seq<Message>)
      modifies `processes, `names, `heldExits
      ensures Step(Now(), emitted) == BelieveExits(old(Now()))
    {
      ghost var believed;
      emitted, believed := TakeBelievables();
      assert believed + [] == believed;
    }

    method TakeBelievables() returns (emitted: seq<Message>, ghost believed: seq<HeldExit>)
      modifies `processes, `names, `heldExits
      ensures Taken(old(heldExits), believed, heldExits, argvRetries)
      ensures Believable(heldExits, argvRetries) == [] && Waiting(heldExits, argvRetries) == heldExits
      ensures processes == old(processes) - (PidsOf(believed) - {root})
      ensures names == old(names) - PidsOf(believed)
      ensures emitted == ExitMessages(believed)
    {
      believed := [];
      emitted := [];
      var index := NextBelievable();
      while index < |heldExits|
        invariant 0 <= index <= |heldExits|
        invariant processes == old(processes) - (PidsOf(believed) - {root})
        invariant names == old(names) - (PidsOf(believed) - {})
        invariant emitted == ExitMessages(believed)
        invariant IsNextBelievable(heldExits, argvRetries, index)
        invariant Taken(old(heldExits), believed, heldExits, argvRetries)
        decreases |heldExits|
      {
        var exit := heldExits[index];
        TakeOne(old(heldExits), believed, heldExits, argvRetries, index);
        heldExits := heldExits[..index] + heldExits[index + 1..];
        var m := EmitExit(exit);
        PidsOfAppend(believed, exit);
        RemoveOneMore(old(processes), PidsOf(believed), exit.pid, {root});
        RemoveOneMore(old(names), PidsOf(believed), exit.pid, {});
        ExitMessagesAppend(believed, exit);
        believed := believed + [exit];
        emitted := emitted + [m];
        index := NextBelievable();
      }
      NothingBelievable(heldExits, argvRetries);
      assert PidsOf(believed) - {} == PidsOf(believed);
    }

    method NextBelievable() returns (index: nat)
      ensures IsNextBelievable(heldExits, argvRetries, index)
    {
      index := 0;
      while index < |heldExits| && HasPending(argvRetries, heldExits[index].pid)
        invariant 0 <= index <= |heldExits|
        invariant forall j | 0 <= j < index :: HasPending(argvRetries, heldExits[j].pid)
      {
        index := index + 1;
      }
    }

    method EmitExit(exit: HeldExit) returns (m: Message)
      modifies `processes, `names
      ensures m == ExitMessage(exit)
      ensures processes == old(processes) - ({exit.pid} - {root})
      ensures names == old(names) - ({exit.pid} - {})
    {
      if exit.pid != root {
        processes := processes - {exit.pid};
      }
      names := names - {exit.pid};
      assert {exit.pid} - {} == {exit.pid};
      m := ExitMessage(exit);
    }

    method FlushHeld(env: Env) returns (emitted: seq<Message>)
      modifies `heldOpens, `argvRetries, `unnamed, `processes, `names, `heldExits
      ensures Step(Now(), emitted) == FlushStep(old(Now()), env)
    {
      var opens := EmitHeldOpens();
      var execs := RetryPending(env, true);
      var exits := EmitHeldExits();
      emitted := opens + execs + exits;
    }

    method EmitHeldOpens() returns (emitted: seq<Message>)
      modifies `heldOpens
      ensures Now() == old(Now()).(heldOpens := [])
      ensures emitted == OpenMessages(old(Now()), old(heldOpens))
    {
      var opens := heldOpens;
      emitted := [];
      var i := 0;
      while i < |opens|
        invariant 0 <= i <= |opens|
        invariant emitted == OpenMessages(old(Now()), opens[..i])
      {
        assert opens[..i + 1][..i] == opens[..i];
        emitted := emitted + [OpenMessage(Now(), opens[i])];
        i := i + 1;
      }
      assert opens[..|opens|] == opens;
      heldOpens := [];
    }

    method EmitHeldExits() returns (emitted: seq<Message>)
      modifies `processes, `names, `heldExits
      ensures Step(Now(), emitted) == EmitExits(old(Now()))
    {
      emitted := EndHeldProcesses();
    }

    method EndHeldProcesses() returns (emitted: seq<Message>)
      modifies `processes, `names, `heldExits
      ensures emitted == ExitMessages(old(heldExits))
      ensures heldExits == []
      ensures processes == old(processes) - (PidsOf(old(heldExits)) - {root})
      ensures names == old(names) - PidsOf(old(heldExits))
    {
      hide PidsOf, ExitMessages;
      var exits := heldExits;
      heldExits := [];
      emitted := [];
      var i := 0;
      NoPids();
      assert exits[..0] == [];
      while i < |exits|
        invariant 0 <= i <= |exits| && heldExits == []
        invariant processes == old(processes) - (PidsOf(exits[..i]) - {root})
        invariant names == old(names) - (PidsOf(exits[..i]) - {})
        invariant emitted == ExitMessages(exits[..i])
      {
        PidsOfAppend(exits[..i], exits[i]);
        RemoveOneMore(old(processes), PidsOf(exits[..i]), exits[i].pid, {root});
        RemoveOneMore(old(names), PidsOf(exits[..i]), exits[i].pid, {});
        ExitMessagesAppend(exits[..i], exits[i]);
        assert exits[..i + 1] == exits[..i] + [exits[i]];
        var m := EmitExit(exits[i]);
        emitted := emitted + [m];
        i := i + 1;
      }
      assert exits[..|exits|] == exits;
      assert PidsOf(exits) - {} == PidsOf(exits);
    }

    // ---- Finished calls ----

    method Finish(pid: Pid, time: nat, call: Call, returned: Word, env: Env) returns (emitted: seq<Message>)
      modifies this
      ensures Step(Now(), emitted) == FinishCall(old(Now()), pid, time, call, returned, env)
    {
      var code := call.code;
      emitted := [];
      if IsOpen(code) {
        emitted := FinishOpened(pid, time, call, returned, env);
        return;
      }
      if IsRename(code) {
        var step := FinishRename(Now(), pid, time, call, env);
        emitted := step.out;
      } else if code == CHDIR {
        if call.lookups != [] {
          var lookup := call.lookups[0];
          var to := Resolve(Now(), pid, lookup.vnode, lookup.path, None, false, env);
          if pid in processes {
            processes := processes[pid := processes[pid].(cwd := if to.Resolved? then Some(to.path) else None)];
          }
        }
      } else if code == FCHDIR {
        var path := FdPath(Now(), pid, call.args[0]);
        if pid in processes {
          processes := processes[pid := processes[pid].(cwd := path)];
        }
      } else if IsClose(code) {
        if pid in processes {
          processes := processes[pid := processes[pid].(fds := processes[pid].fds - {AsI32(call.args[0])})];
        }
      } else if code == DUP || code == DUP2 || IsFcntl(code) {
        FinishDuplicate(pid, call, returned);
      }
    }

    method FinishDuplicate(pid: Pid, call: Call, returned: Word)
      requires call.code == DUP || call.code == DUP2 || IsFcntl(call.code)
      modifies `processes
      ensures Now() ==
        if call.code == DUP then Duplicate(old(Now()), pid, call.args[0], returned, false)
        else if call.code == DUP2 then Duplicate(old(Now()), pid, call.args[0], call.args[1], false)
        else FinishFcntl(old(Now()), pid, call, returned)
    {
      var to, closeOnExec := returned, false;
      if call.code == DUP2 {
        to := call.args[1];
      } else if call.code != DUP {
        if call.args[1] == F_DUPFD_CLOEXEC {
          closeOnExec := true;
        } else if call.args[1] == F_SETFD {
          var fd := AsI32(call.args[0]);
          if pid in processes && fd in processes[pid].fds {
            var entry := processes[pid].fds[fd].(closeOnExec := call.args[2] % 2 == 1);
            processes := processes[pid := processes[pid].(fds := processes[pid].fds[fd := entry])];
          }
          return;
        } else if call.args[1] != F_DUPFD {
          return;
        }
      }
      var path := FdPath(Now(), pid, call.args[0]);
      InsertDescriptor(pid, AsI32(to), Descriptor(path, closeOnExec));
    }

    method InsertDescriptor(pid: Pid, fd: int, descriptor: Descriptor)
      modifies `processes
      ensures Now() == SetDescriptor(old(Now()), pid, fd, descriptor)
    {
      if pid in processes {
        processes := processes[pid := processes[pid].(fds := processes[pid].fds[fd := descriptor])];
      }
    }

    /** Where an open that looked something up is, or that it must be held until more is known. */
    method PlaceOpened(pid: Pid, time: nat, call: Call, returned: Word, env: Env) returns (path: Option<Text>)
      requires IsOpen(call.code)
      modifies `heldOpens
      ensures path == PlacedPath(old(Now()), pid, call, env)
      ensures Now() == if path.None? && fileEvents
                       then old(Now()).(heldOpens := old(heldOpens) + [HoldOpen(pid, time, call, returned)])
                       else old(Now())
    {
      hide Resolve, Confirms, LinuxOpenFlags, HasFlag, AsI32, DirectoryArgument;
      if call.lookups == [] {
        return Some(ROOT);
      }
      path := None;
      var first := call.lookups[0];
      var flags := OpenFlags(call);
      var creating := HasFlag(flags, O_CREAT);
      var directory := DirectoryArgument(IsOpenAt(call.code), call.args[0]);
      var place := Resolve(Now(), pid, first.vnode, first.path, directory, creating, env);
      if place.Resolved? && (!place.joined || Confirms(Now(), place.path, creating, env)) {
        path := Some(place.path);
      } else if fileEvents {
        heldOpens := heldOpens + [HeldOpen(time, pid, first.vnode, first.path, LinuxOpenFlags(flags), AsI32(returned))];
      }
    }

    method FinishOpened(pid: Pid, time: nat, call: Call, returned: Word, env: Env) returns (emitted: seq<Message>)
      requires IsOpen(call.code)
      modifies this
      ensures Step(Now(), emitted) == FinishOpen(old(Now()), pid, time, call, returned, env)
    {
      hide PlacedPath, SetDescriptor, LinuxOpenFlags, HasFlag, AsI32;
      emitted := [];
      var flags := OpenFlags(call);
      var creating := HasFlag(flags, O_CREAT);
      if call.lookups == [] && !HasFlag(flags, O_DIRECTORY) {
        return;
      }
      var path := PlaceOpened(pid, time, call, returned, env);
      InsertDescriptor(pid, AsI32(returned), Descriptor(path, HasFlag(flags, O_CLOEXEC)));
      if path.Some? {
        if creating {
          created := created + {path.value};
        }
        if fileEvents {
          emitted := [Message(time, pid, 0, Open(path.value, LinuxOpenFlags(flags), AsI32(returned), false))];
        }
      }
    }
  }

  lemma FirstEarliest(p: Pending)
    ensures Earliest([p]) == p.time
  {
  }

  lemma {:induction false} EarliestAppend(pending: seq<Pending>, p: Pending)
    requires pending != []
    ensures Earliest(pending + [p]) == if p.time < Earliest(pending) then p.time else Earliest(pending)
  {
    if |pending| > 1 {
      EarliestAppend(pending[1..], p);
      assert (pending + [p])[1..] == pending[1..] + [p];
    } else {
      assert (pending + [p])[1..] == [p];
    }
  }
}
