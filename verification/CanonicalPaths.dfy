/** Every path the collector knows or reports as resolved is canonical, in every reachable state. */
module CanonicalPaths {
  import opened Basics
  import opened Messages
  import opened Ordering
  import opened Paths
  import opened CollectorModel
  import opened DeliveryOrder

  predicate CanonicalIfKnown(path: Option<Text>) {
    path.Some? ==> Canonical(path.value)
  }

  predicate CanonicalProcess(p: Process) {
    CanonicalIfKnown(p.cwd) && forall fd | fd in p.fds :: CanonicalIfKnown(p.fds[fd].path)
  }

  predicate CanonicalState(s: State) {
    && (forall pid | pid in s.processes :: CanonicalProcess(s.processes[pid]))
    && (forall vnode | vnode in s.vnodePaths :: Canonical(s.vnodePaths[vnode]))
    && (forall path | path in s.created :: Canonical(path))
    && (forall h | h in s.heldOpens :: !IsAbsolute(h.raw))
  }

  /** A resolved path is canonical; an open marked unresolved is not even absolute. */
  predicate HonestMessage(m: Message) {
    match m.event
    case Open(path, _, _, unresolved) => if unresolved then !IsAbsolute(path) else Canonical(path)
    case Rename(from, to) => Canonical(from) && Canonical(to)
    case _ => true
  }

  predicate Honest(ms: seq<Message>) {
    forall m | m in ms :: HonestMessage(m)
  }

  // ---- Resolving ----

  lemma ResolveCanonical(s: State, pid: Pid, vnode: Word, raw: Text, directory: Option<Word>, creating: bool, env: Env)
    requires CanonicalState(s)
    ensures var to := Resolve(s, pid, vnode, raw, directory, creating, env);
            && (to.Resolved? ==> Canonical(to.path))
            && (IsAbsolute(raw) ==> to.Resolved? && !to.joined)
  {
    hide Normalized, Canonical, LastComponent, RestartedAtRoot, Confirms;
    forall path ensures Canonical(Normalized(path)) {
      NormalizedIsCanonical(path);
    }
  }

  lemma PlacedCanonical(s: State, pid: Pid, call: Call, env: Env)
    requires CanonicalState(s) && IsOpen(call.code)
    ensures CanonicalIfKnown(PlacedPath(s, pid, call, env))
    ensures PlacedPath(s, pid, call, env).None? ==> call.lookups != [] && !IsAbsolute(call.lookups[0].path)
  {
    hide Resolve, Confirms, Canonical;
    assert Canonical(ROOT) by { RootCanonical(); }
    if call.lookups != [] {
      ResolveCanonical(s, pid, call.lookups[0].vnode, call.lookups[0].path,
                       DirectoryArgument(IsOpenAt(call.code), call.args[0]), HasFlag(OpenFlags(call), O_CREAT), env);
    }
  }

  lemma RootCanonical()
    ensures Canonical(ROOT)
  {
  }

  // ---- Finished calls ----

  lemma SetProcessCanonical(s: State, pid: Pid, p: Process)
    requires CanonicalState(s) && CanonicalProcess(p)
    ensures CanonicalState(SetProcess(s, pid, p))
  {
    hide CanonicalProcess, Canonical;
  }

  lemma SetDescriptorCanonical(s: State, pid: Pid, fd: int, d: Descriptor)
    requires CanonicalState(s) && CanonicalIfKnown(d.path)
    ensures CanonicalState(SetDescriptor(s, pid, fd, d))
  {
    hide SetProcess, CanonicalIfKnown;
    if pid in s.processes {
      SetProcessCanonical(s, pid, s.processes[pid].(fds := s.processes[pid].fds[fd := d]));
    }
  }

  lemma FdPathCanonical(s: State, pid: Pid, fd: Word)
    requires CanonicalState(s)
    ensures CanonicalIfKnown(FdPath(s, pid, fd))
  {
    hide Canonical;
  }

  lemma UnplacedCanonical(s: State, pid: Pid, time: nat, call: Call, returned: Word)
    requires CanonicalState(s) && call.lookups != [] && !IsAbsolute(call.lookups[0].path)
    ensures CanonicalState(OpenUnplaced(s, pid, time, call, returned))
  {
    hide SetDescriptor, Canonical, CanonicalProcess, LinuxOpenFlags, HasFlag, AsI32, IsAbsolute;
    var held := s.(heldOpens := s.heldOpens + [HoldOpen(pid, time, call, returned)]);
    var d := Descriptor(None, HasFlag(OpenFlags(call), O_CLOEXEC));
    SetDescriptorCanonical(held, pid, AsI32(returned), d);
    SetDescriptorCanonical(s, pid, AsI32(returned), d);
  }

  lemma PlacedStateCanonical(s: State, pid: Pid, call: Call, returned: Word, path: Text)
    requires CanonicalState(s) && Canonical(path)
    ensures CanonicalState(OpenPlaced(s, pid, call, returned, path))
  {
    hide SetDescriptor, Canonical, CanonicalProcess, HasFlag, AsI32, IsAbsolute;
    SetDescriptorCanonical(s, pid, AsI32(returned), Descriptor(Some(path), HasFlag(OpenFlags(call), O_CLOEXEC)));
  }

  lemma FinishOpenCanonical(s: State, pid: Pid, time: nat, call: Call, returned: Word, env: Env)
    requires CanonicalState(s) && IsOpen(call.code)
    ensures var step := FinishOpen(s, pid, time, call, returned, env);
            CanonicalState(step.state) && Honest(step.out)
  {
    hide PlacedPath, OpenUnplaced, OpenPlaced, Canonical, CanonicalState, LinuxOpenFlags, HasFlag, AsI32;
    PlacedCanonical(s, pid, call, env);
    match PlacedPath(s, pid, call, env) {
      case None => UnplacedCanonical(s, pid, time, call, returned);
      case Some(path) => PlacedStateCanonical(s, pid, call, returned, path);
    }
  }

  lemma FinishRenameCanonical(s: State, pid: Pid, time: nat, call: Call, env: Env)
    requires CanonicalState(s)
    ensures Honest(FinishRename(s, pid, time, call, env).out)
  {
    hide Resolve, Canonical;
    if |call.lookups| >= 2 {
      var last := |call.lookups| - 1;
      var at := call.code != RENAME;
      ResolveCanonical(s, pid, call.lookups[last - 1].vnode, call.lookups[last - 1].path,
                       DirectoryArgument(at, call.args[0]), false, env);
      ResolveCanonical(s, pid, call.lookups[last].vnode, call.lookups[last].path,
                       DirectoryArgument(at, call.args[2]), true, env);
    }
  }

  lemma FinishDirectoryCanonical(s: State, pid: Pid, call: Call, env: Env)
    requires CanonicalState(s)
    ensures CanonicalState(FinishChdir(s, pid, call, env))
    ensures CanonicalState(FinishFchdir(s, pid, call))
    ensures CanonicalState(FinishClose(s, pid, call))
  {
    hide Resolve, SetProcess, FdPath, Canonical;
    if pid in s.processes {
      var p := s.processes[pid];
      if call.lookups != [] {
        ResolveCanonical(s, pid, call.lookups[0].vnode, call.lookups[0].path, None, false, env);
        var to := Resolve(s, pid, call.lookups[0].vnode, call.lookups[0].path, None, false, env);
        SetProcessCanonical(s, pid, p.(cwd := if to.Resolved? then Some(to.path) else None));
      }
      FdPathCanonical(s, pid, call.args[0]);
      SetProcessCanonical(s, pid, p.(cwd := FdPath(s, pid, call.args[0])));
      SetProcessCanonical(s, pid, p.(fds := p.fds - {AsI32(call.args[0])}));
    }
  }

  lemma DuplicateCanonical(s: State, pid: Pid, from: Word, to: Word, closeOnExec: bool)
    requires CanonicalState(s)
    ensures CanonicalState(Duplicate(s, pid, from, to, closeOnExec))
  {
    hide SetDescriptor, FdPath;
    FdPathCanonical(s, pid, from);
    SetDescriptorCanonical(s, pid, AsI32(to), Descriptor(FdPath(s, pid, from), closeOnExec));
  }

  lemma FcntlCanonical(s: State, pid: Pid, call: Call, returned: Word)
    requires CanonicalState(s)
    ensures CanonicalState(FinishFcntl(s, pid, call, returned))
  {
    hide Duplicate, SetDescriptor, Canonical;
    DuplicateCanonical(s, pid, call.args[0], returned, false);
    DuplicateCanonical(s, pid, call.args[0], returned, true);
    var fd := AsI32(call.args[0]);
    if pid in s.processes && fd in s.processes[pid].fds {
      assert CanonicalProcess(s.processes[pid]);
      SetDescriptorCanonical(s, pid, fd, s.processes[pid].fds[fd].(closeOnExec := call.args[2] % 2 == 1));
    }
  }

  lemma FinishCallCanonical(s: State, pid: Pid, time: nat, call: Call, returned: Word, env: Env)
    requires CanonicalState(s)
    ensures var step := FinishCall(s, pid, time, call, returned, env);
            CanonicalState(step.state) && Honest(step.out)
  {
    hide FinishOpen, FinishRename, FinishChdir, FinishFchdir, FinishClose, Duplicate, FinishFcntl, CanonicalState,
         IsOpen, IsRename, IsClose, IsFcntl;
    if IsOpen(call.code) {
      FinishOpenCanonical(s, pid, time, call, returned, env);
    } else if IsRename(call.code) {
      FinishRenameCanonical(s, pid, time, call, env);
    } else {
      FinishDirectoryCanonical(s, pid, call, env);
      DuplicateCanonical(s, pid, call.args[0], returned, false);
      DuplicateCanonical(s, pid, call.args[0], call.args[1], false);
      FcntlCanonical(s, pid, call, returned);
    }
  }

  lemma SyscallCanonical(s: State, pid: Pid, r: Record, env: Env)
    requires CanonicalState(s)
    ensures var step := SyscallStep(s, pid, r, env);
            CanonicalState(step.state) && Honest(step.out)
  {
    hide FinishCall, CanonicalProcess, Canonical;
    if !r.IsStart() && r.IsEnd() && r.thread in s.calls {
      FinishCallCanonical(s.(calls := s.calls - {r.thread}), pid, r.timestamp, s.calls[r.thread], r.args[1], env);
    }
  }

  lemma LookupCanonical(s: State, r: Record)
    requires CanonicalState(s)
    ensures CanonicalState(LookupStep(s, r))
  {
    hide Gather, Normalized, Canonical, CanonicalProcess;
    forall path ensures Canonical(Normalized(path)) {
      NormalizedIsCanonical(path);
    }
  }

  // ---- One record ----

  lemma {:induction false} NoPaths(ms: seq<Message>)
    requires forall i | 0 <= i < |ms| :: !ms[i].event.Open? && !ms[i].event.Rename?
    ensures Honest(ms)
  {
  }

  lemma NewThreadCanonical(s: State, r: Record)
    requires CanonicalState(s)
    ensures var step := NewThread(s, r);
            CanonicalState(step.state) && Honest(step.out)
  {
    hide StartProcess, RegisterThread, CanonicalProcess, Canonical, Honest;
    NoPaths([]);
    var s1 := RegisterThread(s, r);
    RegisterCanonical(s, r);
    var parent := Get(s.threads, r.thread);
    if parent.Some? {
      StartCanonical(s1, parent.value, AsI32(r.args[1]), r.timestamp);
    }
  }

  lemma RegisterCanonical(s: State, r: Record)
    requires CanonicalState(s)
    ensures CanonicalState(RegisterThread(s, r))
  {
    hide CanonicalProcess, Canonical, IsAbsolute;
  }

  lemma StartCanonical(s: State, parent: Pid, pid: Pid, time: nat)
    requires CanonicalState(s)
    ensures var step := StartProcess(s, parent, pid, time);
            CanonicalState(step.state) && Honest(step.out)
  {
    hide CanonicalProcess, Canonical, IsAbsolute, WithoutPid;
    NoPaths(StartProcess(s, parent, pid, time).out);
  }

  lemma ExecCanonical(s: State, pid: Pid, time: nat, image: Word, env: Env)
    requires CanonicalState(s)
    ensures var step := ExecStep(s, pid, time, image, env);
            CanonicalState(step.state) && Honest(step.out)
  {
    hide SettleEarlier, StartProgram, SetProcess, Canonical, CloseOnExec;
    CloseOnExecCanonical(s, pid);
    var s1 := CloseOnExec(s, pid);
    SettleSpeaks(s1, pid);
    var earlier := SettleEarlier(s1, pid);
    var next := StartProgram(earlier.state, pid, time, image, env.inspect(pid));
    NoPaths(earlier.out);
    NoPaths(next.out);
  }

  lemma SettleSpeaks(s: State, pid: Pid)
    ensures forall i | 0 <= i < |SettleEarlier(s, pid).out| :: SettleEarlier(s, pid).out[i].event.Exec?
  {
    hide Settled;
  }

  lemma CloseOnExecCanonical(s: State, pid: Pid)
    requires CanonicalState(s)
    ensures CanonicalState(CloseOnExec(s, pid))
  {
    hide Canonical, CanonicalIfKnown;
    if pid in s.processes {
      assert CanonicalProcess(s.processes[pid]);
    }
  }

  lemma BelieveCanonical(s: State)
    requires CanonicalState(s)
    ensures CanonicalState(BelieveExits(s).state) && Honest(BelieveExits(s).out)
  {
    hide CanonicalProcess, Canonical, Believable, Waiting, PidsOf;
    NoPaths(BelieveExits(s).out);
  }

  lemma ProcExitCanonical(s: State, pid: Pid, r: Record)
    requires CanonicalState(s)
    ensures CanonicalState(ProcExit(s, pid, r).state) && Honest(ProcExit(s, pid, r).out)
  {
    hide BelieveExits, CanonicalProcess, Canonical;
    if r.thread !in s.replaced && r.thread !in s.newTasks {
      BelieveCanonical(s.(heldExits := s.heldExits + [HeldExit(pid, r.timestamp, AsI32(r.args[1]))]));
    }
  }

  lemma SameCanonical(s: State, t: State)
    requires CanonicalState(s)
    requires t.processes == s.processes && t.vnodePaths == s.vnodePaths
    requires t.created == s.created && t.heldOpens == s.heldOpens
    ensures CanonicalState(t)
  {
  }

  lemma ProcessStepCanonical(s: State, pid: Pid, r: Record, env: Env)
    requires CanonicalState(s)
    ensures var step := ProcessStep(s, pid, r, env);
            CanonicalState(step.state) && Honest(step.out)
  {
    hide ExecStep, ProcExit, SyscallStep, LookupStep, NameProgram, ReplaceAsker, CanonicalState, HonestMessage,
         IsFollowed;
    if r.Code() == DATA_EXEC {
      SameCanonical(s, ReplaceAsker(s, r.thread));
      ExecCanonical(ReplaceAsker(s, r.thread), pid, r.timestamp, r.args[2], env);
    } else if r.Code() == STRING_EXEC {
      SameCanonical(s, NameProgram(s, pid, r.args));
    } else if r.Code() == PROC_EXIT && r.IsEnd() {
      ProcExitCanonical(s, pid, r);
    } else if r.Code() == VFS_LOOKUP {
      LookupCanonical(s, r);
    } else if IsFollowed(r.Code()) {
      SyscallCanonical(s, pid, r, env);
    }
  }

  lemma ReleaseHonest(s: State, batch: seq<Message>)
    requires CanonicalState(s) && Honest(batch)
    ensures var step := Release(s, batch);
            CanonicalState(step.state) && Honest(step.out) && Honest(step.state.queued)
  {
    hide CanonicalProcess, Canonical, HonestMessage, ReadyCount, SortByTime;
    SortPermutes(batch);
    var sorted := SortByTime(batch);
    forall m | m in sorted ensures HonestMessage(m) {
      assert m in multiset(sorted);
      assert m in batch;
    }
  }

  predicate AllCanonical(s: State) {
    CanonicalState(s) && Honest(s.queued)
  }

  lemma ObserveCanonical(s: State, r: Record, env: Env)
    requires AllCanonical(s)
    ensures AllCanonical(Observe(s, r, env).state) && Honest(Observe(s, r, env).out)
  {
    hide NewThread, ProcessStep, Release, CanonicalProcess, Canonical, HonestMessage;
    var s1 := Noticed(Dequeued(s), r);
    if r.Code() == NEWTHREAD {
      NewThreadCanonical(s1, r);
    } else if r.Code() != LOST_EVENTS && IsFollowedThread(s1, r.thread) {
      ProcessStepCanonical(s1, s1.threads[r.thread], r, env);
    }
    var step := Interpret(Dequeued(s), r, env);
    ReleaseHonest(step.state, s.queued + step.out);
  }

  lemma {:induction false} RetrySpeaks(s: State, pending: seq<Pending>, env: Env, lastChance: bool)
    ensures Honest(RetryList(s, pending, env, lastChance).out)
  {
    hide Retry;
    if pending != [] {
      RetrySpeaks(s, pending[..|pending| - 1], env, lastChance);
    }
  }

  lemma TickCanonical(s: State, env: Env)
    requires AllCanonical(s)
    ensures AllCanonical(Tick(s, env).state) && Honest(Tick(s, env).out)
  {
    hide RetryList, BelieveExits, Release, CanonicalProcess, Canonical, HonestMessage;
    var s1 := Dequeued(s);
    RetrySpeaks(s1, s.argvRetries, env, false);
    var retried := RetryCommandLines(s1, env, false);
    BelieveCanonical(retried.state);
    var step := TickStep(s1, env);
    ReleaseHonest(step.state, s.queued + step.out);
  }

  /** In every state a run reaches, every known path is canonical, and so is everything delivered. */
  lemma {:induction false} RunCanonical(s: State, inputs: seq<Input>)
    requires AllCanonical(s)
    ensures AllCanonical(Run(s, inputs).state) && Honest(Run(s, inputs).out)
  {
    hide Observe, Tick, CanonicalState, HonestMessage;
    if inputs != [] {
      var n := |inputs| - 1;
      RunCanonical(s, inputs[..n]);
      match inputs[n] {
        case Seen(r, env) => ObserveCanonical(Run(s, inputs[..n]).state, r, env);
        case Ticked(env) => TickCanonical(Run(s, inputs[..n]).state, env);
      }
    }
  }

  /** A held open is placed at the flush with a canonical path, or reported as the kernel gave it. */
  lemma FlushCanonical(s: State, env: Env)
    requires AllCanonical(s)
    ensures Honest(Flush(s, env).out)
  {
    hide RetryList, EmitExits, Canonical, CanonicalProcess, SortByTime, HonestMessage;
    var s1 := Dequeued(s);
    var step := FlushStep(s1, env);
    RetrySpeaks(s1.(heldOpens := []), s.argvRetries, env, true);
    OpensHonest(s1);
    var ended := EmitExits(RetryCommandLines(s1.(heldOpens := []), env, true).state);
    ExitsHonest(RetryCommandLines(s1.(heldOpens := []), env, true).state);
    FlushReleases(s, env);
    SortPermutes(s.queued + step.out);
    forall m | m in Flush(s, env).out ensures HonestMessage(m) {
      assert m in multiset(s.queued + step.out);
    }
  }

  lemma ExitsHonest(s: State)
    ensures Honest(EmitExits(s).out)
  {
    NoPaths(ExitMessages(s.heldExits));
  }

  lemma OpensHonest(s: State)
    requires CanonicalState(s)
    ensures Honest(OpenMessages(s, s.heldOpens))
  {
    hide Canonical, LastComponent;
    forall m | m in OpenMessages(s, s.heldOpens) ensures HonestMessage(m) {
      var i :| 0 <= i < |s.heldOpens| && OpenMessages(s, s.heldOpens)[i] == m;
      assert s.heldOpens[i] in s.heldOpens;
    }
  }

  /** A new collector starts canonical, whatever directory it is given. */
  lemma InitialCanonical(root: Pid, rootCwd: Text, window: nat, fileEvents: bool,
                         threads: map<Tid, Pid>, rootCommand: Option<seq<Text>>)
    ensures AllCanonical(Initial(root, rootCwd, window, fileEvents, threads, rootCommand))
  {
    NormalizedIsCanonical(rootCwd);
  }
}
