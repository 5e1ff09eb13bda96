/** A finished call sees only the files of its own process, and changes only them. */
module FileView {
  import opened Basics
  import opened Messages
  import opened CollectorModel

  /** Two states that agree on everything a call of `pid` can see. */
  predicate SameFiles(s: State, t: State, pid: Pid) {
    && s.fileEvents == t.fileEvents
    && s.vnodePaths == t.vnodePaths
    && s.created == t.created
    && s.heldOpens == t.heldOpens
    && s.calls == t.calls
    && Get(s.processes, pid) == Get(t.processes, pid)
  }

  /** Only `pid` changed. */
  predicate OthersKept(s: State, t: State, pid: Pid) {
    t.processes.Keys == s.processes.Keys && forall q | q in s.processes && q != pid :: t.processes[q] == s.processes[q]
  }

  lemma SetProcessSame(s: State, t: State, pid: Pid, process: Process)
    requires SameFiles(s, t, pid) && pid in s.processes
    ensures SameFiles(SetProcess(s, pid, process), SetProcess(t, pid, process), pid)
    ensures OthersKept(s, SetProcess(s, pid, process), pid)
  {
  }

  lemma SetDescriptorSame(s: State, t: State, pid: Pid, fd: int, descriptor: Descriptor)
    requires SameFiles(s, t, pid)
    ensures SameFiles(SetDescriptor(s, pid, fd, descriptor), SetDescriptor(t, pid, fd, descriptor), pid)
    ensures OthersKept(s, SetDescriptor(s, pid, fd, descriptor), pid)
  {
    hide SetProcess;
    if pid in s.processes {
      SetProcessSame(s, t, pid, s.processes[pid].(fds := s.processes[pid].fds[fd := descriptor]));
    }
  }

  lemma ResolveSame(s: State, t: State, pid: Pid, vnode: Word, raw: Text, directory: Option<Word>,
                    creating: bool, env: Env)
    requires SameFiles(s, t, pid)
    ensures Resolve(s, pid, vnode, raw, directory, creating, env) == Resolve(t, pid, vnode, raw, directory, creating,
                                                                             env)
  {
    hide RestartedAtRoot;
  }

  lemma PlacedSame(s: State, t: State, pid: Pid, call: Call, env: Env)
    requires SameFiles(s, t, pid) && IsOpen(call.code)
    ensures PlacedPath(s, pid, call, env) == PlacedPath(t, pid, call, env)
  {
    hide Resolve;
    if call.lookups != [] {
      var first := call.lookups[0];
      ResolveSame(s, t, pid, first.vnode, first.path, DirectoryArgument(IsOpenAt(call.code), call.args[0]),
                  HasFlag(OpenFlags(call), O_CREAT), env);
    }
  }

  lemma OpenUnplacedSame(s: State, t: State, pid: Pid, time: nat, call: Call, returned: Word)
    requires SameFiles(s, t, pid) && call.lookups != []
    ensures SameFiles(OpenUnplaced(s, pid, time, call, returned), OpenUnplaced(t, pid, time, call, returned), pid)
    ensures OthersKept(s, OpenUnplaced(s, pid, time, call, returned), pid)
  {
    hide SetDescriptor, AsI32, HoldOpen, HasFlag, OpenFlags;
    var held := [HoldOpen(pid, time, call, returned)];
    var s1 := if s.fileEvents then s.(heldOpens := s.heldOpens + held) else s;
    var t1 := if t.fileEvents then t.(heldOpens := t.heldOpens + held) else t;
    SetDescriptorSame(s1, t1, pid, AsI32(returned), Descriptor(None, HasFlag(OpenFlags(call), O_CLOEXEC)));
  }

  lemma OpenPlacedSame(s: State, t: State, pid: Pid, call: Call, returned: Word, path: Text)
    requires SameFiles(s, t, pid)
    ensures SameFiles(OpenPlaced(s, pid, call, returned, path), OpenPlaced(t, pid, call, returned, path), pid)
    ensures OthersKept(s, OpenPlaced(s, pid, call, returned, path), pid)
  {
    hide SetDescriptor, AsI32, HasFlag, OpenFlags;
    SetDescriptorSame(s, t, pid, AsI32(returned), Descriptor(Some(path), HasFlag(OpenFlags(call), O_CLOEXEC)));
  }

  lemma FinishOpenSame(s: State, t: State, pid: Pid, time: nat, call: Call, returned: Word, env: Env)
    requires SameFiles(s, t, pid) && IsOpen(call.code)
    ensures var a, b := FinishOpen(s, pid, time, call, returned, env), FinishOpen(t, pid, time, call, returned, env);
            a.out == b.out && SameFiles(a.state, b.state, pid) && OthersKept(s, a.state, pid)
  {
    hide PlacedPath, LinuxOpenFlags, OpenUnplaced, OpenPlaced, AsI32, HasFlag;
    PlacedSame(s, t, pid, call, env);
    match PlacedPath(s, pid, call, env) {
      case None => OpenUnplacedSame(s, t, pid, time, call, returned);
      case Some(path) => OpenPlacedSame(s, t, pid, call, returned, path);
    }
  }

  lemma FinishRenameSame(s: State, t: State, pid: Pid, time: nat, call: Call, env: Env)
    requires SameFiles(s, t, pid)
    ensures FinishRename(s, pid, time, call, env).out == FinishRename(t, pid, time, call, env).out
  {
    hide Resolve;
    if |call.lookups| >= 2 {
      var last := |call.lookups| - 1;
      var at := call.code != RENAME;
      ResolveSame(s, t, pid, call.lookups[last - 1].vnode, call.lookups[last - 1].path,
                  DirectoryArgument(at, call.args[0]), false, env);
      ResolveSame(s, t, pid, call.lookups[last].vnode, call.lookups[last].path,
                  DirectoryArgument(at, call.args[2]), true, env);
    }
  }

  lemma FinishChdirSame(s: State, t: State, pid: Pid, call: Call, env: Env)
    requires SameFiles(s, t, pid)
    ensures var a, b := FinishChdir(s, pid, call, env), FinishChdir(t, pid, call, env);
            SameFiles(a, b, pid) && OthersKept(s, a, pid)
  {
    hide Resolve, SetProcess;
    if call.lookups != [] && pid in s.processes {
      ResolveSame(s, t, pid, call.lookups[0].vnode, call.lookups[0].path, None, false, env);
      var to := Resolve(s, pid, call.lookups[0].vnode, call.lookups[0].path, None, false, env);
      SetProcessSame(s, t, pid, s.processes[pid].(cwd := if to.Resolved? then Some(to.path) else None));
    }
  }

  lemma FinishFchdirSame(s: State, t: State, pid: Pid, call: Call)
    requires SameFiles(s, t, pid)
    ensures SameFiles(FinishFchdir(s, pid, call), FinishFchdir(t, pid, call), pid)
    ensures OthersKept(s, FinishFchdir(s, pid, call), pid)
  {
    hide SetProcess;
    if pid in s.processes {
      SetProcessSame(s, t, pid, s.processes[pid].(cwd := FdPath(s, pid, call.args[0])));
    }
  }

  lemma FinishCloseSame(s: State, t: State, pid: Pid, call: Call)
    requires SameFiles(s, t, pid)
    ensures SameFiles(FinishClose(s, pid, call), FinishClose(t, pid, call), pid)
    ensures OthersKept(s, FinishClose(s, pid, call), pid)
  {
    hide SetProcess;
    if pid in s.processes {
      SetProcessSame(s, t, pid, s.processes[pid].(fds := s.processes[pid].fds - {AsI32(call.args[0])}));
    }
  }

  lemma DuplicateSame(s: State, t: State, pid: Pid, from: Word, to: Word, closeOnExec: bool)
    requires SameFiles(s, t, pid)
    ensures SameFiles(Duplicate(s, pid, from, to, closeOnExec), Duplicate(t, pid, from, to, closeOnExec), pid)
    ensures OthersKept(s, Duplicate(s, pid, from, to, closeOnExec), pid)
  {
    hide SetDescriptor;
    SetDescriptorSame(s, t, pid, AsI32(to), Descriptor(FdPath(s, pid, from), closeOnExec));
  }

  lemma FcntlSame(s: State, t: State, pid: Pid, call: Call, returned: Word)
    requires SameFiles(s, t, pid)
    ensures SameFiles(FinishFcntl(s, pid, call, returned), FinishFcntl(t, pid, call, returned), pid)
    ensures OthersKept(s, FinishFcntl(s, pid, call, returned), pid)
  {
    hide Duplicate, SetCloseOnExec, AsI32, SameFiles, OthersKept;
    DuplicateSame(s, t, pid, call.args[0], returned, false);
    DuplicateSame(s, t, pid, call.args[0], returned, true);
    SetCloseOnExecSame(s, t, pid, AsI32(call.args[0]), call.args[2] % 2 == 1);
    NothingChanged(s, pid);
  }

  lemma SetCloseOnExecSame(s: State, t: State, pid: Pid, fd: int, closeOnExec: bool)
    requires SameFiles(s, t, pid)
    ensures SameFiles(SetCloseOnExec(s, pid, fd, closeOnExec), SetCloseOnExec(t, pid, fd, closeOnExec), pid)
    ensures OthersKept(s, SetCloseOnExec(s, pid, fd, closeOnExec), pid)
  {
    hide SetDescriptor;
    if pid in s.processes && fd in s.processes[pid].fds {
      SetDescriptorSame(s, t, pid, fd, s.processes[pid].fds[fd].(closeOnExec := closeOnExec));
    }
  }

  lemma NothingChanged(s: State, pid: Pid)
    ensures OthersKept(s, s, pid)
  {
  }

  lemma FinishCallSame(s: State, t: State, pid: Pid, time: nat, call: Call, returned: Word, env: Env)
    requires SameFiles(s, t, pid)
    ensures var a, b := FinishCall(s, pid, time, call, returned, env), FinishCall(t, pid, time, call, returned, env);
            a.out == b.out && SameFiles(a.state, b.state, pid) && OthersKept(s, a.state, pid)
  {
    hide FinishOpen, FinishRename, FinishChdir, FinishFchdir, FinishClose, Duplicate, FinishFcntl, IsOpen, IsRename,
         IsClose, IsFcntl, SameFiles, OthersKept;
    NothingChanged(s, pid);
    if IsOpen(call.code) {
      FinishOpenSame(s, t, pid, time, call, returned, env);
    } else if IsRename(call.code) {
      FinishRenameSame(s, t, pid, time, call, env);
    } else {
      FinishChdirSame(s, t, pid, call, env);
      FinishFchdirSame(s, t, pid, call);
      FinishCloseSame(s, t, pid, call);
      DuplicateSame(s, t, pid, call.args[0], returned, false);
      DuplicateSame(s, t, pid, call.args[0], call.args[1], false);
      FcntlSame(s, t, pid, call, returned);
    }
  }

  /** A system call's record does the same in both states. */
  lemma SyscallSame(s: State, t: State, pid: Pid, r: Record, env: Env)
    requires SameFiles(s, t, pid)
    ensures var a, b := SyscallStep(s, pid, r, env), SyscallStep(t, pid, r, env);
            a.out == b.out && SameFiles(a.state, b.state, pid) && OthersKept(s, a.state, pid)
  {
    hide FinishCall;
    if !r.IsStart() && r.IsEnd() && r.thread in s.calls {
      FinishCallSame(s.(calls := s.calls - {r.thread}), t.(calls := t.calls - {r.thread}),
                     pid, r.timestamp, s.calls[r.thread], r.args[1], env);
    }
  }
}
