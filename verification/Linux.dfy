/** The Linux tracer itself: its tables, updated in place as stops are handled. */
module LinuxObject {
  import opened Basics
  import opened TrackerModel
  import opened LinuxModel
  import Seccomp

  class LiveTracer {
    const arch: Seccomp.Arch
    const rootPid: Pid
    var rootExitCode: Option<nat>
    var active: set<Tid>
    var started: set<Tid>
    var tasks: map<Tid, Pid>
    var newborns: map<Tid, Pid>
    var pendingOpens: map<Tid, PendingOpen>
    var pendingRenames: map<Tid, PendingRename>
    var exitCodes: map<Pid, nat>
    var processes: map<Pid, TracedProcess>
    /** What the trace writer has been told. */
    var sink: seq<Written>
    /** How tasks have been let go on. */
    var resumed: seq<Resumption>

    function Now(): Tracer
      reads this
    {
      LinuxModel.Tracer(arch, rootPid, rootExitCode, active, started, tasks, newborns, pendingOpens, pendingRenames,
                        exitCodes,
                        processes, sink, resumed)
    }

    constructor (arch: Seccomp.Arch, root: Pid, name: Text, command: Text, cwd: Text)
      ensures Now() == LinuxModel.New(arch, root, name, command, cwd)
    {
      this.arch, rootPid, rootExitCode := arch, root, None;
      active, started, tasks := {root}, {root}, map[root := root];
      newborns, pendingOpens, pendingRenames, exitCodes := map[], map[], map[], map[];
      processes := map[root := TracedProcess(Process(root, 0, 0, false),
                                             Segment(0, 0, name, command, cwd, None, false))];
      sink, resumed := [ProcessStarted(root)], [Resumption(root, Continue, 0)];
    }

    /** One turn of the loop: handles one status the kernel reports. */
    method HandleStatus(stop: Stop, world: World)
      modifies this
      ensures Now() == LinuxModel.HandleStop(old(Now()), stop, world)
    {
      hide InitializeNewborn, HandleTaskExit, LinuxModel.HandleKind;
      match stop {
        case Exited(tid, status) =>
          TaskExited(tid, status, world);
        case Stopped(tid, kind) =>
          if tid in newborns {
            var parent := newborns[tid];
            newborns := newborns - {tid};
            RegisterNewborn(tid, parent, world.earlier, world);
          }
          var firstStop := tid !in started;
          started := started + {tid};
          if firstStop && kind == Signalled(SIGSTOP) {
            active := active + {tid};
            LetGo(tid, Continue, 0);
            return;
          }
          HandleKind(tid, kind, world);
      }
    }

    method HandleKind(tid: Tid, kind: Kind, world: World)
      modifies this
      ensures Now() == LinuxModel.HandleKind(old(Now()), tid, kind, world)
    {
      hide InitializeNewborn, LinuxModel.HandleExec, LinuxModel.HandleSeccomp, LinuxModel.HandleSyscallStop;
      match kind {
        case Cloned(child) =>
          var parent := if tid in tasks then tasks[tid] else tid;
          active := active + {child};
          RegisterNewborn(child, parent, world.now, world);
          newborns := newborns[child := parent];
          LetGoWithMode(tid, 0);
        case Execed =>
          RanProgram(tid, world);
          LetGoWithMode(tid, 0);
        case Filtered(info) =>
          EnteredCall(tid, info, world);
        case Noted =>
          LetGoWithMode(tid, 0);
        case SyscallStop(info) =>
          LeftCall(tid, info, world);
        case Signalled(signal) =>
          LetGoWithMode(tid, signal);
      }
    }

    method LetGo(tid: Tid, mode: Mode, signal: int)
      modifies `resumed
      ensures Now() == LinuxModel.Resume(old(Now()), tid, mode, signal)
    {
      resumed := resumed + [Resumption(tid, mode, signal)];
    }

    method LetGoWithMode(tid: Tid, signal: int)
      modifies `resumed
      ensures Now() == LinuxModel.ResumeWithMode(old(Now()), tid, signal)
    {
      if tid in pendingOpens || tid in pendingRenames {
        LetGo(tid, UntilSyscall, signal);
      } else {
        LetGo(tid, Continue, signal);
      }
    }

    method RegisterNewborn(tid: Tid, parent: Pid, now: nat, world: World)
      modifies this
      ensures Now() == LinuxModel.InitializeNewborn(old(Now()), tid, parent, now, world)
    {
      var read := world.tgid(tid);
      var tgid := if read.Some? then read.value else tid;
      tasks := tasks[tid := tgid];
      if tgid == parent || tgid in processes {
        return;
      }
      var segment := Segment(now, 0, FORK_NAME, [], [], None, false);
      if parent in processes {
        var s := processes[parent].segment;
        segment := Segment(now, 0, FORK_PREFIX + s.name, s.command, s.cwd, None, false);
      }
      StartProcess(tgid, parent, segment);
    }

    method StartProcess(pid: Pid, parent: Pid, segment: Segment)
      modifies `sink, `processes
      ensures Now() == LinuxModel.AddProcess(old(Now()), pid, parent, segment)
    {
      var buildParent := BuildParentOf(if parent in processes then Some(processes[parent].process) else None, parent);
      sink := sink + [ProcessStarted(pid)];
      processes := processes[pid := TracedProcess(Process(pid, parent, buildParent, false), segment)];
    }

    method RanProgram(tid: Tid, world: World)
      modifies this
      ensures Now() == LinuxModel.HandleExec(old(Now()), tid, world)
    {
      var tgid := if tid in tasks then tasks[tid] else tid;
      var program := world.program(tid);
      if tgid !in processes {
        var read := world.ppid(tid);
        if tid !in tasks {
          tasks := tasks[tid := tgid];
        }
        active := active + {tid};
        StartProcess(tgid, if read.Some? then read.value else 0, Segment(world.now, 0, [], [], [], None, false));
      }
      var state := processes[tgid];
      if state.process.execed {
        var previous := Ended(state.segment, world.now);
        sink := sink + [SegmentEnded(state.process, previous)];
        processes := processes[tgid := state.(segment := ProgramSegment(program, world.now))];
      } else {
        processes := processes[tgid := TracedProcess(state.process.(execed := true), Named(state.segment, program))];
      }
    }

    method EnteredCall(tid: Tid, info: SeccompInfo, world: World)
      modifies `pendingOpens, `pendingRenames, `resumed
      ensures Now() == LinuxModel.HandleSeccomp(old(Now()), tid, info, world)
    {
      if Seccomp.IsRename(arch, info.nr) {
        var from: Option<Text>, to: Option<Text>;
        if Seccomp.IsBareRename(arch, info.nr) {
          from := ReadAt(world, tid, AT_FDCWD, Arg(info, 0));
          to := ReadAt(world, tid, AT_FDCWD, Arg(info, 1));
        } else {
          from := ReadAt(world, tid, AsI32(Arg(info, 0)), Arg(info, 1));
          to := ReadAt(world, tid, AsI32(Arg(info, 2)), Arg(info, 3));
        }
        if from.Some? && to.Some? {
          pendingRenames := pendingRenames[tid := PendingRename(world.now, from.value, to.value)];
        }
        LetGo(tid, UntilSyscall, 0);
        return;
      }
      var address, flags := Arg(info, 1), 0;
      if Seccomp.IsBareOpen(arch, info.nr) {
        address, flags := Arg(info, 0), Arg(info, 1);
      } else if info.nr == arch.openat {
        flags := Arg(info, 2);
      } else {
        var how := world.word(tid, Arg(info, 2));
        flags := if how.Some? then how.value else 0;
      }
      var path := world.text(tid, address);
      pendingOpens := pendingOpens[tid := PendingOpen(world.now, if path.Some? then path.value else UNREADABLE, flags)];
      LetGo(tid, UntilSyscall, 0);
    }

    method LeftCall(tid: Tid, info: SyscallInfo, world: World)
      modifies `pendingOpens, `pendingRenames, `sink, `resumed
      ensures Now() == LinuxModel.HandleSyscallStop(old(Now()), tid, info, world)
    {
      if tid in pendingRenames {
        if info.NotAtExit? {
          LetGo(tid, UntilSyscall, 0);
          return;
        }
        var pending := pendingRenames[tid];
        pendingRenames := pendingRenames - {tid};
        if info.rval == 0 {
          var tgid := if tid in tasks then tasks[tid] else tid;
          sink := sink + [FileRenamed(tgid, pending.time, pending.from, pending.to)];
        }
        LetGo(tid, Continue, 0);
        return;
      }
      if tid !in pendingOpens {
        LetGo(tid, Continue, 0);
        return;
      }
      if info.NotAtExit? {
        LetGo(tid, UntilSyscall, 0);
        return;
      }
      var pending := pendingOpens[tid];
      pendingOpens := pendingOpens - {tid};
      if info.rval >= 0 {
        var fd := (info.rval + 0x8000_0000) % 0x1_0000_0000 - 0x8000_0000;
        var path := world.resolveOpen(tid, fd, pending.rawPath);
        var tgid := if tid in tasks then tasks[tid] else tid;
        sink := sink + [FileOpened(tgid, pending.time, path, pending.flags, fd, false)];
      }
      LetGo(tid, Continue, 0);
    }

    method TaskExited(tid: Tid, status: int, world: World)
      modifies this
      ensures Now() == LinuxModel.HandleTaskExit(old(Now()), tid, status, world)
    {
      hide ExitCode, EndProcess, Forgotten;
      var tgid := if tid in tasks then tasks[tid] else tid;
      Forget(tid);
      var exitCode := ExitCode(status);
      if tid == rootPid {
        rootExitCode := Some(Min(exitCode, 255));
      }
      exitCodes := exitCodes[tgid := exitCode];
      EndIfLast(tgid, world.now);
    }

    method Forget(tid: Tid)
      modifies this
      ensures Now() == LinuxModel.Forgotten(old(Now()), tid)
    {
      active, started := active - {tid}, started - {tid};
      pendingOpens, pendingRenames, newborns := pendingOpens - {tid}, pendingRenames - {tid}, newborns - {tid};
      tasks := tasks - {tid};
    }

    method EndIfLast(tgid: Pid, now: nat)
      requires tgid in exitCodes
      modifies this
      ensures Now() == LinuxModel.EndProcess(old(Now()), tgid, old(exitCodes)[tgid], now)
    {
      hide Ended;
      if HasTask(tasks, tgid) {
        return;
      }
      if tgid in processes {
        var state := processes[tgid];
        processes := processes - {tgid};
        var segment := Ended(state.segment, now).(exitCode := Some(exitCodes[tgid]));
        exitCodes := exitCodes - {tgid};
        sink := sink + [SegmentEnded(state.process, segment)];
        sink := sink + [ProcessExited(tgid, segment.start)];
      }
    }

    /** Ends every process still open: `order` is the whole table, in the order a hash map is walked. */
    method Finish(now: nat, order: seq<Pid>)
      requires forall i | 0 <= i < |order| :: order[i] in processes
      requires forall pid | pid in processes :: pid in order
      requires forall i, j | 0 <= i < j < |order| :: order[i] != order[j]
      modifies `sink
      ensures Now() == LinuxModel.FinishAll(old(Now()), order, now)
    {
      var i := 0;
      while i < |order|
        invariant 0 <= i <= |order|
        invariant Now() == LinuxModel.FinishAll(old(Now()), order[..i], now)
      {
        assert order[..i + 1][..i] == order[..i];
        var state := processes[order[i]];
        sink := sink + [SegmentEnded(state.process, state.segment.(end := now))];
        i := i + 1;
      }
      assert order[..|order|] == order;
    }
  }
}
