/**
 The Linux tracer: what it does at each stop the kernel reports. What it reads of a stopped task, and
 when, comes from an oracle for that stop; a task is taken to stay alive while its stop is handled.
 */
module LinuxModel {
  import opened Basics
  import opened TrackerModel
  import Seccomp

  type Pid = int
  type Tid = int

  const SIGSTOP: int := 19
  const AT_FDCWD: int := -100

  // ---- Stops ----

  datatype SeccompInfo = SeccompInfo(nr: int, args: seq<Word>)

  datatype SyscallInfo = AtExit(rval: int) | NotAtExit

  datatype Kind =
    /** A fork, vfork or clone event, in the parent. */
    | Cloned(child: Tid)
    | Execed
    | Filtered(info: SeccompInfo)
    /** Another event, such as a task about to exit. */
    | Noted
    | SyscallStop(call: SyscallInfo)
    | Signalled(signal: int)

  datatype Stop = Stopped(tid: Tid, kind: Kind) | Exited(tid: Tid, status: int)

  /** What can be read of a program: its name, command line and directory. */
  datatype Program = Program(name: Text, command: Text, cwd: Text, compilerWrapper: bool)

  /** What is read during one stop; `earlier` is when a task is registered before its stop is looked at. */
  datatype World = World(
    earlier: nat,
    now: nat,
    tgid: Tid -> Option<Pid>,
    ppid: Tid -> Option<Pid>,
    program: Tid -> Program,
    text: (Tid, Word) -> Option<Text>,
    word: (Tid, Word) -> Option<Word>,
    resolveAt: (Tid, int, Text) -> Text,
    resolveOpen: (Tid, int, Text) -> Text)

  // ---- State ----

  datatype PendingOpen = PendingOpen(time: nat, rawPath: Text, flags: Word)
  datatype PendingRename = PendingRename(time: nat, from: Text, to: Text)

  /** A process has a segment for as long as it is in the table. */
  datatype TracedProcess = TracedProcess(process: Process, segment: Segment)

  datatype Mode = Continue | UntilSyscall
  datatype Resumption = Resumption(tid: Tid, mode: Mode, signal: int)

  datatype Tracer = Tracer(
    arch: Seccomp.Arch,
    rootPid: Pid,
    rootExitCode: Option<nat>,
    active: set<Tid>,
    started: set<Tid>,
    tasks: map<Tid, Pid>,
    newborns: map<Tid, Pid>,
    pendingOpens: map<Tid, PendingOpen>,
    pendingRenames: map<Tid, PendingRename>,
    exitCodes: map<Pid, nat>,
    processes: map<Pid, TracedProcess>,
    sink: seq<Written>,
    resumed: seq<Resumption>)

  /** The root has started, stopped and been let go. */
  function New(arch: Seccomp.Arch, root: Pid, name: Text, command: Text, cwd: Text): Tracer {
    Tracer(arch, root, None, {root}, {root}, map[root := root], map[], map[], map[], map[],
           map[root := TracedProcess(Process(root, 0, 0, false), Segment(0, 0, name, command, cwd, None, false))],
           [ProcessStarted(root)], [Resumption(root, Continue, 0)])
  }

  function TgidOf(t: Tracer, tid: Tid): Pid {
    if tid in t.tasks then t.tasks[tid] else tid
  }

  function Say(t: Tracer, w: Written): (t': Tracer)
    ensures t' == t.(sink := t'.sink)
  {
    t.(sink := t.sink + [w])
  }

  function Resume(t: Tracer, tid: Tid, mode: Mode, signal: int): (t': Tracer)
    ensures t' == t.(resumed := t'.resumed)
  {
    t.(resumed := t.resumed + [Resumption(tid, mode, signal)])
  }

  predicate IsPending(t: Tracer, tid: Tid) {
    tid in t.pendingOpens || tid in t.pendingRenames
  }

  function ResumeWithMode(t: Tracer, tid: Tid, signal: int): (t': Tracer)
    ensures t' == t.(resumed := t'.resumed)
  {
    Resume(t, tid, if IsPending(t, tid) then UntilSyscall else Continue, signal)
  }

  function BuildParent(t: Tracer, parent: Pid): Pid {
    BuildParentOf(if parent in t.processes then Some(t.processes[parent].process) else None, parent)
  }

  function AddProcess(t: Tracer, pid: Pid, parent: Pid, segment: Segment): (t': Tracer)
    ensures t' == t.(processes := t'.processes, sink := t'.sink)
  {
    Say(t, ProcessStarted(pid)).(
      processes := t.processes[pid := TracedProcess(Process(pid, parent, BuildParent(t, parent), false), segment)])
  }

  // ---- Births ----

  function ForkSegment(t: Tracer, parent: Pid, now: nat): Segment {
    if parent in t.processes then
      var s := t.processes[parent].segment;
      Segment(now, 0, FORK_PREFIX + s.name, s.command, s.cwd, None, false)
    else Segment(now, 0, FORK_NAME, [], [], None, false)
  }

  /** Registers a task, and its process if it leads one that is not known. Doing so again is harmless. */
  function InitializeNewborn(t: Tracer, tid: Tid, parent: Pid, now: nat, world: World): (t': Tracer)
    ensures t' == t.(tasks := t'.tasks, processes := t'.processes, sink := t'.sink)
  {
    var tgid := if world.tgid(tid).Some? then world.tgid(tid).value else tid;
    var t1 := t.(tasks := t.tasks[tid := tgid]);
    if tgid == parent || tgid in t.processes then t1 else AddProcess(t1, tgid, parent, ForkSegment(t, parent, now))
  }

  function Clone(t: Tracer, tid: Tid, child: Tid, world: World): (t': Tracer)
    ensures t' == t.(active := t'.active, newborns := t'.newborns, tasks := t'.tasks, processes := t'.processes,
                     sink := t'.sink)
  {
    var parent := TgidOf(t, tid);
    var t1 := InitializeNewborn(t.(active := t.active + {child}), child, parent, world.now, world);
    t1.(newborns := t1.newborns[child := parent])
  }

  /** Registers a process first seen as it runs a program. */
  function Adopt(t: Tracer, tid: Tid, tgid: Pid, world: World): (t': Tracer)
    ensures tgid in t'.processes
    ensures t' == t.(tasks := t'.tasks, active := t'.active, processes := t'.processes, sink := t'.sink)
  {
    var parent := if world.ppid(tid).Some? then world.ppid(tid).value else 0;
    AddProcess(t.(tasks := if tid in t.tasks then t.tasks else t.tasks[tid := tgid], active := t.active + {tid}),
               tgid, parent, Segment(world.now, 0, [], [], [], None, false))
  }

  function ProgramSegment(p: Program, now: nat): Segment {
    Segment(now, 0, p.name, p.command, p.cwd, None, p.compilerWrapper)
  }

  function Named(s: Segment, p: Program): Segment {
    s.(name := p.name, command := p.command, cwd := p.cwd, compilerWrapper := p.compilerWrapper)
  }

  /** A first program names the process's segment; a later one ends it and starts another. */
  function RunIn(t: Tracer, tgid: Pid, program: Program, now: nat): (t': Tracer)
    requires tgid in t.processes
    ensures t' == t.(processes := t'.processes, sink := t'.sink)
  {
    var state := t.processes[tgid];
    if state.process.execed then
      t.(processes := t.processes[tgid := state.(segment := ProgramSegment(program, now))],
         sink := t.sink + [SegmentEnded(state.process, Ended(state.segment, now))])
    else
      t.(processes := t.processes[tgid := TracedProcess(state.process.(execed := true), Named(state.segment, program))])
  }

  function HandleExec(t: Tracer, tid: Tid, world: World): (t': Tracer)
    ensures t' == t.(tasks := t'.tasks, active := t'.active, processes := t'.processes, sink := t'.sink)
  {
    var tgid := TgidOf(t, tid);
    RunIn(if tgid in t.processes then t else Adopt(t, tid, tgid, world), tgid, world.program(tid), world.now)
  }

  // ---- System calls ----

  function Arg(info: SeccompInfo, i: nat): Word {
    if i < |info.args| then info.args[i] else 0
  }

  /** A path read from a task, resolved against a directory; None if there is none to read. */
  function ReadAt(world: World, tid: Tid, dirfd: int, address: Word): Option<Text> {
    match world.text(tid, address)
    case None => None
    case Some(raw) => if raw == [] then None else Some(world.resolveAt(tid, dirfd, raw))
  }

  /** "<unreadable path>" */
  const UNREADABLE: Text := [60, 117, 110, 114, 101, 97, 100, 97, 98, 108, 101, 32, 112, 97, 116, 104, 62]

  /** What a call that the filter stopped means to do, read as it starts. */
  datatype Intent = Opening(open: PendingOpen) | Renaming(rename: PendingRename) | Unreadable

  function IntentOf(arch: Seccomp.Arch, tid: Tid, info: SeccompInfo, world: World): Intent {
    if Seccomp.IsRename(arch, info.nr) then
      var bare := Seccomp.IsBareRename(arch, info.nr);
      var from := if bare then ReadAt(world, tid, AT_FDCWD, Arg(info, 0))
                  else ReadAt(world, tid, AsI32(Arg(info, 0)), Arg(info, 1));
      var to := if bare then ReadAt(world, tid, AT_FDCWD, Arg(info, 1))
                else ReadAt(world, tid, AsI32(Arg(info, 2)), Arg(info, 3));
      if from.Some? && to.Some? then Renaming(PendingRename(world.now, from.value, to.value)) else Unreadable
    else
      var bare := Seccomp.IsBareOpen(arch, info.nr);
      var path := world.text(tid, if bare then Arg(info, 0) else Arg(info, 1));
      var flags := if bare then Arg(info, 1)
                   else if info.nr == arch.openat then Arg(info, 2)
                   else if world.word(tid, Arg(info, 2)).Some? then world.word(tid, Arg(info, 2)).value else 0;
      Opening(PendingOpen(world.now, if path.Some? then path.value else UNREADABLE, flags))
  }

  function HandleSeccomp(t: Tracer, tid: Tid, info: SeccompInfo, world: World): (t': Tracer)
    ensures t' == t.(pendingOpens := t'.pendingOpens, pendingRenames := t'.pendingRenames, resumed := t'.resumed)
  {
    var t1 := match IntentOf(t.arch, tid, info, world)
      case Opening(open) => t.(pendingOpens := t.pendingOpens[tid := open])
      case Renaming(rename) => t.(pendingRenames := t.pendingRenames[tid := rename])
      case Unreadable => t;
    Resume(t1, tid, UntilSyscall, 0)
  }

  /** What an open that returned `rval` leaves in the trace. */
  function OpenRecord(tgid: Pid, tid: Tid, open: PendingOpen, rval: int, world: World): Written {
    var fd := (rval + 0x8000_0000) % 0x1_0000_0000 - 0x8000_0000;
    FileOpened(tgid, open.time, world.resolveOpen(tid, fd, open.rawPath), open.flags, fd, false)
  }

  function RenameRecord(tgid: Pid, rename: PendingRename): Written {
    FileRenamed(tgid, rename.time, rename.from, rename.to)
  }

  /** A rename that has ended moved something only if it succeeded. */
  function EndRename(t: Tracer, tid: Tid, rval: int): (t': Tracer)
    requires tid in t.pendingRenames
    ensures t' == t.(pendingRenames := t.pendingRenames - {tid}, sink := t'.sink)
  {
    t.(pendingRenames := t.pendingRenames - {tid},
       sink := if rval == 0 then t.sink + [RenameRecord(TgidOf(t, tid), t.pendingRenames[tid])] else t.sink)
  }

  function EndOpen(t: Tracer, tid: Tid, rval: int, world: World): (t': Tracer)
    requires tid in t.pendingOpens
    ensures t' == t.(pendingOpens := t.pendingOpens - {tid}, sink := t'.sink)
  {
    t.(pendingOpens := t.pendingOpens - {tid},
       sink := if rval >= 0 then t.sink + [OpenRecord(TgidOf(t, tid), tid, t.pendingOpens[tid], rval,
                                                      world)] else t.sink)
  }

  function EndCall(t: Tracer, tid: Tid, rval: int, world: World): (t': Tracer)
    ensures t' == t.(pendingOpens := t'.pendingOpens, pendingRenames := t'.pendingRenames, sink := t'.sink)
    ensures tid in t.pendingRenames ==> t'.pendingOpens == t.pendingOpens
    ensures tid !in t.pendingRenames ==> t'.pendingRenames == t.pendingRenames
    ensures t'.pendingOpens - {tid} == t.pendingOpens - {tid} && t'.pendingRenames - {tid} == t.pendingRenames - {tid}
    ensures !(tid in t.pendingOpens && tid in t.pendingRenames) ==> !IsPending(t', tid)
  {
    if tid in t.pendingRenames then EndRename(t, tid, rval)
    else if tid in t.pendingOpens then EndOpen(t, tid, rval, world)
    else t
  }

  function HandleSyscallStop(t: Tracer, tid: Tid, info: SyscallInfo, world: World): (t': Tracer)
    ensures t' == t.(pendingOpens := t'.pendingOpens, pendingRenames := t'.pendingRenames, sink := t'.sink,
                     resumed := t'.resumed)
  {
    match info
    case NotAtExit => ResumeWithMode(t, tid, 0)
    case AtExit(rval) => Resume(EndCall(t, tid, rval, world), tid, Continue, 0)
  }

  // ---- Exits ----

  function Forgotten(t: Tracer, tid: Tid): (t': Tracer)
    ensures t'.arch == t.arch && t'.rootPid == t.rootPid && t'.rootExitCode == t.rootExitCode
    ensures t'.exitCodes == t.exitCodes && t'.processes == t.processes && t'.sink == t.sink && t'.resumed == t.resumed
  {
    t.(active := t.active - {tid}, started := t.started - {tid}, pendingOpens := t.pendingOpens - {tid},
       pendingRenames := t.pendingRenames - {tid}, newborns := t.newborns - {tid}, tasks := t.tasks - {tid})
  }

  predicate HasTask(tasks: map<Tid, Pid>, tgid: Pid) {
    exists tid | tid in tasks :: tasks[tid] == tgid
  }

  /** A process ends with the last of its tasks. */
  function EndProcess(t: Tracer, tgid: Pid, code: nat, now: nat): (t': Tracer)
    ensures t' == t.(processes := t'.processes, exitCodes := t'.exitCodes, sink := t'.sink)
  {
    if HasTask(t.tasks, tgid) || tgid !in t.processes then t else
      var state := t.processes[tgid];
      var last := Ended(state.segment, now).(exitCode := Some(code));
      Say(Say(t.(processes := t.processes - {tgid}, exitCodes := t.exitCodes - {tgid}),
              SegmentEnded(state.process, last)),
          ProcessExited(tgid, last.start))
  }

  function TaskEnded(t: Tracer, tid: Tid, code: nat): Tracer {
    Forgotten(t, tid).(rootExitCode := if tid == t.rootPid then Some(Min(code, 255)) else t.rootExitCode,
                       exitCodes := t.exitCodes[TgidOf(t, tid) := code])
  }

  function HandleTaskExit(t: Tracer, tid: Tid, status: int, world: World): Tracer {
    EndProcess(TaskEnded(t, tid, ExitCode(status)), TgidOf(t, tid), ExitCode(status), world.now)
  }

  // ---- The loop ----

  /** Registers a task whose parent's event came first. */
  function Registered(t: Tracer, tid: Tid, world: World): (t': Tracer)
    ensures t' == t.(newborns := t'.newborns, tasks := t'.tasks, processes := t'.processes, sink := t'.sink)
  {
    if tid in t.newborns
    then InitializeNewborn(t.(newborns := t.newborns - {tid}), tid, t.newborns[tid], world.earlier, world)
    else t
  }

  function HandleKind(t: Tracer, tid: Tid, kind: Kind, world: World): Tracer {
    match kind
    case Cloned(child) => ResumeWithMode(Clone(t, tid, child, world), tid, 0)
    case Execed => ResumeWithMode(HandleExec(t, tid, world), tid, 0)
    case Filtered(info) => HandleSeccomp(t, tid, info, world)
    case Noted => ResumeWithMode(t, tid, 0)
    case SyscallStop(info) => HandleSyscallStop(t, tid, info, world)
    case Signalled(signal) => ResumeWithMode(t, tid, signal)
  }

  function HandleStop(t: Tracer, stop: Stop, world: World): Tracer {
    match stop
    case Exited(tid, status) => HandleTaskExit(t, tid, status, world)
    case Stopped(tid, kind) =>
      var t1 := Registered(t, tid, world);
      var t2 := t1.(started := t1.started + {tid});
      if tid !in t1.started && kind == Signalled(SIGSTOP)
      then Resume(t2.(active := t2.active + {tid}), tid, Continue, 0)
      else HandleKind(t2, tid, kind, world)
  }

  datatype Moment = Moment(stop: Stop, world: World)

  function HandleStops(t: Tracer, moments: seq<Moment>): Tracer {
    if moments == [] then t
    else HandleStop(HandleStops(t, moments[..|moments| - 1]), moments[|moments| - 1].stop, moments[|moments| - 1].world)
  }

  function FinishOne(t: Tracer, pid: Pid, now: nat): Tracer
    requires pid in t.processes
  {
    Say(t, SegmentEnded(t.processes[pid].process, t.processes[pid].segment.(end := now)))
  }

  /** When nothing is left to wait for, every process still open ends. */
  function FinishAll(t: Tracer, order: seq<Pid>, now: nat): (t': Tracer)
    requires forall i | 0 <= i < |order| :: order[i] in t.processes
    ensures t'.processes == t.processes
  {
    if order == [] then t else FinishOne(FinishAll(t, order[..|order| - 1], now), order[|order| - 1], now)
  }
}
