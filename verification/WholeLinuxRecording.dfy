/** On Linux too, whoever reads the file's bytes finds every record, and the segments of the kernel's processes. */
module WholeLinuxRecording {
  import opened Basics
  import opened TrackerModel
  import opened LinuxModel
  import opened Lives
  import opened LinuxLives
  import opened LinuxKernel
  import opened LinuxEndToEnd
  import opened TraceWriter
  import opened TraceRoundTrip
  import opened WholeRecording
  import TrackerProofs
  import TraceObject
  import Seccomp

  // ---- What the tracer writes is readable ----

  /** Every task and process the kernel and `/proc` name has an id of 32 bits, and the clock's readings fit 64. */
  ghost predicate KernelIds(m: Moment) {
    && IsI32(m.stop.tid) && (m.stop.Stopped? && m.stop.kind.Cloned? ==> IsI32(m.stop.kind.child))
    && (forall tid :: m.world.tgid(tid).Some? ==> IsI32(m.world.tgid(tid).value))
    && (forall tid :: m.world.ppid(tid).Some? ==> IsI32(m.world.ppid(tid).value))
    && m.world.now <= MAX_NS && m.world.earlier <= MAX_NS
  }

  predicate TableFits(table: map<Tid, Pid>) {
    forall tid | tid in table :: IsI32(table[tid])
  }

  predicate StateFits(state: TracedProcess) {
    ProcessFits(state.process) && state.segment.start <= MAX_NS && state.segment.exitCode.None?
  }

  predicate AllReadable(sink: seq<Written>) {
    forall i | 0 <= i < |sink| :: Readable(sink[i])
  }

  ghost predicate Sound(t: Tracer) {
    && TableFits(t.tasks) && TableFits(t.newborns) && AllReadable(t.sink)
    && (forall p | p in t.processes :: StateFits(t.processes[p]))
    && (forall tid | tid in t.pendingOpens :: t.pendingOpens[tid].time <= MAX_NS)
    && (forall tid | tid in t.pendingRenames :: t.pendingRenames[tid].time <= MAX_NS)
  }

  lemma AddToTable(table: map<Tid, Pid>, tid: Tid, pid: Pid)
    requires TableFits(table)
    ensures IsI32(pid) ==> TableFits(table[tid := pid])
    ensures TableFits(table - {tid})
  {
  }

  lemma OneMoreReadable(sink: seq<Written>, w: Written)
    requires AllReadable(sink) && Readable(w)
    ensures AllReadable(sink + [w])
  {
    hide Readable;
  }

  lemma TgidFits(t: Tracer, tid: Tid)
    requires TableFits(t.tasks) && IsI32(tid)
    ensures IsI32(TgidOf(t, tid))
  {
  }

  lemma AddIsSound(t: Tracer, pid: Pid, parent: Pid, segment: Segment)
    requires Sound(t) && IsI32(pid) && IsI32(parent) && segment.start <= MAX_NS && segment.exitCode.None?
    ensures Sound(AddProcess(t, pid, parent, segment))
  {
    hide TableFits, AllReadable;
    OneMoreReadable(t.sink, ProcessStarted(pid));
  }

  lemma NewbornIsSound(t: Tracer, tid: Tid, parent: Pid, now: nat, world: World)
    requires Sound(t) && IsI32(TgidRead(tid, world)) && IsI32(parent) && now <= MAX_NS
    ensures Sound(InitializeNewborn(t, tid, parent, now, world))
  {
    hide TableFits, AllReadable, AddProcess, StateFits;
    var tgid := TgidRead(tid, world);
    AddToTable(t.tasks, tid, tgid);
    if tgid != parent && tgid !in t.processes {
      AddIsSound(t.(tasks := t.tasks[tid := tgid]), tgid, parent, ForkSegment(t, parent, now));
    }
  }

  lemma CloneIsSound(t: Tracer, m: Moment, tid: Tid, child: Tid)
    requires Sound(t) && KernelIds(m) && m.stop == Stopped(tid, Cloned(child))
    ensures Sound(Clone(t, tid, child, m.world))
  {
    hide TableFits, AllReadable, StateFits, InitializeNewborn;
    TgidFits(t, tid);
    NewbornIsSound(t.(active := t.active + {child}), child, TgidOf(t, tid), m.world.now, m.world);
    var t1 := InitializeNewborn(t.(active := t.active + {child}), child, TgidOf(t, tid), m.world.now, m.world);
    AddToTable(t1.newborns, child, TgidOf(t, tid));
  }

  lemma RunIsSound(t: Tracer, tgid: Pid, program: Program, now: nat)
    requires Sound(t) && tgid in t.processes && now <= MAX_NS
    ensures Sound(RunIn(t, tgid, program, now))
  {
    hide TableFits, AllReadable;
    var state := t.processes[tgid];
    OneMoreReadable(t.sink, SegmentEnded(state.process, Ended(state.segment, now)));
  }

  lemma ExecIsSound(t: Tracer, m: Moment, tid: Tid)
    requires Sound(t) && KernelIds(m) && m.stop == Stopped(tid, Execed)
    ensures Sound(HandleExec(t, tid, m.world))
  {
    hide TableFits, AllReadable, StateFits, AddProcess, RunIn;
    var tgid := TgidOf(t, tid);
    TgidFits(t, tid);
    if tgid !in t.processes {
      var parent := if m.world.ppid(tid).Some? then m.world.ppid(tid).value else 0;
      AddToTable(t.tasks, tid, tgid);
      var t1 := t.(tasks := if tid in t.tasks then t.tasks else t.tasks[tid := tgid], active := t.active + {tid});
      AddIsSound(t1, tgid, parent, Segment(m.world.now, 0, [], [], [], None, false));
    }
    RunIsSound(if tgid in t.processes then t else Adopt(t, tid, tgid, m.world), tgid, m.world.program(tid),
               m.world.now);
  }

  lemma EnteringIsSound(t: Tracer, tid: Tid, info: SeccompInfo, world: World)
    requires Sound(t) && world.now <= MAX_NS
    ensures Sound(HandleSeccomp(t, tid, info, world))
  {
    hide TableFits, AllReadable, StateFits, ReadAt, Seccomp.IsRename, Seccomp.IsBareRename, Seccomp.IsBareOpen;
  }

  lemma LeavingIsSound(t: Tracer, tid: Tid, rval: int, world: World)
    requires Sound(t) && IsI32(tid)
    ensures Sound(EndCall(t, tid, rval, world))
  {
    hide TableFits, AllReadable, StateFits;
    TgidFits(t, tid);
    if tid in t.pendingRenames {
      OneMoreReadable(t.sink, RenameRecord(TgidOf(t, tid), t.pendingRenames[tid]));
    } else if tid in t.pendingOpens {
      OneMoreReadable(t.sink, OpenRecord(TgidOf(t, tid), tid, t.pendingOpens[tid], rval, world));
    }
  }

  lemma ForgottenIsSound(t: Tracer, tid: Tid, code: nat)
    requires Sound(t)
    ensures Sound(TaskEnded(t, tid, code))
  {
    hide TableFits, AllReadable, StateFits;
    AddToTable(t.tasks, tid, tid);
    AddToTable(t.newborns, tid, tid);
  }

  lemma EndingIsSound(t: Tracer, tgid: Pid, code: nat, now: nat)
    requires Sound(t) && code < 256 && now <= MAX_NS
    ensures Sound(EndProcess(t, tgid, code, now))
  {
    hide TableFits, AllReadable, HasTask;
    if tgid in t.processes {
      var state := t.processes[tgid];
      var last := Ended(state.segment, now).(exitCode := Some(code));
      OneMoreReadable(t.sink, SegmentEnded(state.process, last));
      OneMoreReadable(t.sink + [SegmentEnded(state.process, last)], ProcessExited(tgid, last.start));
    }
  }

  lemma SameIsSound(t: Tracer, u: Tracer)
    requires Sound(t) && u == t.(active := u.active, started := u.started, resumed := u.resumed)
    ensures Sound(u)
  {
  }

  lemma KindIsSound(t: Tracer, m: Moment, tid: Tid, kind: Kind)
    requires Sound(t) && KernelIds(m) && m.stop == Stopped(tid, kind)
    ensures Sound(HandleKind(t, tid, kind, m.world))
  {
    hide Sound, Clone, HandleExec, HandleSeccomp, EndCall;
    var u := HandleKind(t, tid, kind, m.world);
    match kind {
      case Cloned(child) =>
        CloneIsSound(t, m, tid, child);
        SameIsSound(Clone(t, tid, child, m.world), u);
      case Execed =>
        ExecIsSound(t, m, tid);
        SameIsSound(HandleExec(t, tid, m.world), u);
      case Filtered(info) =>
        EnteringIsSound(t, tid, info, m.world);
      case SyscallStop(call) =>
        if call.AtExit? {
          LeavingIsSound(t, tid, call.rval, m.world);
          SameIsSound(EndCall(t, tid, call.rval, m.world), u);
        } else {
          SameIsSound(t, u);
        }
      case _ =>
        SameIsSound(t, u);
    }
  }

  lemma RegisteredIsSound(t: Tracer, m: Moment, tid: Tid)
    requires Sound(t) && KernelIds(m) && m.stop.tid == tid
    ensures Sound(Registered(t, tid, m.world))
  {
    hide TableFits, AllReadable, StateFits, InitializeNewborn;
    if tid in t.newborns {
      AddToTable(t.newborns, tid, tid);
      assert IsI32(t.newborns[tid]) by { InTable(t.newborns, tid); }
      NewbornIsSound(t.(newborns := t.newborns - {tid}), tid, t.newborns[tid], m.world.earlier, m.world);
    }
  }

  lemma InTable(table: map<Tid, Pid>, tid: Tid)
    requires TableFits(table) && tid in table
    ensures IsI32(table[tid])
  {
  }

  lemma StopIsSound(t: Tracer, m: Moment)
    requires Sound(t) && KernelIds(m)
    ensures Sound(HandleStop(t, m.stop, m.world))
  {
    hide Sound, Registered, HandleKind, EndProcess, TaskEnded, ExitCode;
    match m.stop {
      case Exited(tid, status) =>
        ForgottenIsSound(t, tid, ExitCode(status));
        EndingIsSound(TaskEnded(t, tid, ExitCode(status)), TgidOf(t, tid), ExitCode(status), m.world.now);
      case Stopped(tid, kind) =>
        RegisteredIsSound(t, m, tid);
        var t1 := Registered(t, tid, m.world);
        var t2 := t1.(started := t1.started + {tid});
        SameIsSound(t1, t2);
        SameIsSound(t1, Resume(t2.(active := t2.active + {tid}), tid, Continue, 0));
        KindIsSound(t2, m, tid, kind);
    }
  }

  lemma {:induction false} StopsAreSound(t: Tracer, moments: seq<Moment>)
    requires Sound(t) && forall i | 0 <= i < |moments| :: KernelIds(moments[i])
    ensures Sound(HandleStops(t, moments))
  {
    hide Sound, HandleStop, KernelIds;
    if moments != [] {
      var n := |moments| - 1;
      StopsAreSound(t, moments[..n]);
      StopIsSound(HandleStops(t, moments[..n]), moments[n]);
    }
  }

  lemma {:induction false} FinishIsSound(t: Tracer, order: seq<Pid>, now: nat)
    requires Sound(t) && now <= MAX_NS && forall i | 0 <= i < |order| :: order[i] in t.processes
    ensures Sound(LinuxModel.FinishAll(t, order, now))
  {
    hide Sound, LinuxModel.FinishOne;
    if order != [] {
      var n := |order| - 1;
      FinishIsSound(t, order[..n], now);
      OneMoreIsSound(LinuxModel.FinishAll(t, order[..n], now), order[n], now);
    }
  }

  lemma OneMoreIsSound(t: Tracer, pid: Pid, now: nat)
    requires Sound(t) && now <= MAX_NS && pid in t.processes
    ensures Sound(LinuxModel.FinishOne(t, pid, now))
  {
    hide TableFits, AllReadable;
    OneMoreReadable(t.sink, SegmentEnded(t.processes[pid].process, t.processes[pid].segment.(end := now)));
  }

  lemma NewIsSound(arch: Seccomp.Arch, root: Pid, name: Text, command: Text, cwd: Text)
    requires IsI32(root)
    ensures Sound(LinuxModel.New(arch, root, name, command, cwd))
  {
  }

  lemma LinuxSinkIsReadable(arch: Seccomp.Arch, root: Pid, name: Text, command: Text, cwd: Text, moments: seq<Moment>,
                            order: seq<Pid>, now: nat)
    requires IsI32(root) && now <= MAX_NS && forall i | 0 <= i < |moments| :: KernelIds(moments[i])
    requires TrackerProofs.IsWalk(order, Traced(arch, root, name, command, cwd, moments).processes)
    ensures AllReadable(LinuxEndToEnd.Sink(arch, root, name, command, cwd, moments, order, now))
  {
    hide KernelIds, AllReadable, LinuxModel.New, HandleStops, LinuxModel.FinishAll;
    var t := Traced(arch, root, name, command, cwd, moments);
    NewIsSound(arch, root, name, command, cwd);
    StopsAreSound(LinuxModel.New(arch, root, name, command, cwd), moments);
    TrackerProofs.WalkIsInTable(order, t.processes);
    FinishIsSound(t, order, now);
  }

  // ---- The whole ----

  /**
   From the kernel's reports to the file the recorder leaves. Reading its bytes gives back every record,
   and the segments found there for a pid are those of the kernel's processes of that pid: from the naming
   of its leader, split at each program, to the exit of its last task, or as recording ended.
   */
  lemma LinuxFileTellsLives(arch: Seccomp.Arch, root: Pid, name: Text, command: Text, cwd: Text,
                            moments: seq<Moment>, order: seq<Pid>, now: nat, p: Pid)
    requires Orderly(root, moments) && IsI32(root) && now <= MAX_NS
    requires forall i | 0 <= i < |moments| :: KernelIds(moments[i])
    requires TrackerProofs.IsWalk(order, Traced(arch, root, name, command, cwd, moments).processes)
    requires var sink := LinuxEndToEnd.Sink(arch, root, name, command, cwd, moments, order, now);
             4 * |sink| < TWO_TO_64 - 4 && TraceObject.Fits(WriteItems(NEW_TRACE, AllItems(sink)).packets)
    ensures var sink := LinuxEndToEnd.Sink(arch, root, name, command, cwd, moments, order, now);
            var read, h := ReadTrace(FileBytes(sink)), LinuxKernel.KernelHistory(root, name, command, cwd, moments);
            && read.Some? && RecordsRead(read.value) == AllAsRead(sink) && Genealogy(h)
            && TrackerProofs.Segments(RecordsRead(read.value), p)
               == SegmentsOf(CLOCK, h, p) + AllLengthened(OpenAsOf(h, p, now))
  {
    hide Orderly, LinuxKernel.KernelHistory, WriteItems, TraceBytes, ReadTrace, AllItems, AllAsRead, RecordsRead,
         TrackerProofs.Segments, TrackerProofs.IsWalk, SegmentsOf, OpenAsOf, Genealogy, TraceObject.Fits, Readable,
         LinuxEndToEnd.Sink, Traced;
    var sink, h := LinuxEndToEnd.Sink(arch, root, name, command, cwd, moments, order, now),
                   LinuxKernel.KernelHistory(root, name, command, cwd, moments);
    LinuxSinkIsReadable(arch, root, name, command, cwd, moments, order, now);
    BytesTellRecords(sink);
    SegmentsAsRead(sink, p);
    SegmentsTellKernelLives(arch, root, name, command, cwd, moments, order, now, p);
    SegmentsLongEnough(CLOCK, h, p, OpenAsOf(h, p, now));
  }
}
