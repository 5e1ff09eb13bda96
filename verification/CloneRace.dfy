/**
 A new process is told of three times: by its parent's clone event, by its own first stop, and by its
 first exec. These race. Whichever order they come in, and whatever other tasks do in between, the
 tracer ends with the same process, task, parent and build parent, started once in the trace.
 */
module CloneRace {
  import opened Basics
  import opened TrackerModel
  import opened LinuxModel
  import LinuxProofs
  import Seccomp

  /** The race: the new process, the task that cloned it, and that task's process as it was then. */
  datatype Race = Race(child: Pid, cloner: Tid, parent: Pid, parentProcess: TracedProcess, program: Program)

  /** Which of the three have been reported. */
  datatype Phase = Phase(cloned: bool, stopped: bool, execed: bool) {
    predicate IsKnown() {
      cloned || execed
    }
  }

  const ALL_REPORTED := Phase(true, true, true)

  // ---- Where the race stands ----

  function StartsIn(sink: seq<Written>, pid: Pid): nat {
    LinuxProofs.TallyOf(sink, pid).starts
  }

  /** What is known of the new process, whatever order it was told in. */
  predicate ChildAsTold(state: TracedProcess, race: Race, phase: Phase) {
    && state.process == Process(race.child, race.parent, BuildParentOf(Some(race.parentProcess.process), race.parent),
                                phase.execed)
    && state.segment.end == 0 && state.segment.exitCode.None?
    && (phase.execed ==> state.segment == ProgramSegment(race.program, state.segment.start))
    && (!phase.execed ==> state.segment == Segment(state.segment.start, 0,
                                                   FORK_PREFIX + race.parentProcess.segment.name,
                                                    race.parentProcess.segment.command, race.parentProcess.segment.cwd,
                                                         None, false))
  }

  predicate Standing(t: Tracer, race: Race, phase: Phase, starts: nat) {
    && (race.child in t.active <==> phase != Phase(false, false, false))
    && (race.child in t.started <==> phase.stopped)
    && Get(t.tasks, race.child) == (if phase.IsKnown() then Some(race.child) else None)
    && (Get(t.newborns, race.child) == None || (phase.cloned && Get(t.newborns, race.child) == Some(race.parent)))
    && Get(t.tasks, race.cloner) == Some(race.parent)
    && Get(t.processes, race.parent) == Some(race.parentProcess)
    && (race.child in t.processes <==> phase.IsKnown())
    && (phase.IsKnown() ==> ChildAsTold(t.processes[race.child], race, phase))
    && StartsIn(t.sink, race.child) == starts + (if phase.IsKnown() then 1 else 0)
  }

  // ---- What may happen ----

  /** `/proc` tells the truth of the two tasks. */
  predicate Truthful(race: Race, world: World) {
    && world.tgid(race.child) == Some(race.child) && world.ppid(race.child) == Some(race.parent)
    && world.tgid(race.cloner) == Some(race.parent)
  }

  predicate IsClone(race: Race, m: Moment) {
    m.stop == Stopped(race.cloner, Cloned(race.child)) && Truthful(race, m.world)
  }

  predicate IsFirstStop(race: Race, m: Moment) {
    m.stop == Stopped(race.child, Signalled(SIGSTOP)) && Truthful(race, m.world)
  }

  predicate IsExec(race: Race, m: Moment) {
    m.stop == Stopped(race.child, Execed) && Truthful(race, m.world) && m.world.program(race.child) == race.program
  }

  /** Registering `tid` does not start the new process under another task's parent. */
  predicate LeavesPid(t: Tracer, race: Race, tid: Tid, parent: Pid, world: World) {
    world.tgid(tid) == Some(race.child) ==> parent == race.child || race.child in t.processes
  }

  /**
   Whatever else may happen: any stop of any task, the two of the race among them (the child once it has
   had its first), but for the ends of these two, other programs of their processes, and a task that takes
   the child's pid for its own.
   */
  predicate IsAside(t: Tracer, race: Race, phase: Phase, m: Moment) {
    match m.stop
    case Exited(tid, _) => tid != race.child && tid != race.cloner
    case Stopped(tid, kind) =>
      && (tid == race.child ==> phase.stopped && Truthful(race, m.world))
      && (tid == race.cloner ==> Truthful(race, m.world))
      && (tid != race.child && tid != race.cloner && tid in t.newborns ==>
            LeavesPid(t, race, tid, t.newborns[tid], m.world))
      && var t1 := Registered(t, tid, m.world);
         match kind
         case Cloned(other) =>
           other != race.child && other != race.cloner && LeavesPid(t1, race, other, TgidOf(t1, tid), m.world)
         case Execed =>
           && tid != race.child && tid != race.cloner
           && TgidOf(t1, tid) != race.child && TgidOf(t1, tid) != race.parent
         case _ => true
  }

  /** The phase `m` leads to, or None if it is nothing that may come next. */
  function NextPhase(t: Tracer, race: Race, phase: Phase, m: Moment): Option<Phase> {
    if IsClone(race, m) && !phase.cloned then Some(phase.(cloned := true))
    else if IsFirstStop(race, m) && !phase.stopped then Some(phase.(stopped := true))
    else if IsExec(race, m) && phase.stopped && !phase.execed then Some(phase.(execed := true))
    else if IsAside(t, race, phase, m) then Some(phase)
    else None
  }

  /** The phase a run of stops leads to. The first stop comes before the exec; the clone event at any time. */
  function PhaseAfter(t: Tracer, race: Race, phase: Phase, moments: seq<Moment>): Option<Phase> {
    if moments == [] then Some(phase) else
      var n := |moments| - 1;
      match PhaseAfter(t, race, phase, moments[..n])
      case None => None
      case Some(before) => NextPhase(HandleStops(t, moments[..n]), race, before, moments[n])
  }

  // ---- One stop ----

  predicate Sane(race: Race) {
    race.child != race.parent && race.child != race.cloner
  }

  lemma AddingCounts(t: Tracer, pid: Pid, parent: Pid, segment: Segment, p: Pid)
    ensures StartsIn(AddProcess(t, pid, parent, segment).sink, p) == StartsIn(t.sink, p) + (if pid == p then 1 else 0)
  {
    hide LinuxProofs.TallyOf, BuildParent;
    LinuxProofs.MoreTally(t.sink, ProcessStarted(pid), p);
  }

  lemma CloneStands(t: Tracer, race: Race, phase: Phase, starts: nat, m: Moment)
    requires Sane(race) && Standing(t, race, phase, starts) && IsClone(race, m) && !phase.cloned
    ensures Standing(HandleStop(t, m.stop, m.world), race, phase.(cloned := true), starts)
  {
    hide StartsIn, AddProcess;
    ClonerRegistered(t, race, phase, starts, m.world);
    var t1 := Registered(t, race.cloner, m.world);
    var t2 := t1.(started := t1.started + {race.cloner}, active := t1.active + {race.child});
    ChildRegistered(t2, race, phase, m.world.now, m.world);
  }

  /** Registering the cloner again, if it was new itself, changes nothing of the race. */
  lemma ClonerRegistered(t: Tracer, race: Race, phase: Phase, starts: nat, world: World)
    requires Sane(race) && Standing(t, race, phase, starts) && Truthful(race, world)
    ensures Standing(Registered(t, race.cloner, world), race, phase, starts)
  {
    hide AddProcess, ChildAsTold;
  }

  /** What registering the child adds: its process if it was not known, and nothing if it was. */
  lemma ChildRegistered(t: Tracer, race: Race, phase: Phase, now: nat, world: World)
    requires Sane(race) && Truthful(race, world)
    requires Get(t.processes, race.parent) == Some(race.parentProcess)
    requires race.child in t.processes <==> phase.IsKnown()
    ensures var u := InitializeNewborn(t, race.child, race.parent, now, world);
            && u.tasks == t.tasks[race.child := race.child]
            && (phase.IsKnown() ==> u.processes == t.processes && u.sink == t.sink)
            && (!phase.IsKnown() ==>
                  && u.processes == t.processes[race.child := u.processes[race.child]]
                  && ChildAsTold(u.processes[race.child], race, Phase(true, phase.stopped, false))
                  && StartsIn(u.sink, race.child) == StartsIn(t.sink, race.child) + 1)
  {
    hide StartsIn;
    var t1 := t.(tasks := t.tasks[race.child := race.child]);
    if !phase.IsKnown() {
      AddingCounts(t1, race.child, race.parent, ForkSegment(t, race.parent, now), race.child);
    }
  }

  /** Registering the child at a stop of its own, if its parent's event came first, adds nothing. */
  lemma ChildReregistered(t: Tracer, race: Race, phase: Phase, starts: nat, world: World)
    requires Sane(race) && Standing(t, race, phase, starts) && Truthful(race, world)
    ensures var u := Registered(t, race.child, world);
            Standing(u, race, phase, starts) && race.child !in u.newborns
            && u.active == t.active && u.started == t.started
  {
    hide StartsIn, AddProcess, ChildAsTold;
  }

  lemma FirstStopStands(t: Tracer, race: Race, phase: Phase, starts: nat, m: Moment)
    requires Sane(race) && Standing(t, race, phase, starts) && IsFirstStop(race, m) && !phase.stopped && !phase.execed
    ensures Standing(HandleStop(t, m.stop, m.world), race, phase.(stopped := true), starts)
  {
    hide StartsIn, Registered;
    ChildReregistered(t, race, phase, starts, m.world);
  }

  lemma ExecStands(t: Tracer, race: Race, phase: Phase, starts: nat, m: Moment)
    requires Sane(race) && Standing(t, race, phase, starts) && IsExec(race, m) && phase.stopped && !phase.execed
    ensures Standing(HandleStop(t, m.stop, m.world), race, phase.(execed := true), starts)
  {
    hide StartsIn, Registered, HandleExec;
    ChildReregistered(t, race, phase, starts, m.world);
    var t1 := Registered(t, race.child, m.world);
    var t2 := t1.(started := t1.started + {race.child});
    ExecTold(t2, race, phase, m.world);
  }

  lemma ExecTold(t: Tracer, race: Race, phase: Phase, world: World)
    requires Sane(race) && Truthful(race, world) && world.program(race.child) == race.program && !phase.execed
    requires Get(t.processes, race.parent) == Some(race.parentProcess)
    requires Get(t.tasks, race.child) == (if phase.IsKnown() then Some(race.child) else None)
    requires race.child in t.processes <==> phase.IsKnown()
    requires phase.IsKnown() ==> ChildAsTold(t.processes[race.child], race, phase)
    ensures var u := HandleExec(t, race.child, world);
            && race.child in u.processes && ChildAsTold(u.processes[race.child], race, phase.(execed := true))
            && u.processes == t.processes[race.child := u.processes[race.child]]
            && u.tasks == t.tasks[race.child := race.child]
            && u.active <= t.active + {race.child} && t.active <= u.active
            && StartsIn(u.sink, race.child) == StartsIn(t.sink, race.child) + (if phase.IsKnown() then 0 else 1)
  {
    hide StartsIn;
    if !phase.IsKnown() {
      var t1 := t.(tasks := t.tasks[race.child := race.child], active := t.active + {race.child});
      AddingCounts(t1, race.child, race.parent, Segment(world.now, 0, [], [], [], None, false), race.child);
    }
  }

  // ---- Other tasks ----

  /** What the race depends on. */
  predicate SameStanding(t: Tracer, u: Tracer, race: Race) {
    && (race.child in t.active <==> race.child in u.active) && (race.child in t.started <==> race.child in u.started)
    && Get(t.tasks, race.child) == Get(u.tasks, race.child) && Get(t.tasks, race.cloner) == Get(u.tasks, race.cloner)
    && Get(t.newborns, race.child) == Get(u.newborns, race.child)
    && Get(t.processes, race.child) == Get(u.processes, race.child)
    && Get(t.processes, race.parent) == Get(u.processes, race.parent)
    && StartsIn(t.sink, race.child) == StartsIn(u.sink, race.child)
  }

  lemma SameStands(t: Tracer, u: Tracer, race: Race, phase: Phase, starts: nat)
    requires Standing(t, race, phase, starts) && SameStanding(t, u, race)
    ensures Standing(u, race, phase, starts)
  {
    hide StartsIn, ChildAsTold;
    assert phase.IsKnown() ==> Get(u.processes, race.child) == Some(t.processes[race.child]);
  }

  lemma OtherStart(t: Tracer, race: Race, tid: Tid, parent: Pid, now: nat, world: World)
    requires Sane(race) && tid != race.child && tid != race.cloner && LeavesPid(t, race, tid, parent, world)
    requires race.parent in t.processes
    ensures SameStanding(t, InitializeNewborn(t, tid, parent, now, world), race)
  {
    hide StartsIn;
    var tgid := if world.tgid(tid).Some? then world.tgid(tid).value else tid;
    var t1 := t.(tasks := t.tasks[tid := tgid]);
    AddingCounts(t1, tgid, parent, ForkSegment(t, parent, now), race.child);
  }

  lemma OtherExec(t: Tracer, race: Race, tid: Tid, world: World)
    requires tid != race.child && tid != race.cloner
    requires TgidOf(t, tid) != race.child && TgidOf(t, tid) != race.parent
    ensures SameStanding(t, HandleExec(t, tid, world), race)
  {
    hide StartsIn, Adopt, RunIn;
    var tgid := TgidOf(t, tid);
    if tgid !in t.processes {
      OtherAdopt(t, race, tid, tgid, world);
    }
    OtherRun(if tgid in t.processes then t else Adopt(t, tid, tgid, world), race, tgid, world.program(tid), world.now);
  }

  lemma OtherAdopt(t: Tracer, race: Race, tid: Tid, tgid: Pid, world: World)
    requires tid != race.child && tid != race.cloner && tgid != race.child && tgid != race.parent
    ensures SameStanding(t, Adopt(t, tid, tgid, world), race)
  {
    hide StartsIn;
    var t1 := t.(tasks := if tid in t.tasks then t.tasks else t.tasks[tid := tgid], active := t.active + {tid});
    AddingCounts(t1, tgid, if world.ppid(tid).Some? then world.ppid(tid).value else 0,
                 Segment(world.now, 0, [], [], [], None, false), race.child);
  }

  lemma OtherRun(t: Tracer, race: Race, tgid: Pid, program: Program, now: nat)
    requires tgid in t.processes && tgid != race.child && tgid != race.parent
    ensures SameStanding(t, RunIn(t, tgid, program, now), race)
  {
    hide LinuxProofs.TallyOf;
    LinuxProofs.MoreTally(t.sink, SegmentEnded(t.processes[tgid].process, Ended(t.processes[tgid].segment, now)),
                          race.child);
  }

  /** The exit of another task, though it be one of either process's: each still has its own of the race. */
  lemma OtherExit(t: Tracer, race: Race, phase: Phase, starts: nat, tid: Tid, status: int, world: World)
    requires Sane(race) && Standing(t, race, phase, starts) && tid != race.child && tid != race.cloner
    ensures SameStanding(t, HandleTaskExit(t, tid, status, world), race)
  {
    hide LinuxProofs.TallyOf, Ended, ExitCode, EndProcess, ChildAsTold, HasTask;
    var tgid, code := TgidOf(t, tid), ExitCode(status);
    var t1 := TaskEnded(t, tid, code);
    if tgid == race.parent {
      StillATask(t1.tasks, race.cloner);
    } else if tgid == race.child && race.child in t.processes {
      StillATask(t1.tasks, race.child);
    }
    OtherEnd(t1, race, tgid, code, world.now);
  }

  lemma StillATask(tasks: map<Tid, Pid>, tid: Tid)
    requires tid in tasks
    ensures HasTask(tasks, tasks[tid])
  {
  }

  lemma OtherEnd(t: Tracer, race: Race, tgid: Pid, code: nat, now: nat)
    requires (tgid != race.child && tgid != race.parent) || HasTask(t.tasks, tgid) || tgid !in t.processes
    ensures SameStanding(t, EndProcess(t, tgid, code, now), race)
  {
    hide LinuxProofs.TallyOf, HasTask;
    if tgid in t.processes {
      var state := t.processes[tgid];
      var last := Ended(state.segment, now).(exitCode := Some(code));
      LinuxProofs.MoreTally(t.sink, SegmentEnded(state.process, last), race.child);
      LinuxProofs.MoreTally(t.sink + [SegmentEnded(state.process, last)], ProcessExited(tgid, last.start), race.child);
    }
  }

  lemma CallSame(t: Tracer, race: Race, tid: Tid, rval: int, world: World)
    ensures SameStanding(t, EndCall(t, tid, rval, world), race)
  {
    hide LinuxProofs.TallyOf;
    if tid in t.pendingRenames {
      LinuxProofs.MoreTally(t.sink, RenameRecord(TgidOf(t, tid), t.pendingRenames[tid]), race.child);
    } else if tid in t.pendingOpens {
      LinuxProofs.MoreTally(t.sink, OpenRecord(TgidOf(t, tid), tid, t.pendingOpens[tid], rval, world), race.child);
    }
  }

  lemma OtherKind(t: Tracer, race: Race, tid: Tid, kind: Kind, world: World)
    requires Sane(race) && race.parent in t.processes
    requires kind.Cloned? ==> kind.child != race.child && kind.child != race.cloner
                              && LeavesPid(t, race, kind.child, TgidOf(t, tid), world)
    requires kind.Execed? ==> tid != race.child && tid != race.cloner
                              && TgidOf(t, tid) != race.child && TgidOf(t, tid) != race.parent
    ensures SameStanding(t, HandleKind(t, tid, kind, world), race)
  {
    hide StartsIn, InitializeNewborn, HandleExec, EndCall, HandleSeccomp;
    match kind {
      case Cloned(child) =>
        OtherStart(t.(active := t.active + {child}), race, child, TgidOf(t, tid), world.now, world);
      case Execed =>
        OtherExec(t, race, tid, world);
      case SyscallStop(call) =>
        if call.AtExit? {
          CallSame(t, race, tid, call.rval, world);
        }
      case _ =>
    }
  }

  /** Whatever else happens leaves the race where it stands. */
  lemma AsideStands(t: Tracer, race: Race, phase: Phase, starts: nat, m: Moment)
    requires Sane(race) && Standing(t, race, phase, starts) && IsAside(t, race, phase, m)
    ensures Standing(HandleStop(t, m.stop, m.world), race, phase, starts)
  {
    hide Standing, SameStanding, InitializeNewborn, HandleKind, HandleTaskExit, LeavesPid, Truthful;
    match m.stop {
      case Exited(tid, status) =>
        OtherExit(t, race, phase, starts, tid, status, m.world);
        SameStands(t, HandleStop(t, m.stop, m.world), race, phase, starts);
      case Stopped(tid, kind) =>
        RegisteredAside(t, race, phase, starts, tid, m.world);
        var t1 := Registered(t, tid, m.world);
        var t2 := t1.(started := t1.started + {tid});
        StartedAside(t1, race, phase, starts, tid);
        if tid in t1.started || kind != Signalled(SIGSTOP) {
          ParentKnown(t2, race, phase, starts);
          SameLeaving(t1, t2, race, tid, kind, m.world);
          OtherKind(t2, race, tid, kind, m.world);
          SameStands(t2, HandleKind(t2, tid, kind, m.world), race, phase, starts);
        }
    }
  }

  lemma SameLeaving(t: Tracer, u: Tracer, race: Race, tid: Tid, kind: Kind, world: World)
    requires u.tasks == t.tasks && u.processes == t.processes
    ensures kind.Cloned? ==> LeavesPid(t, race, kind.child, TgidOf(t, tid), world)
                             == LeavesPid(u, race, kind.child, TgidOf(u, tid), world)
    ensures TgidOf(t, tid) == TgidOf(u, tid)
  {
  }

  lemma ParentKnown(t: Tracer, race: Race, phase: Phase, starts: nat)
    requires Standing(t, race, phase, starts)
    ensures race.parent in t.processes
  {
    hide StartsIn, ChildAsTold;
  }

  lemma RegisteredAside(t: Tracer, race: Race, phase: Phase, starts: nat, tid: Tid, world: World)
    requires Sane(race) && Standing(t, race, phase, starts)
    requires tid == race.child || tid == race.cloner ==> Truthful(race, world)
    requires tid != race.child && tid != race.cloner && tid in t.newborns ==>
               LeavesPid(t, race, tid, t.newborns[tid], world)
    ensures Standing(Registered(t, tid, world), race, phase, starts)
  {
    hide StartsIn, InitializeNewborn, ChildAsTold, Standing, SameStanding, LeavesPid;
    if tid == race.child {
      ChildReregistered(t, race, phase, starts, world);
    } else if tid == race.cloner {
      ClonerRegistered(t, race, phase, starts, world);
    } else {
      OtherRegistered(t, race, phase, starts, tid, world);
    }
  }

  lemma OtherRegistered(t: Tracer, race: Race, phase: Phase, starts: nat, tid: Tid, world: World)
    requires Sane(race) && Standing(t, race, phase, starts) && tid != race.child && tid != race.cloner
    requires tid in t.newborns ==> LeavesPid(t, race, tid, t.newborns[tid], world)
    ensures Standing(Registered(t, tid, world), race, phase, starts)
  {
    hide StartsIn, InitializeNewborn, ChildAsTold;
    if tid in t.newborns {
      OtherStart(t.(newborns := t.newborns - {tid}), race, tid, t.newborns[tid], world.earlier, world);
    }
    SameStands(t, Registered(t, tid, world), race, phase, starts);
  }

  lemma StartedAside(t: Tracer, race: Race, phase: Phase, starts: nat, tid: Tid)
    requires Standing(t, race, phase, starts) && (tid == race.child ==> phase.stopped)
    ensures Standing(t.(started := t.started + {tid}), race, phase, starts)
    ensures Standing(Resume(t.(started := t.started + {tid}, active := t.active + {tid}), tid, Continue, 0), race,
                     phase, starts)
  {
    hide StartsIn, ChildAsTold;
  }

  // ---- The race as a whole ----

  lemma {:induction false} RaceStands(t: Tracer, race: Race, phase: Phase, starts: nat, moments: seq<Moment>)
    requires Sane(race) && Standing(t, race, phase, starts) && (phase.execed ==> phase.stopped)
    requires PhaseAfter(t, race, phase, moments).Some?
    ensures Standing(HandleStops(t, moments), race, PhaseAfter(t, race, phase, moments).value, starts)
    ensures PhaseAfter(t, race, phase, moments).value.execed ==> PhaseAfter(t, race, phase, moments).value.stopped
  {
    hide HandleStop, Standing, IsAside, IsClone, IsFirstStop, IsExec;
    if moments != [] {
      var n := |moments| - 1;
      RaceStands(t, race, phase, starts, moments[..n]);
      var before, at := HandleStops(t, moments[..n]), PhaseAfter(t, race, phase, moments[..n]).value;
      var m := moments[n];
      if IsClone(race, m) && !at.cloned {
        CloneStands(before, race, at, starts, m);
      } else if IsFirstStop(race, m) && !at.stopped {
        FirstStopStands(before, race, at, starts, m);
      } else if IsExec(race, m) && at.stopped && !at.execed {
        ExecStands(before, race, at, starts, m);
      } else {
        AsideStands(before, race, at, starts, m);
      }
    }
  }

  /** The new process as it is when all has been reported, its start left out. */
  function Settled(race: Race, start: nat): TracedProcess {
    TracedProcess(Process(race.child, race.parent, BuildParentOf(Some(race.parentProcess.process), race.parent), true),
                  ProgramSegment(race.program, start))
  }

  /**
   However two runs order the three reports, and whatever else they hear in between, they end alike:
   the same task, the same process with the same parent and build parent, once started in the trace.
   Only when its segment starts may differ, and whether a stop of the child is still to be registered.
   */
  lemma OrderDoesNotMatter(t: Tracer, race: Race, starts: nat, first: seq<Moment>, second: seq<Moment>)
    requires Sane(race) && Standing(t, race, Phase(false, false, false), starts)
    requires PhaseAfter(t, race, Phase(false, false, false), first) == Some(ALL_REPORTED)
    requires PhaseAfter(t, race, Phase(false, false, false), second) == Some(ALL_REPORTED)
    ensures forall u | u in {HandleStops(t, first), HandleStops(t, second)} ::
              && Get(u.tasks, race.child) == Some(race.child)
              && race.child in u.processes
              && u.processes[race.child] == Settled(race, u.processes[race.child].segment.start)
              && race.child in u.active && race.child in u.started
              && StartsIn(u.sink, race.child) == starts + 1
              && Get(u.newborns, race.child) in {None, Some(race.parent)}
  {
    hide HandleStops, PhaseAfter, StartsIn;
    RaceStands(t, race, Phase(false, false, false), starts, first);
    RaceStands(t, race, Phase(false, false, false), starts, second);
  }

  /** The race can be on from the start: any child of the root. */
  lemma RaceCanBegin(arch: Seccomp.Arch, root: Pid, name: Text, command: Text, cwd: Text, race: Race)
    requires Sane(race) && race.cloner == root == race.parent
    requires race.parentProcess == TracedProcess(Process(root, 0, 0, false),
                                                 Segment(0, 0, name, command, cwd, None, false))
    ensures Standing(LinuxModel.New(arch, root, name, command, cwd), race, Phase(false, false, false), 0)
  {
    hide ChildAsTold, LinuxProofs.TallyOf;
    LinuxProofs.FirstTally(ProcessStarted(root), race.child);
  }

  /** The three orders there are. */
  lemma TheThreeOrders(t: Tracer, race: Race, clone: Moment, stop: Moment, exec: Moment)
    requires Sane(race) && IsClone(race, clone) && IsFirstStop(race, stop) && IsExec(race, exec)
    ensures PhaseAfter(t, race, Phase(false, false, false), [clone, stop, exec]) == Some(ALL_REPORTED)
    ensures PhaseAfter(t, race, Phase(false, false, false), [stop, clone, exec]) == Some(ALL_REPORTED)
    ensures PhaseAfter(t, race, Phase(false, false, false), [stop, exec, clone]) == Some(ALL_REPORTED)
  {
    hide IsAside, HandleStops, IsClone, IsFirstStop, IsExec;
    Apart(race, clone, stop, exec);
    TwoAfter(t, race, clone, stop);
    TwoAfter(t, race, stop, clone);
    TwoAfter(t, race, stop, exec);
    OneAfter(t, race, Phase(false, false, false), [clone, stop], exec);
    OneAfter(t, race, Phase(false, false, false), [stop, clone], exec);
    OneAfter(t, race, Phase(false, false, false), [stop, exec], clone);
    assert [clone, stop] + [exec] == [clone, stop, exec] && [stop, clone] + [exec] == [stop, clone, exec];
    assert [stop, exec] + [clone] == [stop, exec, clone];
  }

  lemma Apart(race: Race, clone: Moment, stop: Moment, exec: Moment)
    requires Sane(race) && IsClone(race, clone) && IsFirstStop(race, stop) && IsExec(race, exec)
    ensures !IsClone(race, stop) && !IsClone(race, exec) && !IsFirstStop(race, clone) && !IsFirstStop(race, exec)
    ensures !IsExec(race, clone) && !IsExec(race, stop)
  {
  }

  lemma TwoAfter(t: Tracer, race: Race, first: Moment, second: Moment)
    ensures PhaseAfter(t, race, Phase(false, false, false), [first, second])
         == match NextPhase(t, race, Phase(false, false, false), first)
            case None => None
            case Some(at) => NextPhase(HandleStops(t, [first]), race, at, second)
  {
    hide NextPhase;
    OneAfter(t, race, Phase(false, false, false), [], first);
    OneAfter(t, race, Phase(false, false, false), [first], second);
    assert [] + [first] == [first] && [first] + [second] == [first, second];
    assert HandleStops(t, []) == t;
  }

  lemma OneAfter(t: Tracer, race: Race, phase: Phase, before: seq<Moment>, m: Moment)
    ensures PhaseAfter(t, race, phase, before + [m])
         == match PhaseAfter(t, race, phase, before)
            case None => None
            case Some(at) => NextPhase(HandleStops(t, before), race, at, m)
  {
    hide NextPhase;
    assert (before + [m])[..|before|] == before;
  }

  /** A leftover registration is cleared by the child's next stop, which changes nothing else of it. */
  lemma NextStopClears(t: Tracer, race: Race, starts: nat, kind: Kind, world: World)
    requires Sane(race) && Standing(t, race, ALL_REPORTED, starts) && Truthful(race, world)
    requires kind.Noted? || kind.Filtered? || kind.SyscallStop? || kind.Signalled?
    ensures var u := HandleStop(t, Stopped(race.child, kind), world);
            race.child !in u.newborns && Standing(u, race, ALL_REPORTED, starts)
  {
    hide StartsIn, Registered, EndCall, HandleSeccomp, ChildAsTold;
    ChildReregistered(t, race, ALL_REPORTED, starts, world);
    var t1 := Registered(t, race.child, world);
    var t2 := t1.(started := t1.started + {race.child});
    SameStands(t1, t2, race, ALL_REPORTED, starts);
    if kind.SyscallStop? && kind.call.AtExit? {
      CallSame(t2, race, race.child, kind.call.rval, world);
    }
    SameStands(t2, HandleStop(t, Stopped(race.child, kind), world), race, ALL_REPORTED, starts);
  }
}
