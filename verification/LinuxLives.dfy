/**
 What the Linux tracer writes of processes is what their lives call for: a segment for each program,
 from the process's registration to the exit of its last task, without gap or overlap.
 */
module LinuxLives {
  import opened Basics
  import opened TrackerModel
  import opened LinuxModel
  import opened Lives
  import opened TrackerProofs
  import Seccomp

  /** The tracer's clock counts nanoseconds already. */
  const CLOCK := Clock(0, 1, 1)

  lemma NsIsTime(time: nat)
    requires time <= MAX_NS
    ensures CLOCK.Ns(time) == time
  {
  }

  // ---- What stops tell of lives ----

  function TgidRead(tid: Tid, world: World): Pid {
    if world.tgid(tid).Some? then world.tgid(tid).value else tid
  }

  /** A task that leads a process not known yet is a birth. */
  function Registering(h: History, tid: Tid, parent: Pid, now: nat, world: World): History {
    var tgid := TgidRead(tid, world);
    if tgid == parent || tgid in h.alive then h else Born(h, tgid, parent, now)
  }

  /** What is said of a process first seen as it runs a program, before that program is read. */
  const NAMELESS := Caption([], [], [], false)

  /** What a program's own reading says of it. */
  function ReadOf(program: Program): Caption {
    Caption(program.name, program.command, program.cwd, program.compilerWrapper)
  }

  /** A program run in an unknown process tells of its birth too. */
  function Running(h: History, tgid: Pid, tid: Tid, world: World): History {
    var parent := if world.ppid(tid).Some? then world.ppid(tid).value else 0;
    Ran(if tgid in h.alive then h else BornAs(h, tgid, parent, world.now, NAMELESS), tgid, world.now,
        ReadOf(world.program(tid)))
  }

  function KindLives(t: Tracer, h: History, tid: Tid, kind: Kind, world: World): History {
    match kind
    case Cloned(child) => Registering(h, child, TgidOf(t, tid), world.now, world)
    case Execed => Running(h, TgidOf(t, tid), tid, world)
    case _ => h
  }

  function StopLives(t: Tracer, h: History, stop: Stop, world: World): History {
    match stop
    case Exited(tid, status) =>
      var tgid := TgidOf(t, tid);
      if HasTask(t.tasks - {tid}, tgid) || tgid !in h.alive then h else Died(h, tgid, world.now, status)
    case Stopped(tid, kind) =>
      var h1 := if tid in t.newborns then Registering(h, tid, t.newborns[tid], world.earlier, world) else h;
      KindLives(Registered(t, tid, world), h1, tid, kind, world)
  }

  function StopsLives(t: Tracer, h: History, moments: seq<Moment>): History {
    if moments == [] then h else
      var n := |moments| - 1;
      StopLives(HandleStops(t, moments[..n]), StopsLives(t, h, moments[..n]), moments[n].stop, moments[n].world)
  }

  // ---- The tracer follows them ----

  ghost predicate Follows(t: Tracer, h: History) {
    && Genealogy(h) && t.processes.Keys == h.alive.Keys
    && (forall p | p in h.alive :: Reflects(t.processes[p], h.births, h.alive[p]))
    && (forall p :: Segments(t.sink, p) == SegmentsOf(CLOCK, h, p))
  }

  predicate Reflects(state: TracedProcess, births: seq<Birth>, life: Life)
    requires life.birth < |births|
  {
    && state.process == ProcessOf(births, life)
    && Says(state.segment) == CaptionOf(life)
    && state.segment.start == SegmentStart(CLOCK, life) && state.segment.exitCode == None
  }

  lemma MoreSegments(sink: seq<Written>, w: Written, pid: Pid)
    ensures Segments(sink + [w], pid)
         == if w.SegmentEnded? && w.process.pid == pid then Segments(sink, pid) + [OutlineOf(w.process, w.segment)]
            else Segments(sink, pid)
  {
    assert (sink + [w])[..|sink|] == sink;
  }

  lemma AddFollows(t: Tracer, h: History, pid: Pid, parent: Pid, segment: Segment, now: nat)
    requires Follows(t, h) && pid !in h.alive && now <= MAX_NS
    requires segment.start == now && segment.exitCode == None
    ensures Follows(AddProcess(t, pid, parent, segment), BornAs(h, pid, parent, now, Says(segment)))
  {
    hide AllTiles, Segments, SegmentsOf, Reflects;
    var t1, h1 := AddProcess(t, pid, parent, segment), BornAs(h, pid, parent, now, Says(segment));
    forall p | p in h.alive ensures Reflects(t.processes[p], h1.births, h.alive[p]) {
      StillReflects(t.processes[p], h.births, h1.births, h.alive[p]);
    }
    AddReflects(t, h, pid, parent, segment, now);
    forall p ensures Segments(t1.sink, p) == SegmentsOf(CLOCK, h1, p) {
      BornSegments(CLOCK, h, pid, parent, now, Says(segment), p);
      MoreSegments(t.sink, ProcessStarted(pid), p);
    }
  }

  lemma StillReflects(state: TracedProcess, births: seq<Birth>, more: seq<Birth>, life: Life)
    requires births <= more && life.birth < |births| && Reflects(state, births, life)
    ensures Reflects(state, more, life)
  {
    ReplacedStays(CLOCK, births, more, life);
  }

  lemma AddReflects(t: Tracer, h: History, pid: Pid, parent: Pid, segment: Segment, now: nat)
    requires Follows(t, h) && pid !in h.alive && now <= MAX_NS
    requires segment.start == now && segment.exitCode == None
    ensures var h1 := BornAs(h, pid, parent, now, Says(segment));
            Reflects(AddProcess(t, pid, parent, segment).processes[pid], h1.births, h1.alive[pid])
  {
    hide Segments, SegmentsOf;
    NsIsTime(now);
    if parent in h.alive {
      WalkUpStays(h.births, BornAs(h, pid, parent, now, Says(segment)).births, h.alive[parent].birth);
    }
  }

  lemma SameFollows(t: Tracer, u: Tracer, h: History)
    requires Follows(t, h) && u.processes == t.processes && u.sink == t.sink
    ensures Follows(u, h)
  {
  }

  lemma SameKeys(t: Tracer, h: History)
    requires Follows(t, h)
    ensures t.processes.Keys == h.alive.Keys
  {
  }

  lemma RegisteringFollows(t: Tracer, h: History, tid: Tid, parent: Pid, now: nat, world: World)
    requires Follows(t, h) && now <= MAX_NS
    ensures Follows(InitializeNewborn(t, tid, parent, now, world), Registering(h, tid, parent, now, world))
  {
    hide Follows, AddProcess, BornAs;
    SameKeys(t, h);
    var tgid := TgidRead(tid, world);
    var t1 := t.(tasks := t.tasks[tid := tgid]);
    SameFollows(t, t1, h);
    if tgid != parent && tgid !in t.processes {
      ForkSays(t, h, parent, now);
      AddFollows(t1, h, tgid, parent, ForkSegment(t, parent, now), now);
    }
  }

  lemma ForkSays(t: Tracer, h: History, parent: Pid, now: nat)
    requires Follows(t, h)
    ensures Says(ForkSegment(t, parent, now))
         == if parent in h.alive then ForkOf(CaptionOf(h.alive[parent])) else ORPHAN
  {
    hide Segments, SegmentsOf, ProcessOf;
  }

  lemma RunFollows(t: Tracer, h: History, tgid: Pid, program: Program, now: nat)
    requires Follows(t, h) && tgid in h.alive && now <= MAX_NS
    ensures Follows(RunIn(t, tgid, program, now), Ran(h, tgid, now, ReadOf(program)))
  {
    hide Segments, SegmentsOf, Reflects, Ended;
    var t1, h1 := RunIn(t, tgid, program, now), Ran(h, tgid, now, ReadOf(program));
    RunReflects(t, h, tgid, program, now);
    forall p ensures Segments(t1.sink, p) == SegmentsOf(CLOCK, h1, p) {
      RanSegments(CLOCK, h, tgid, now, ReadOf(program), p);
      RunWrites(t, h, tgid, program, now, p);
    }
  }

  lemma RunReflects(t: Tracer, h: History, tgid: Pid, program: Program, now: nat)
    requires Follows(t, h) && tgid in h.alive && now <= MAX_NS
    ensures Reflects(RunIn(t, tgid, program, now).processes[tgid], h.births,
                     Ran(h, tgid, now, ReadOf(program)).alive[tgid])
    ensures t.processes[tgid].process.execed <==> h.alive[tgid].execs != []
  {
    hide Segments, SegmentsOf, WalkUp, Ended;
    NsIsTime(now);
  }

  lemma RunWrites(t: Tracer, h: History, tgid: Pid, program: Program, now: nat, p: Pid)
    requires Follows(t, h) && tgid in h.alive && now <= MAX_NS
    ensures Segments(RunIn(t, tgid, program, now).sink, p)
         == if h.alive[tgid].execs != [] && p == tgid
            then Segments(t.sink, p) + [EndedBy(CLOCK, h.births, h.alive[tgid], now, None)] else Segments(t.sink, p)
  {
    hide Segments, SegmentsOf, WalkUp, Ended;
    var state := t.processes[tgid];
    MoreSegments(t.sink, SegmentEnded(state.process, Ended(state.segment, now)), p);
    EndedOutline(state, h, tgid, now, None);
    KeepsNone(state.segment, now);
  }

  lemma EndedOutline(state: TracedProcess, h: History, pid: Pid, now: nat, exitCode: Option<nat>)
    requires Genealogy(h) && pid in h.alive && Reflects(state, h.births, h.alive[pid]) && now <= MAX_NS
    ensures OutlineOf(state.process, Ended(state.segment, now).(exitCode := exitCode))
         == EndedBy(CLOCK, h.births, h.alive[pid], now, exitCode)
  {
    hide WalkUp;
    NsIsTime(now);
  }

  lemma KeepsNone(segment: Segment, now: nat)
    requires segment.exitCode.None?
    ensures Ended(segment, now).(exitCode := None) == Ended(segment, now)
  {
  }

  lemma ExecFollows(t: Tracer, h: History, tid: Tid, world: World)
    requires Follows(t, h) && world.now <= MAX_NS
    ensures Follows(HandleExec(t, tid, world), Running(h, TgidOf(t, tid), tid, world))
  {
    hide Follows, Adopt, BornAs, Ran, RunIn;
    SameKeys(t, h);
    var tgid := TgidOf(t, tid);
    var parent := if world.ppid(tid).Some? then world.ppid(tid).value else 0;
    if tgid !in t.processes {
      AdoptFollows(t, h, tid, tgid, world);
      BornIsAlive(h, tgid, parent, world.now);
    }
    RunFollows(if tgid in t.processes then t else Adopt(t, tid, tgid, world),
               if tgid in h.alive then h else BornAs(h, tgid, parent, world.now, NAMELESS), tgid, world.program(tid),
               world.now);
  }

  lemma AdoptFollows(t: Tracer, h: History, tid: Tid, tgid: Pid, world: World)
    requires Follows(t, h) && tgid !in h.alive && world.now <= MAX_NS
    ensures Follows(Adopt(t, tid, tgid, world),
                    BornAs(h, tgid, if world.ppid(tid).Some? then world.ppid(tid).value else 0, world.now, NAMELESS))
  {
    hide Follows, AddProcess, BornAs;
    var parent := if world.ppid(tid).Some? then world.ppid(tid).value else 0;
    var t1 := t.(tasks := if tid in t.tasks then t.tasks else t.tasks[tid := tgid], active := t.active + {tid});
    SameFollows(t, t1, h);
    AddFollows(t1, h, tgid, parent, Segment(world.now, 0, [], [], [], None, false), world.now);
  }

  lemma BornIsAlive(h: History, pid: Pid, parent: Pid, now: nat)
    ensures pid in BornAs(h, pid, parent, now, NAMELESS).alive
  {
  }

  lemma EndFollows(t: Tracer, h: History, tgid: Pid, status: int, now: nat)
    requires Follows(t, h) && now <= MAX_NS
    ensures Follows(EndProcess(t, tgid, ExitCode(status), now),
                    if HasTask(t.tasks, tgid) || tgid !in h.alive then h else Died(h, tgid, now, status))
  {
    hide Segments, SegmentsOf, WalkUp, Ended, ExitCode, HasTask;
    if !HasTask(t.tasks, tgid) && tgid in h.alive {
      var state := t.processes[tgid];
      var last := Ended(state.segment, now).(exitCode := Some(ExitCode(status)));
      var u, h1 := EndProcess(t, tgid, ExitCode(status), now), Died(h, tgid, now, status);
      assert u.sink == t.sink + [SegmentEnded(state.process, last)] + [ProcessExited(tgid, last.start)];
      EndedOutline(state, h, tgid, now, Some(ExitCode(status)));
      forall p ensures Segments(u.sink, p) == SegmentsOf(CLOCK, h1, p) {
        DiedSegments(CLOCK, h, tgid, now, status, p);
        MoreSegments(t.sink, SegmentEnded(state.process, last), p);
        MoreSegments(t.sink + [SegmentEnded(state.process, last)], ProcessExited(tgid, last.start), p);
      }
    }
  }

  lemma CallFollows(t: Tracer, h: History, tid: Tid, rval: int, world: World)
    requires Follows(t, h)
    ensures Follows(EndCall(t, tid, rval, world), h)
  {
    hide Segments, SegmentsOf, Reflects, OpenRecord, RenameRecord;
    var u := EndCall(t, tid, rval, world);
    forall p ensures Segments(u.sink, p) == Segments(t.sink, p) {
      if tid in t.pendingRenames {
        MoreSegments(t.sink, RenameRecord(TgidOf(t, tid), t.pendingRenames[tid]), p);
        FilesAreNoSegments(TgidOf(t, tid), tid, t.pendingRenames[tid], PendingOpen(0, [], 0), rval, world);
      } else if tid in t.pendingOpens {
        MoreSegments(t.sink, OpenRecord(TgidOf(t, tid), tid, t.pendingOpens[tid], rval, world), p);
        FilesAreNoSegments(TgidOf(t, tid), tid, PendingRename(0, [], []), t.pendingOpens[tid], rval, world);
      }
    }
  }

  lemma FilesAreNoSegments(tgid: Pid, tid: Tid, rename: PendingRename, open: PendingOpen, rval: int, world: World)
    ensures !RenameRecord(tgid, rename).SegmentEnded? && !OpenRecord(tgid, tid, open, rval, world).SegmentEnded?
  {
  }

  lemma KindFollows(t: Tracer, h: History, tid: Tid, kind: Kind, world: World)
    requires Follows(t, h) && world.now <= MAX_NS
    ensures Follows(HandleKind(t, tid, kind, world), KindLives(t, h, tid, kind, world))
  {
    hide Follows, InitializeNewborn, HandleExec, EndCall, HandleSeccomp, Registering, Running;
    var u := HandleKind(t, tid, kind, world);
    match kind {
      case Cloned(child) =>
        var t1 := t.(active := t.active + {child});
        SameFollows(t, t1, h);
        RegisteringFollows(t1, h, child, TgidOf(t, tid), world.now, world);
        SameFollows(InitializeNewborn(t1, child, TgidOf(t, tid), world.now, world), u,
                    Registering(h, child, TgidOf(t, tid), world.now, world));
      case Execed =>
        ExecFollows(t, h, tid, world);
        SameFollows(HandleExec(t, tid, world), u, Running(h, TgidOf(t, tid), tid, world));
      case SyscallStop(call) =>
        if call.AtExit? {
          CallFollows(t, h, tid, call.rval, world);
          SameFollows(EndCall(t, tid, call.rval, world), u, h);
        } else {
          SameFollows(t, u, h);
        }
      case _ =>
        SameFollows(t, u, h);
    }
  }

  lemma StopFollows(t: Tracer, h: History, stop: Stop, world: World)
    requires Follows(t, h) && world.now <= MAX_NS && world.earlier <= MAX_NS
    ensures Follows(HandleStop(t, stop, world), StopLives(t, h, stop, world))
  {
    hide Follows, InitializeNewborn, HandleKind, EndProcess, Registering, Died, HasTask;
    match stop {
      case Exited(tid, status) =>
        var t1 := TaskEnded(t, tid, ExitCode(status));
        SameFollows(t, t1, h);
        EndFollows(t1, h, TgidOf(t, tid), status, world.now);
      case Stopped(tid, kind) =>
        var h1 := if tid in t.newborns then Registering(h, tid, t.newborns[tid], world.earlier, world) else h;
        if tid in t.newborns {
          SameFollows(t, t.(newborns := t.newborns - {tid}), h);
          RegisteringFollows(t.(newborns := t.newborns - {tid}), h, tid, t.newborns[tid], world.earlier, world);
        }
        var t1 := Registered(t, tid, world);
        var t2 := t1.(started := t1.started + {tid});
        SameFollows(t1, t2, h1);
        if tid !in t1.started && kind == Signalled(SIGSTOP) {
          FirstStopFollows(t1, h1, tid);
        } else {
          KindFollows(t2, h1, tid, kind, world);
          SameTasks(t1, t2, h1, tid, kind, world);
        }
    }
  }

  lemma FirstStopFollows(t: Tracer, h: History, tid: Tid)
    requires Follows(t, h)
    ensures Follows(Resume(t.(started := t.started + {tid}, active := t.active + {tid}), tid, Continue, 0), h)
  {
    hide Follows;
    SameFollows(t, Resume(t.(started := t.started + {tid}, active := t.active + {tid}), tid, Continue, 0), h);
  }

  lemma SameTasks(t: Tracer, u: Tracer, h: History, tid: Tid, kind: Kind, world: World)
    requires t.tasks == u.tasks
    ensures KindLives(t, h, tid, kind, world) == KindLives(u, h, tid, kind, world)
  {
    hide Registering, Running;
  }

  /** The clock's readings fit its 64 bits. */
  predicate Fits(moments: seq<Moment>) {
    forall i | 0 <= i < |moments| :: moments[i].world.now <= MAX_NS && moments[i].world.earlier <= MAX_NS
  }

  lemma {:induction false} StopsFollow(t: Tracer, h: History, moments: seq<Moment>)
    requires Follows(t, h) && Fits(moments)
    ensures Follows(HandleStops(t, moments), StopsLives(t, h, moments))
  {
    hide Follows, HandleStop, StopLives;
    if moments != [] {
      var n := |moments| - 1;
      StopsFollow(t, h, moments[..n]);
      StopFollows(HandleStops(t, moments[..n]), StopsLives(t, h, moments[..n]), moments[n].stop, moments[n].world);
    }
  }

  lemma BeginningFollows(arch: Seccomp.Arch, root: Pid, name: Text, command: Text, cwd: Text)
    ensures Follows(LinuxModel.New(arch, root, name, command, cwd),
                    Beginning(root, 0, Caption(name, command, cwd, false)))
  {
    hide Segments;
    var t, h := LinuxModel.New(arch, root, name, command, cwd), Beginning(root, 0, Caption(name, command, cwd, false));
    NsIsTime(0);
    forall p ensures Segments(t.sink, p) == SegmentsOf(CLOCK, h, p) {
      NoSegments(p);
      MoreSegments([], ProcessStarted(root), p);
      assert [] + [ProcessStarted(root)] == [ProcessStarted(root)];
    }
  }

  lemma NoSegments(p: Pid)
    ensures Segments([], p) == []
  {
  }

  function LinuxHistory(arch: Seccomp.Arch, root: Pid, name: Text, command: Text, cwd: Text,
                        moments: seq<Moment>): History {
    StopsLives(LinuxModel.New(arch, root, name, command, cwd), Beginning(root, 0, Caption(name, command, cwd, false)),
               moments)
  }

  // ---- Tiling ----

  /** The clock moves on between any two of its readings. */
  predicate Ticking(moments: seq<Moment>) {
    && (forall i | 0 <= i < |moments| :: 0 < moments[i].world.earlier < moments[i].world.now)
    && (forall i | 0 < i < |moments| :: moments[i - 1].world.now < moments[i].world.earlier)
  }

  lemma LaterInOrder(h: History, latest: nat, time: nat)
    requires ToldInOrder(h, 0, latest) && latest <= time
    ensures ToldInOrder(h, 0, time)
  {
    hide Increasing, Starts;
    forall times: seq<nat> | Within(times, 0, latest) ensures Within(times, 0, time) {
    }
  }

  lemma BornInOrder(h: History, pid: Pid, parent: Pid, time: nat, caption: Caption, latest: nat)
    requires ToldInOrder(h, 0, latest) && latest <= time
    ensures ToldInOrder(BornAs(h, pid, parent, time, caption), 0, time)
  {
    hide Increasing, Within, Starts;
    LaterInOrder(h, latest, time);
    One(0, time);
    FirstStart(Life(pid, parent, time, |h.births|, caption, []));
  }

  /** A first program changes no bound; a later one adds its own. */
  lemma RanInOrder(h: History, pid: Pid, time: nat, caption: Caption, latest: nat)
    requires ToldInOrder(h, 0, latest) && pid in h.alive
    requires if h.alive[pid].execs == [] then latest <= time else latest < time
    ensures ToldInOrder(Ran(h, pid, time, caption), 0, time)
  {
    hide Increasing, Within, Starts;
    LaterInOrder(h, latest, time);
    RanStarts(h.alive[pid], time, caption);
    if h.alive[pid].execs != [] {
      Extended(Starts(h.alive[pid]), 0, latest, time);
    }
  }

  lemma DiedInOrder(h: History, pid: Pid, time: nat, status: int, latest: nat)
    requires ToldInOrder(h, 0, latest) && pid in h.alive && latest < time
    ensures ToldInOrder(Died(h, pid, time, status), 0, time)
  {
    hide Increasing, Within, Starts;
    LaterInOrder(h, latest, time);
    Extended(Starts(h.alive[pid]), 0, latest, time);
  }

  lemma RegisteringInOrder(h: History, tid: Tid, parent: Pid, now: nat, world: World, latest: nat)
    requires ToldInOrder(h, 0, latest) && latest <= now
    ensures ToldInOrder(Registering(h, tid, parent, now, world), 0, now)
  {
    hide ToldInOrder, BornAs, CaptionOf;
    LaterInOrder(h, latest, now);
    BornInOrder(h, TgidRead(tid, world), parent, now,
                if parent in h.alive then ForkOf(CaptionOf(h.alive[parent])) else ORPHAN, latest);
  }

  lemma RunningInOrder(h: History, tgid: Pid, tid: Tid, world: World, latest: nat)
    requires ToldInOrder(h, 0, latest) && latest < world.now
    ensures ToldInOrder(Running(h, tgid, tid, world), 0, world.now)
  {
    hide ToldInOrder, Ran;
    if tgid in h.alive {
      RanInOrder(h, tgid, world.now, ReadOf(world.program(tid)), latest);
    } else {
      var parent := if world.ppid(tid).Some? then world.ppid(tid).value else 0;
      BornInOrder(h, tgid, parent, world.now, NAMELESS, latest);
      RanInOrder(BornAs(h, tgid, parent, world.now, NAMELESS), tgid, world.now, ReadOf(world.program(tid)), world.now);
    }
  }

  lemma StopInOrder(t: Tracer, h: History, stop: Stop, world: World, latest: nat)
    requires ToldInOrder(h, 0, latest) && latest < world.earlier < world.now
    ensures ToldInOrder(StopLives(t, h, stop, world), 0, world.now)
  {
    hide ToldInOrder, Registering, Running, Died, HasTask, Registered;
    LaterInOrder(h, latest, world.now);
    match stop {
      case Exited(tid, status) =>
        var tgid := TgidOf(t, tid);
        if tgid in h.alive {
          DiedInOrder(h, tgid, world.now, status, latest);
        }
      case Stopped(tid, kind) =>
        var h1 := if tid in t.newborns then Registering(h, tid, t.newborns[tid], world.earlier, world) else h;
        LaterInOrder(h, latest, world.earlier);
        if tid in t.newborns {
          RegisteringInOrder(h, tid, t.newborns[tid], world.earlier, world, latest);
        }
        LaterInOrder(h1, world.earlier, world.now);
        var t1 := Registered(t, tid, world);
        if kind.Cloned? {
          RegisteringInOrder(h1, kind.child, TgidOf(t1, tid), world.now, world, world.earlier);
        } else if kind.Execed? {
          RunningInOrder(h1, TgidOf(t1, tid), tid, world, world.earlier);
        }
    }
  }

  lemma {:induction false} StopsInOrder(t: Tracer, h: History, moments: seq<Moment>)
    requires ToldInOrder(h, 0, 0) && Ticking(moments)
    ensures ToldInOrder(StopsLives(t, h, moments), 0, if moments == [] then 0 else moments[|moments| - 1].world.now)
  {
    hide ToldInOrder, HandleStop, StopLives;
    if moments != [] {
      var n := |moments| - 1;
      StopsInOrder(t, h, moments[..n]);
      StopInOrder(HandleStops(t, moments[..n]), StopsLives(t, h, moments[..n]), moments[n].stop, moments[n].world,
                  if n == 0 then 0 else moments[n - 1].world.now);
    }
  }

  lemma BoundsFit(times: seq<nat>, latest: nat)
    requires Increasing(times) && Within(times, 0, latest) && latest <= MAX_NS
    ensures Resolves(CLOCK, times)
  {
  }

  lemma EndsFit(e: Ending, latest: nat)
    requires Within(Bounds(e), 0, latest) && latest <= MAX_NS
    ensures CLOCK.Ns(e.life.start) == e.life.start && CLOCK.Ns(e.end) == e.end
  {
    var bounds := Bounds(e);
    assert bounds[0] == e.life.start && bounds[|bounds| - 1] == e.end;
    NsIsTime(e.life.start);
    NsIsTime(e.end);
  }
}
