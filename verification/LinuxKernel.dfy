/**
 The kernel's tasks and processes, from what it reports alone, and the orders of its reports that the tracer
 can follow. Along any such run the tracer's tables are the kernel's, and a process lives from the naming of
 its leader to the exit of its last task.
 */
module LinuxKernel {
  import opened Basics
  import opened TrackerModel
  import opened LinuxModel
  import opened Lives
  import opened LinuxLives
  import Seccomp

  // ---- The kernel's tasks ----

  /**
   The tasks there are, each with its process; `owed` are those whose clone event is still to be
   reported, and `unseen` those of them that have not run a program either.
   */
  datatype Kernel = Kernel(live: map<Tid, Pid>, owed: set<Tid>, unseen: set<Tid>) {
    /** The tasks that a clone event or a program has told of. */
    function Named(): map<Tid, Pid> {
      live - unseen
    }
  }

  function Started(root: Pid): Kernel {
    Kernel(map[root := root], {}, {})
  }

  /** A stop of a task not heard of tells that it is there. */
  function Hear(k: Kernel, tid: Tid, world: World): (k': Kernel)
    ensures tid in k'.live
  {
    if tid in k.live then k
    else Kernel(k.live[tid := TgidRead(tid, world)], k.owed + {tid}, k.unseen + {tid})
  }

  function Report(k: Kernel, tid: Tid, kind: Kind, world: World): Kernel {
    match kind
    case Cloned(child) => Kernel(k.live[child := TgidRead(child, world)], k.owed - {child}, k.unseen - {child})
    case Execed => k.(unseen := k.unseen - {tid})
    case _ => k
  }

  function Next(k: Kernel, m: Moment): Kernel {
    match m.stop
    case Exited(tid, _) => Kernel(k.live - {tid}, k.owed - {tid}, k.unseen - {tid})
    case Stopped(tid, kind) => Report(Hear(k, tid, m.world), tid, kind, m.world)
  }

  function KernelAfter(root: Pid, moments: seq<Moment>): Kernel {
    if moments == [] then Started(root)
    else Next(KernelAfter(root, moments[..|moments| - 1]), moments[|moments| - 1])
  }

  // ---- What it may report ----

  /**
   A stop of a known task finds it in its process; one of a new task, which has the id of no process there
   is, leads a process of its own or is a thread of one there is.
   */
  predicate CanStop(k: Kernel, tid: Tid, world: World) {
    if tid in k.live then TgidRead(tid, world) == k.live[tid]
    else !HasTask(k.live, tid) && (TgidRead(tid, world) == tid || HasTask(k.live, TgidRead(tid, world)))
  }

  /**
   A task clones a process or a thread of its own, one new or not named yet. A program is run by a
   process's leader, the last of its tasks.
   */
  predicate CanReport(k: Kernel, tid: Tid, kind: Kind, world: World)
    requires tid in k.live
  {
    match kind
    case Cloned(child) =>
      && child != tid && child != k.live[tid] && TgidRead(child, world) in {child, k.live[tid]}
      && (if child in k.live then child in k.owed && TgidRead(child, world) == k.live[child]
          else !HasTask(k.live, child))
    case Execed => k.live[tid] == tid && !HasTask(k.live - {tid}, tid)
    case _ => true
  }

  /** A task exits once its clone event has been reported. */
  predicate CanExit(k: Kernel, tid: Tid) {
    tid in k.live && tid !in k.owed
  }

  predicate Possible(k: Kernel, m: Moment) {
    match m.stop
    case Exited(tid, _) => CanExit(k, tid)
    case Stopped(tid, kind) => CanStop(k, tid, m.world) && CanReport(Hear(k, tid, m.world), tid, kind, m.world)
  }

  /** A run in which the kernel's tasks are told the truth of, and none exits before its clone event. */
  predicate PossibleRun(root: Pid, moments: seq<Moment>) {
    moments == [] ||
    (var n := |moments| - 1;
     PossibleRun(root, moments[..n]) && Possible(KernelAfter(root, moments[..n]), moments[n]))
  }

  // ---- What the tracer can follow of it ----

  /** A process whose leader has been named: the ones a history knows. */
  predicate IsProcess(k: Kernel, p: Pid) {
    HasTask(k.live, p) && p !in k.unseen
  }

  /** Who clones has been named, or leads its process; or the child is in a process there is. */
  predicate CanFollowClone(k: Kernel, tid: Tid, child: Tid, world: World)
    requires tid in k.live
  {
    tid !in k.unseen || k.live[tid] == tid || IsProcess(k, TgidRead(child, world))
  }

  /** An exit that leaves a process that is known a task leaves it one that has been named. */
  predicate CanFollowExit(k: Kernel, tid: Tid)
    requires tid in k.live
  {
    HasTask(k.live - {tid}, k.live[tid]) && IsProcess(k, k.live[tid]) ==> HasTask(k.Named() - {tid}, k.live[tid])
  }

  predicate CanFollow(k: Kernel, m: Moment) {
    match m.stop
    case Exited(tid, _) => tid in k.live ==> CanFollowExit(k, tid)
    case Stopped(tid, kind) => kind.Cloned? ==> CanFollowClone(Hear(k, tid, m.world), tid, kind.child, m.world)
  }

  /** What may come next in an orderly run. */
  predicate MayBe(k: Kernel, m: Moment) {
    Possible(k, m) && CanFollow(k, m)
  }

  /** A possible run in which every report comes once what it builds on has been reported. */
  predicate Orderly(root: Pid, moments: seq<Moment>) {
    moments == [] ||
    (var n := |moments| - 1;
     Orderly(root, moments[..n]) && MayBe(KernelAfter(root, moments[..n]), moments[n]))
  }

  // ---- Its processes ----

  /**
   A process is born as its leader is named: by the clone event, to the process of the task that cloned it,
   or by its first program, to whatever `/proc` says is its parent. It dies with the last of its tasks.
   */
  function Lived(k: Kernel, h: History, m: Moment): History {
    match m.stop
    case Exited(tid, status) =>
      if tid in k.live && !HasTask(k.live - {tid}, k.live[tid]) && k.live[tid] in h.alive
      then Died(h, k.live[tid], m.world.now, status) else h
    case Stopped(tid, kind) =>
      var k1 := Hear(k, tid, m.world);
      match kind
      case Cloned(child) =>
        if TgidRead(child, m.world) == child && child !in k1.Named()
        then Born(h, child, k1.live[tid], m.world.now) else h
      case Execed =>
        var parent := if m.world.ppid(tid).Some? then m.world.ppid(tid).value else 0;
        var h1 := if tid in k1.Named() then h else BornAs(h, tid, parent, m.world.now, NAMELESS);
        if tid in h1.alive then Ran(h1, tid, m.world.now, ReadOf(m.world.program(tid))) else h1
      case _ => h
  }

  function KernelHistory(root: Pid, name: Text, command: Text, cwd: Text, moments: seq<Moment>): History {
    if moments == [] then Beginning(root, 0, Caption(name, command, cwd, false)) else
      var n := |moments| - 1;
      Lived(KernelAfter(root, moments[..n]), KernelHistory(root, name, command, cwd, moments[..n]), moments[n])
  }

  // ---- The tracer's tables are the kernel's ----

  /** The processes of the history are those that have a task, but for the ones whose leader is unseen. */
  ghost predicate Kept(k: Kernel, h: History) {
    && k.unseen <= k.owed <= k.live.Keys
    && (forall tid | tid in k.live && k.live[tid] in k.live :: k.live[k.live[tid]] == k.live[tid])
    && (forall p | p in h.alive :: HasTask(k.Named(), p))
    && (forall tid | tid in k.live :: k.live[tid] in h.alive || k.live[tid] in k.unseen)
    && (forall tid | tid in k.unseen :: tid !in h.alive)
  }

  /** Registering these tasks again adds nothing. */
  predicate Harmless(newborns: map<Tid, Pid>, k: Kernel, h: History) {
    forall tid | tid in newborns ::
      tid in k.Named() && (k.live[tid] == newborns[tid] || k.live[tid] in h.alive)
  }

  ghost predicate Tracks(t: Tracer, k: Kernel, h: History) {
    Kept(k, h) && t.tasks == k.Named() && Harmless(t.newborns, k, h) && t.processes.Keys == h.alive.Keys
  }

  lemma HasThe(tasks: map<Tid, Pid>, tid: Tid)
    requires tid in tasks
    ensures HasTask(tasks, tasks[tid])
  {
  }

  lemma StillHas(tasks: map<Tid, Pid>, more: map<Tid, Pid>, p: Pid)
    requires HasTask(tasks, p) && forall tid | tid in tasks :: tid in more && more[tid] == tasks[tid]
    ensures HasTask(more, p)
  {
    var tid :| tid in tasks && tasks[tid] == p;
    HasThe(more, tid);
  }

  lemma AliveHasTask(k: Kernel, h: History)
    requires Kept(k, h)
    ensures forall p | p in h.alive :: HasTask(k.live, p)
  {
    hide HasTask;
    forall p | p in h.alive ensures HasTask(k.live, p) {
      StillHas(k.Named(), k.live, p);
    }
  }

  lemma HearKeeps(k: Kernel, h: History, tid: Tid, world: World)
    requires Kept(k, h) && CanStop(k, tid, world)
    ensures Kept(Hear(k, tid, world), h) && Hear(k, tid, world).Named() == k.Named()
  {
    assert Hear(k, tid, world).Named() == k.Named();
    AliveHasTask(k, h);
  }

  /** Registering a task again at a stop of its own. */
  lemma AgainKeeps(t: Tracer, k: Kernel, h: History, tid: Tid, world: World)
    requires Tracks(t, k, h) && CanStop(k, tid, world)
    ensures Tracks(Registered(t, tid, world), Hear(k, tid, world), h)
    ensures tid in t.newborns ==> Registering(h, tid, t.newborns[tid], world.earlier, world) == h
  {
    hide AddProcess, Born, HasTask, Kept;
    KeptKnown(k, h);
    HearKeeps(k, h, tid, world);
    assert tid in t.newborns ==> t.tasks[tid := TgidRead(tid, world)] == t.tasks;
  }

  lemma KeptKnown(k: Kernel, h: History)
    requires Kept(k, h)
    ensures k.unseen <= k.owed <= k.live.Keys
  {
  }

  /** A history's processes are just those whose leader has been named. */
  lemma AliveJustWhen(k: Kernel, h: History, p: Pid)
    requires Kept(k, h)
    ensures p in h.alive <==> IsProcess(k, p)
  {
    hide HasTask;
    AliveHasTask(k, h);
    if HasTask(k.live, p) {
      TaskOf(k.live, p);
    }
  }

  lemma TaskOf(tasks: map<Tid, Pid>, p: Pid)
    requires HasTask(tasks, p)
    ensures exists tid :: tid in tasks && tasks[tid] == p
  {
  }

  /** What a clone event says of the child it names. */
  lemma ClonedIsNew(k: Kernel, h: History, tid: Tid, child: Tid, world: World)
    requires Kept(k, h) && tid in k.live && CanReport(k, tid, Cloned(child), world)
    ensures var g := TgidRead(child, world);
            && (g == child || g == k.live[tid])
            && (g != k.live[tid] ==> (g in h.alive <==> child in k.Named()))
            && (g == child ==> child != k.live[tid])
    ensures child != tid && k.unseen <= k.live.Keys
    ensures child in k.live ==> k.live[child] == TgidRead(child, world)
  {
    hide TgidRead, HasTask;
    AliveHasTask(k, h);
  }

  lemma CloneKeeps(k: Kernel, h: History, tid: Tid, child: Tid, world: World)
    requires Kept(k, h) && tid in k.live && CanReport(k, tid, Cloned(child), world)
    ensures var h1 := Lived(k, h, Moment(Stopped(tid, Cloned(child)), world));
            var k1 := Report(k, tid, Cloned(child), world);
            Kept(k1, h1) && k1.Named() == k.Named()[child := TgidRead(child, world)]
  {
    hide HasTask;
    ClonedIsNew(k, h, tid, child, world);
    AliveHasTask(k, h);
    var h1 := Lived(k, h, Moment(Stopped(tid, Cloned(child)), world));
    var k1 := Report(k, tid, Cloned(child), world);
    assert k1.Named() == k.Named()[child := TgidRead(child, world)];
    forall p | p in h1.alive ensures HasTask(k1.Named(), p) {
      if p in h.alive {
        StillHas(k.Named(), k1.Named(), p);
      } else {
        HasThe(k1.Named(), child);
      }
    }
  }

  lemma ExecKeeps(k: Kernel, h: History, tid: Tid, world: World)
    requires Kept(k, h) && tid in k.live && CanReport(k, tid, Execed, world)
    ensures tid in h.alive <==> tid in k.Named()
    ensures var h1, k1 := Lived(k, h, Moment(Stopped(tid, Execed), world)), Report(k, tid, Execed, world);
            Kept(k1, h1) && k1.Named() == k.Named()[tid := tid] && k1.live == k.live && tid in h1.alive
            && h1 == Running(h, tid, tid, world)
  {
    hide HasTask;
    var h1, k1 := Lived(k, h, Moment(Stopped(tid, Execed), world)), Report(k, tid, Execed, world);
    assert k1.Named() == k.Named()[tid := tid];
    forall p | p in h1.alive ensures HasTask(k1.Named(), p) {
      if p in h.alive {
        StillHas(k.Named(), k1.Named(), p);
      } else {
        HasThe(k1.Named(), tid);
      }
    }
  }

  /** A process that has been named has a task left in either table or in neither. */
  lemma LastTask(k: Kernel, h: History, tid: Tid)
    requires Kept(k, h) && CanExit(k, tid) && CanFollowExit(k, tid)
    ensures k.live[tid] in h.alive ==>
              (HasTask(k.live - {tid}, k.live[tid]) <==> HasTask(k.Named() - {tid}, k.live[tid]))
    ensures !HasTask(k.live - {tid}, k.live[tid]) ==> k.live[tid] in h.alive
  {
    hide HasTask;
    var p := k.live[tid];
    HasThe(k.live, tid);
    if HasTask(k.Named() - {tid}, p) {
      StillHas(k.Named() - {tid}, k.live - {tid}, p);
    }
    if p in k.unseen {
      HasThe(k.live - {tid}, p);
    }
  }

  lemma ExitKeeps(k: Kernel, h: History, tid: Tid, status: int, world: World)
    requires Kept(k, h) && CanExit(k, tid) && CanFollowExit(k, tid)
    ensures var m := Moment(Exited(tid, status), world);
            Kept(Next(k, m), Lived(k, h, m)) && Next(k, m).Named() == k.Named() - {tid}
  {
    hide HasTask;
    var m := Moment(Exited(tid, status), world);
    var k1, h1, p := Next(k, m), Lived(k, h, m), k.live[tid];
    LastTask(k, h, tid);
    assert k1.Named() == k.Named() - {tid};
    forall q | q in h1.alive ensures HasTask(k1.Named(), q) {
      if q != p {
        HasAnother(k.Named(), tid, q);
      }
    }
    forall a | a in k1.live && k1.live[a] == p ensures HasTask(k.live - {tid}, p) {
      HasThe(k.live - {tid}, a);
    }
  }

  lemma HasAnother(tasks: map<Tid, Pid>, tid: Tid, p: Pid)
    requires HasTask(tasks, p) && (tid in tasks ==> tasks[tid] != p)
    ensures HasTask(tasks - {tid}, p)
  {
    var other :| other in tasks && tasks[other] == p;
    HasThe(tasks - {tid}, other);
  }

  // ---- One report ----

  /** The process the tracer takes the cause of a clone event to be in. */
  function Told(k: Kernel, tid: Tid): Pid {
    if tid in k.Named() then k.Named()[tid] else tid
  }

  lemma CloneTracks(t: Tracer, k: Kernel, h: History, tid: Tid, child: Tid, world: World)
    requires Tracks(t, k, h) && tid in k.live
    requires CanReport(k, tid, Cloned(child), world) && CanFollowClone(k, tid, child, world)
    ensures var h1 := Lived(k, h, Moment(Stopped(tid, Cloned(child)), world));
            Tracks(Clone(t, tid, child, world), Report(k, tid, Cloned(child), world), h1)
            && KindLives(t, h, tid, Cloned(child), world) == h1
  {
    hide Kept, Harmless, HasTask, Lived, Report, CanReport, Registering, Clone, CanFollowClone;
    var h1, k1 := Lived(k, h, Moment(Stopped(tid, Cloned(child)), world)), Report(k, tid, Cloned(child), world);
    CloneKeeps(k, h, tid, child, world);
    CloneLived(k, h, tid, child, world);
    RegisteringKeys(h, child, Told(k, tid), world);
    CloneTables(t, tid, child, world);
    CloneHarmless(t.newborns, k, h, tid, child, world);
  }

  /** The tracer takes a clone event for what it is just when it can follow it. */
  lemma CloneLived(k: Kernel, h: History, tid: Tid, child: Tid, world: World)
    requires Kept(k, h) && tid in k.live && CanReport(k, tid, Cloned(child), world)
    ensures Registering(h, child, Told(k, tid), world.now, world)
            == Lived(k, h, Moment(Stopped(tid, Cloned(child)), world))
       <==> CanFollowClone(k, tid, child, world)
    ensures !CanFollowClone(k, tid, child, world) ==>
              && Told(k, tid) == tid != k.live[tid] && TgidRead(child, world) !in h.alive
              && Registering(h, child, tid, world.now, world) == Born(h, TgidRead(child, world), tid, world.now)
  {
    hide Kept, HasTask, CanReport, TgidRead, IsProcess;
    ClonedIsNew(k, h, tid, child, world);
    AliveJustWhen(k, h, TgidRead(child, world));
    BornsDiffer(h, TgidRead(child, world), tid, k.live[tid], world.now);
  }

  lemma BornsDiffer(h: History, pid: Pid, parent: Pid, other: Pid, time: nat)
    ensures Born(h, pid, parent, time).births != h.births
    ensures parent != other ==> Born(h, pid, parent, time) != Born(h, pid, other, time)
  {
    var a, b := Born(h, pid, parent, time), Born(h, pid, other, time);
    assert |a.births| == |h.births| + 1;
    assert a.births[|h.births|].parent == parent && b.births[|h.births|].parent == other;
  }

  lemma RegisteringKeys(h: History, tid: Tid, parent: Pid, world: World)
    ensures var g := TgidRead(tid, world);
            Registering(h, tid, parent, world.now, world).alive.Keys
            == if g == parent || g in h.alive then h.alive.Keys else h.alive.Keys + {g}
  {
    hide TgidRead;
  }

  lemma CloneHarmless(newborns: map<Tid, Pid>, k: Kernel, h: History, tid: Tid, child: Tid, world: World)
    requires Kept(k, h) && Harmless(newborns, k, h) && tid in k.live
    requires CanReport(k, tid, Cloned(child), world) && CanFollowClone(k, tid, child, world)
    ensures Harmless(newborns[child := Told(k, tid)], Report(k, tid, Cloned(child), world),
                     Lived(k, h, Moment(Stopped(tid, Cloned(child)), world)))
  {
    hide Kept, HasTask, TgidRead, Lived, CanReport, IsProcess, Registering, CanFollowClone;
    CloneKeeps(k, h, tid, child, world);
    CloneLived(k, h, tid, child, world);
    RegisteringKeys(h, child, Told(k, tid), world);
    ClonedIsNew(k, h, tid, child, world);
  }

  /** The tracer's tables after a clone event. */
  lemma CloneTables(t: Tracer, tid: Tid, child: Tid, world: World)
    ensures var u, g, parent := Clone(t, tid, child, world), TgidRead(child, world), TgidOf(t, tid);
            && u.tasks == t.tasks[child := g] && u.newborns == t.newborns[child := parent]
            && u.processes.Keys == if g == parent || g in t.processes then t.processes.Keys else t.processes.Keys + {g}
  {
    hide ForkSegment, BuildParent;
  }

  lemma ExecTracks(t: Tracer, k: Kernel, h: History, tid: Tid, world: World)
    requires Tracks(t, k, h) && tid in k.live && CanReport(k, tid, Execed, world)
    ensures var h1 := Lived(k, h, Moment(Stopped(tid, Execed), world));
            Tracks(HandleExec(t, tid, world), Report(k, tid, Execed, world), h1)
            && KindLives(t, h, tid, Execed, world) == h1
  {
    hide Kept, Harmless, HasTask, Lived, HandleExec;
    ExecKeeps(k, h, tid, world);
    assert TgidOf(t, tid) == tid;
    ExecTables(t, tid, world);
    RunningKeys(h, tid, tid, world);
    ExecHarmless(t.newborns, k, h, tid, world);
  }

  lemma RunningKeys(h: History, tgid: Pid, tid: Tid, world: World)
    ensures Running(h, tgid, tid, world).alive.Keys == h.alive.Keys + {tgid}
  {
  }

  lemma ExecHarmless(newborns: map<Tid, Pid>, k: Kernel, h: History, tid: Tid, world: World)
    requires Kept(k, h) && Harmless(newborns, k, h) && tid in k.live && CanReport(k, tid, Execed, world)
    ensures Harmless(newborns, Report(k, tid, Execed, world), Lived(k, h, Moment(Stopped(tid, Execed), world)))
  {
    hide Kept, HasTask, Lived, Running, CanReport;
    ExecKeeps(k, h, tid, world);
    RunningKeys(h, tid, tid, world);
  }

  /** The tracer's tables after a program's start. */
  lemma ExecTables(t: Tracer, tid: Tid, world: World)
    ensures var u, tgid := HandleExec(t, tid, world), TgidOf(t, tid);
            && u.tasks == (if tgid in t.processes || tid in t.tasks then t.tasks else t.tasks[tid := tgid])
            && u.newborns == t.newborns && u.processes.Keys == t.processes.Keys + {tgid}
  {
    hide Ended, ProgramSegment, Named, BuildParent;
  }

  lemma ExitTracks(t: Tracer, k: Kernel, h: History, tid: Tid, status: int, world: World)
    requires Tracks(t, k, h) && CanExit(k, tid) && CanFollowExit(k, tid)
    ensures var m := Moment(Exited(tid, status), world);
            Tracks(HandleTaskExit(t, tid, status, world), Next(k, m), Lived(k, h, m))
            && StopLives(t, h, m.stop, world) == Lived(k, h, m)
  {
    hide Kept, Harmless, HasTask, Died;
    var m := Moment(Exited(tid, status), world);
    ExitKeeps(k, h, tid, status, world);
    LastTask(k, h, tid);
    KeptKnown(k, h);
    ExitTables(t, tid, status, world);
    ExitHarmless(t.newborns, k, h, tid, status, world);
    DiedKeys(h, k.live[tid], world.now, status);
  }

  lemma DiedKeys(h: History, pid: Pid, time: nat, status: int)
    ensures pid in h.alive ==> Died(h, pid, time, status).alive.Keys == h.alive.Keys - {pid}
  {
  }

  lemma ExitTables(t: Tracer, tid: Tid, status: int, world: World)
    ensures var u, tgid := HandleTaskExit(t, tid, status, world), TgidOf(t, tid);
            && u.tasks == t.tasks - {tid} && u.newborns == t.newborns - {tid}
            && u.processes.Keys == if HasTask(t.tasks - {tid}, tgid) then t.processes.Keys
                                   else t.processes.Keys - {tgid}
  {
    hide Ended, ExitCode, HasTask;
  }

  lemma ExitHarmless(newborns: map<Tid, Pid>, k: Kernel, h: History, tid: Tid, status: int, world: World)
    requires Kept(k, h) && Harmless(newborns, k, h) && CanExit(k, tid) && CanFollowExit(k, tid)
    ensures var m := Moment(Exited(tid, status), world); Harmless(newborns - {tid}, Next(k, m), Lived(k, h, m))
  {
    hide Kept, HasTask;
    forall a | a in k.live - {tid} ensures HasTask(k.live - {tid}, k.live[a]) {
      HasThe(k.live - {tid}, a);
    }
  }

  /** What other stops leave as it was. */
  lemma OtherTables(t: Tracer, tid: Tid, kind: Kind, world: World)
    requires !kind.Cloned? && !kind.Execed?
    ensures var u := HandleKind(t, tid, kind, world);
            u.tasks == t.tasks && u.newborns == t.newborns && u.processes == t.processes
  {
    hide HandleSeccomp, HandleSyscallStop;
  }

  lemma KindTracks(t: Tracer, k: Kernel, h: History, tid: Tid, kind: Kind, world: World)
    requires Tracks(t, k, h) && tid in k.live && CanReport(k, tid, kind, world)
    requires kind.Cloned? ==> CanFollowClone(k, tid, kind.child, world)
    ensures var h1 := Lived(k, h, Moment(Stopped(tid, kind), world));
            Tracks(HandleKind(t, tid, kind, world), Report(k, tid, kind, world), h1)
            && KindLives(t, h, tid, kind, world) == h1
  {
    hide Tracks, HandleKind, Registering, Running, Born, Ran, CanReport, CanFollowClone;
    var u, h1 := HandleKind(t, tid, kind, world), Lived(k, h, Moment(Stopped(tid, kind), world));
    match kind {
      case Cloned(child) =>
        CloneTracks(t, k, h, tid, child, world);
        CloneResumes(t, tid, child, world);
        SameTracks(Clone(t, tid, child, world), u, Report(k, tid, kind, world), h1);
      case Execed =>
        ExecTracks(t, k, h, tid, world);
        ExecResumes(t, tid, world);
        SameTracks(HandleExec(t, tid, world), u, Report(k, tid, kind, world), h1);
      case _ =>
        OtherTables(t, tid, kind, world);
        SameTracks(t, u, k, h);
    }
  }

  lemma SameTracks(t: Tracer, u: Tracer, k: Kernel, h: History)
    requires Tracks(t, k, h) && u.tasks == t.tasks && u.newborns == t.newborns && u.processes.Keys == t.processes.Keys
    ensures Tracks(u, k, h)
  {
  }

  lemma CloneResumes(t: Tracer, tid: Tid, child: Tid, world: World)
    ensures var u, v := HandleKind(t, tid, Cloned(child), world), Clone(t, tid, child, world);
            u.tasks == v.tasks && u.newborns == v.newborns && u.processes == v.processes
  {
    hide Clone;
  }

  lemma ExecResumes(t: Tracer, tid: Tid, world: World)
    ensures var u, v := HandleKind(t, tid, Execed, world), HandleExec(t, tid, world);
            u.tasks == v.tasks && u.newborns == v.newborns && u.processes == v.processes
  {
    hide HandleExec;
  }

  /** A report the tracer can follow leaves it where the kernel is. */
  lemma ReportTracks(t: Tracer, k: Kernel, h: History, m: Moment)
    requires Tracks(t, k, h) && Possible(k, m) && CanFollow(k, m)
    ensures Tracks(HandleStop(t, m.stop, m.world), Next(k, m), Lived(k, h, m))
    ensures StopLives(t, h, m.stop, m.world) == Lived(k, h, m)
  {
    hide Tracks, HandleKind, HandleTaskExit, Registering, KindLives, Born, Ran, Died, HasTask, Registered,
         CanFollowClone, CanFollowExit;
    match m.stop {
      case Exited(tid, status) =>
        ExitTracks(t, k, h, tid, status, m.world);
      case Stopped(tid, kind) =>
        AgainKeeps(t, k, h, tid, m.world);
        var t1, k1 := Registered(t, tid, m.world), Hear(k, tid, m.world);
        var t2 := t1.(started := t1.started + {tid});
        SameTracks(t1, t2, k1, h);
        KindTracks(t2, k1, h, tid, kind, m.world);
        SameTasks(t1, t2, h, tid, kind, m.world);
        if tid !in t1.started && kind == Signalled(SIGSTOP) {
          SameTracks(t1, HandleStop(t, m.stop, m.world), k1, h);
        }
    }
  }

  /**
   Whatever the kernel may report next, the tracer takes it for what it is if and only if it can follow it.
   Otherwise it takes an exit for its process's end, though a task is left; or a thread for the parent of a
   process it does not know.
   */
  lemma TakenRightJustWhen(t: Tracer, k: Kernel, h: History, m: Moment)
    requires Tracks(t, k, h) && Possible(k, m)
    ensures StopLives(t, h, m.stop, m.world) == Lived(k, h, m) <==> CanFollow(k, m)
    ensures !CanFollow(k, m) ==>
              match m.stop
              case Exited(tid, status) =>
                && tid in k.live && HasTask(k.live - {tid}, k.live[tid]) && k.live[tid] in h.alive
                && StopLives(t, h, m.stop, m.world) == Died(h, k.live[tid], m.world.now, status)
              case Stopped(tid, kind) =>
                && kind.Cloned? && Hear(k, tid, m.world).live[tid] != tid
                && TgidRead(kind.child, m.world) !in h.alive
                && StopLives(t, h, m.stop, m.world) == Born(h, TgidRead(kind.child, m.world), tid, m.world.now)
  {
    hide Tracks, Registering, Born, Died, HasTask, Registered, Lived, CanFollowClone, CanReport, Next, HandleStop;
    if CanFollow(k, m) {
      ReportTracks(t, k, h, m);
    } else {
      match m.stop {
        case Exited(tid, status) =>
          EndedTooEarly(t, k, h, tid, status, m.world);
        case Stopped(tid, kind) =>
          AgainKeeps(t, k, h, tid, m.world);
          var t1, k1 := Registered(t, tid, m.world), Hear(k, tid, m.world);
          TracksTold(t1, k1, h, tid);
          CloneLived(k1, h, tid, kind.child, m.world);
          HeardLived(k, h, m);
      }
    }
  }

  lemma TracksTold(t: Tracer, k: Kernel, h: History, tid: Tid)
    requires Tracks(t, k, h)
    ensures Kept(k, h) && TgidOf(t, tid) == Told(k, tid)
  {
  }

  lemma HeardLived(k: Kernel, h: History, m: Moment)
    ensures m.stop.Stopped? ==> Lived(Hear(k, m.stop.tid, m.world), h, m) == Lived(k, h, m)
  {
    hide Born, BornAs, Ran;
  }

  lemma EndedTooEarly(t: Tracer, k: Kernel, h: History, tid: Tid, status: int, world: World)
    requires Tracks(t, k, h) && CanExit(k, tid) && !CanFollowExit(k, tid)
    ensures HasTask(k.live - {tid}, k.live[tid]) && k.live[tid] in h.alive
    ensures var m := Moment(Exited(tid, status), world);
            && StopLives(t, h, m.stop, world) == Died(h, k.live[tid], world.now, status)
            && Died(h, k.live[tid], world.now, status) != Lived(k, h, m)
  {
    hide HasTask, Harmless;
    HasThe(k.live, tid);
    AliveJustWhen(k, h, k.live[tid]);
    assert k.live[tid] !in Died(h, k.live[tid], world.now, status).alive;
  }

  lemma StartTracks(arch: Seccomp.Arch, root: Pid, name: Text, command: Text, cwd: Text)
    ensures Tracks(LinuxModel.New(arch, root, name, command, cwd), Started(root),
                   Beginning(root, 0, Caption(name, command, cwd, false)))
  {
    HasThe(map[root := root], root);
  }

  lemma {:induction false} RunTracks(arch: Seccomp.Arch, root: Pid, name: Text, command: Text, cwd: Text,
                                     moments: seq<Moment>)
    requires Orderly(root, moments)
    ensures Tracks(HandleStops(LinuxModel.New(arch, root, name, command, cwd), moments), KernelAfter(root, moments),
                   KernelHistory(root, name, command, cwd, moments))
    ensures LinuxHistory(arch, root, name, command, cwd, moments) == KernelHistory(root, name, command, cwd, moments)
  {
    hide Tracks, HandleStop, StopLives, Lived, Next, Possible, CanFollow, LinuxModel.New, Beginning, Started;
    if moments == [] {
      StartTracks(arch, root, name, command, cwd);
    } else {
      var n := |moments| - 1;
      RunTracks(arch, root, name, command, cwd, moments[..n]);
      ReportTracks(HandleStops(LinuxModel.New(arch, root, name, command, cwd), moments[..n]),
                   KernelAfter(root, moments[..n]), KernelHistory(root, name, command, cwd, moments[..n]), moments[n]);
    }
  }

  // ---- Main results ----

  lemma {:induction false} OrderlyIsPossible(root: Pid, moments: seq<Moment>)
    requires Orderly(root, moments)
    ensures PossibleRun(root, moments)
  {
    if moments != [] {
      OrderlyIsPossible(root, moments[..|moments| - 1]);
    }
  }

  lemma {:induction false} OrderlyPrefix(root: Pid, moments: seq<Moment>, n: nat)
    requires Orderly(root, moments) && n <= |moments|
    ensures Orderly(root, moments[..n])
  {
    if n < |moments| {
      OrderlyPrefix(root, moments[..|moments| - 1], n);
      assert moments[..|moments| - 1][..n] == moments[..n];
    } else {
      assert moments[..n] == moments;
    }
  }

  /** What the tracer takes of lives is the kernel's at every point of a run. */
  ghost predicate FollowedThroughout(arch: Seccomp.Arch, root: Pid, name: Text, command: Text, cwd: Text,
                                     moments: seq<Moment>) {
    forall n | 0 <= n <= |moments| ::
      LinuxHistory(arch, root, name, command, cwd, moments[..n])
      == KernelHistory(root, name, command, cwd, moments[..n])
  }

  /** Of the runs the kernel may report, the tracer follows just the orderly ones throughout. */
  lemma {:induction false} FollowedJustWhenOrderly(arch: Seccomp.Arch, root: Pid, name: Text, command: Text, cwd: Text,
                                                   moments: seq<Moment>)
    ensures Orderly(root, moments)
       <==> PossibleRun(root, moments) && FollowedThroughout(arch, root, name, command, cwd, moments)
  {
    hide LinuxHistory, KernelHistory, PossibleRun, Orderly;
    if Orderly(root, moments) {
      OrderlyIsPossible(root, moments);
      forall n | 0 <= n <= |moments|
        ensures LinuxHistory(arch, root, name, command, cwd, moments[..n])
             == KernelHistory(root, name, command, cwd, moments[..n]) {
        OrderlyPrefix(root, moments, n);
        RunTracks(arch, root, name, command, cwd, moments[..n]);
      }
    }
    if PossibleRun(root, moments) && FollowedThroughout(arch, root, name, command, cwd, moments) {
      FollowedIsOrderly(arch, root, name, command, cwd, moments);
    }
  }

  lemma {:induction false} FollowedIsOrderly(arch: Seccomp.Arch, root: Pid, name: Text, command: Text, cwd: Text,
                                             moments: seq<Moment>)
    requires PossibleRun(root, moments) && FollowedThroughout(arch, root, name, command, cwd, moments)
    ensures Orderly(root, moments)
  {
    hide HandleStop, StopLives, Lived, Next, Possible, CanFollow, LinuxModel.New, Beginning, Started, Tracks;
    if moments != [] {
      var n := |moments| - 1;
      forall j | 0 <= j <= n
        ensures LinuxHistory(arch, root, name, command, cwd, moments[..n][..j])
             == KernelHistory(root, name, command, cwd, moments[..n][..j]) {
        assert moments[..n][..j] == moments[..j];
      }
      FollowedIsOrderly(arch, root, name, command, cwd, moments[..n]);
      RunTracks(arch, root, name, command, cwd, moments[..n]);
      assert moments[..|moments|] == moments;
      TakenRightJustWhen(HandleStops(LinuxModel.New(arch, root, name, command, cwd), moments[..n]),
                         KernelAfter(root, moments[..n]), KernelHistory(root, name, command, cwd, moments[..n]),
                         moments[n]);
    }
  }

  /**
   Along any orderly run, the tracer's tasks are the ones there are, those not named yet left
   out; and the processes it has open are those that have a task, if their leader has been named.
   */
  lemma TasksAreLive(arch: Seccomp.Arch, root: Pid, name: Text, command: Text, cwd: Text, moments: seq<Moment>)
    requires Orderly(root, moments)
    ensures var t := HandleStops(LinuxModel.New(arch, root, name, command, cwd), moments);
            var k := KernelAfter(root, moments);
            && t.tasks == k.live - k.unseen
            && forall p :: p in t.processes <==> HasTask(k.live, p) && p !in k.unseen
  {
    hide HandleStops, KernelAfter, KernelHistory, Harmless, HasTask, LinuxModel.New, Kept, Orderly;
    var k, h := KernelAfter(root, moments), KernelHistory(root, name, command, cwd, moments);
    RunTracks(arch, root, name, command, cwd, moments);
    forall p ensures p in h.alive <==> IsProcess(k, p) {
      AliveJustWhen(k, h, p);
    }
  }

  /**
   At an exit, a process's last segment is written, with that exit's code, as the last of its tasks exits; it
   is written before that just when every task left is one that has not been named.
   */
  lemma EndsWithItsLastTask(arch: Seccomp.Arch, root: Pid, name: Text, command: Text, cwd: Text,
                            moments: seq<Moment>, tid: Tid, status: int, world: World)
    requires Orderly(root, moments) && CanExit(KernelAfter(root, moments), tid)
    ensures var t := HandleStops(LinuxModel.New(arch, root, name, command, cwd), moments);
            var k := KernelAfter(root, moments);
            var u, p := HandleStop(t, Exited(tid, status), world), k.live[tid];
            if HasTask(k.live - {tid}, p) && CanFollowExit(k, tid)
            then u.sink == t.sink && u.processes == t.processes
            else
              && p in t.processes && p !in u.processes
              && var state := t.processes[p];
                 u.sink == t.sink + [SegmentEnded(state.process,
                         Ended(state.segment, world.now).(exitCode := Some(ExitCode(status)))),
                                     ProcessExited(p, state.segment.start)]
  {
    hide HandleStops, KernelAfter, KernelHistory, Harmless, HasTask, LinuxModel.New, ExitCode, Kept, Ended, Orderly;
    var t, k, h := HandleStops(LinuxModel.New(arch, root, name, command, cwd), moments), KernelAfter(root, moments),
                   KernelHistory(root, name, command, cwd, moments);
    RunTracks(arch, root, name, command, cwd, moments);
    KeptKnown(k, h);
    HasThe(k.live, tid);
    AliveJustWhen(k, h, k.live[tid]);
    if CanFollowExit(k, tid) {
      LastTask(k, h, tid);
    }
    EndingTells(t, tid, status, world);
  }

  lemma EndingTells(t: Tracer, tid: Tid, status: int, world: World)
    ensures var u, p := HandleTaskExit(t, tid, status, world), TgidOf(t, tid);
            && (HasTask(t.tasks - {tid}, p) || p !in t.processes ==> u.sink == t.sink && u.processes == t.processes)
            && (!HasTask(t.tasks - {tid}, p) && p in t.processes ==>
                  && p !in u.processes
                  && var state := t.processes[p];
                     u.sink == t.sink + [SegmentEnded(state.process,
                             Ended(state.segment, world.now).(exitCode := Some(ExitCode(status)))),
                                         ProcessExited(p, state.segment.start)])
  {
    hide ExitCode, HasTask;
  }

  /**
   At a clone event, a process that starts is told as the child of the process that cloned it just when the
   tracer can follow the event. Otherwise it is told as the child of the thread that did.
   */
  lemma ParentIsRightJustWhen(arch: Seccomp.Arch, root: Pid, name: Text, command: Text, cwd: Text,
                              moments: seq<Moment>, tid: Tid, child: Tid, world: World)
    requires Orderly(root, moments)
    requires Possible(KernelAfter(root, moments), Moment(Stopped(tid, Cloned(child)), world))
    ensures var t := HandleStops(LinuxModel.New(arch, root, name, command, cwd), moments);
            var u, k := HandleStop(t, Stopped(tid, Cloned(child)), world), Hear(KernelAfter(root, moments), tid, world);
            && ((forall p | p in u.processes && p !in t.processes :: u.processes[p].process.parentPid == k.live[tid])
                <==> CanFollowClone(k, tid, child, world))
            && (!CanFollowClone(k, tid, child, world) ==>
                  var p := TgidRead(child, world);
                  p !in t.processes && p in u.processes && u.processes[p].process.parentPid == tid != k.live[tid])
  {
    hide HandleStops, KernelAfter, KernelHistory, Harmless, HasTask, LinuxModel.New, Kept, Orderly, Registered,
         HandleKind, CanReport, CanFollowClone, IsProcess, TgidRead;
    var t := HandleStops(LinuxModel.New(arch, root, name, command, cwd), moments);
    var h := KernelHistory(root, name, command, cwd, moments);
    RunTracks(arch, root, name, command, cwd, moments);
    AgainKeeps(t, KernelAfter(root, moments), h, tid, world);
    var t1, k := Registered(t, tid, world), Hear(KernelAfter(root, moments), tid, world);
    var t2 := t1.(started := t1.started + {tid});
    TracksTold(t1, k, h, tid);
    CloneStarts(t2, tid, child, world);
    CloneLived(k, h, tid, child, world);
    ClonedIsNew(k, h, tid, child, world);
    CanFollowTells(k, h, tid, child, world);
  }

  lemma CanFollowTells(k: Kernel, h: History, tid: Tid, child: Tid, world: World)
    requires Kept(k, h) && tid in k.live
    ensures CanFollowClone(k, tid, child, world) ==> Told(k, tid) == k.live[tid] || TgidRead(child, world) in h.alive
  {
    hide HasTask, TgidRead, Kept, IsProcess;
    AliveJustWhen(k, h, TgidRead(child, world));
  }

  lemma CloneStarts(t: Tracer, tid: Tid, child: Tid, world: World)
    ensures var u, p, parent := HandleKind(t, tid, Cloned(child), world), TgidRead(child, world), TgidOf(t, tid);
            if p == parent || p in t.processes then u.processes.Keys == t.processes.Keys
            else u.processes.Keys == t.processes.Keys + {p} && u.processes[p].process.parentPid == parent
  {
    hide ForkSegment, BuildParent;
  }

  // ---- Runs the tracer does not follow ----

  lemma StopsMore(t: Tracer, moments: seq<Moment>, m: Moment)
    ensures HandleStops(t, moments + [m]) == HandleStop(HandleStops(t, moments), m.stop, m.world)
    ensures HandleStops(t, [m]) == HandleStop(t, m.stop, m.world)
  {
    hide HandleStop;
    assert (moments + [m])[..|moments|] == moments && [m][..0] == [];
    assert HandleStops(t, []) == t;
  }

  lemma KernelMore(root: Pid, moments: seq<Moment>, m: Moment)
    ensures KernelAfter(root, moments + [m]) == Next(KernelAfter(root, moments), m)
    ensures Orderly(root, moments + [m]) == (Orderly(root, moments) && MayBe(KernelAfter(root, moments), m))
    ensures PossibleRun(root, moments + [m]) == (PossibleRun(root, moments) && Possible(KernelAfter(root, moments), m))
    ensures KernelAfter(root, []) == Started(root) && Orderly(root, []) && PossibleRun(root, [])
  {
    hide Next, Possible, CanFollow;
    assert (moments + [m])[..|moments|] == moments;
  }

  /** A child's clone event, first stop and program may come in any order they can, and then its exit. */
  lemma RacesAreOrderly(root: Pid, child: Pid, world: World, status: int)
    requires root != child && world.tgid(root) == Some(root) && world.tgid(child) == Some(child)
    ensures var clone, stop := Moment(Stopped(root, Cloned(child)), world),
                               Moment(Stopped(child, Signalled(SIGSTOP)), world);
            var exec, exit := Moment(Stopped(child, Execed), world), Moment(Exited(child, status), world);
            && Orderly(root, [clone, stop, exec, exit]) && Orderly(root, [stop, clone, exec, exit])
            && Orderly(root, [stop, exec, clone, exit])
  {
    hide KernelAfter, Orderly, PossibleRun;
    var clone, stop := Moment(Stopped(root, Cloned(child)), world), Moment(Stopped(child, Signalled(SIGSTOP)), world);
    var exec, exit := Moment(Stopped(child, Execed), world), Moment(Exited(child, status), world);
    FourOrderly(root, clone, stop, exec, exit);
    FourOrderly(root, stop, clone, exec, exit);
    FourOrderly(root, stop, exec, clone, exit);
  }

  lemma FourOrderly(root: Pid, a: Moment, b: Moment, c: Moment, d: Moment)
    ensures var k := Started(root);
            Orderly(root, [a, b, c, d]) == (MayBe(k, a) && MayBe(Next(k, a), b) && MayBe(Next(Next(k, a), b), c)
                                            && MayBe(Next(Next(Next(k, a), b), c), d))
  {
    hide KernelAfter, Orderly, PossibleRun, Next, MayBe, Started;
    KernelMore(root, [], a);
    KernelMore(root, [a], b);
    KernelMore(root, [a, b], c);
    KernelMore(root, [a, b, c], d);
    assert [] + [a] == [a] && [a] + [b] == [a, b] && [a, b] + [c] == [a, b, c] && [a, b, c] + [d] == [a, b, c, d];
  }

  /** A thread that clones a thread may do so before it has been named. */
  lemma ThreadsMayCloneThreads(root: Pid, thread: Tid, child: Tid, world: World)
    requires root != thread && root != child && thread != child
    requires world.tgid(thread) == world.tgid(child) == Some(root)
    ensures Orderly(root, [Moment(Stopped(thread, Signalled(SIGSTOP)), world),
                           Moment(Stopped(thread, Cloned(child)), world)])
  {
    hide KernelAfter, Orderly, PossibleRun;
    var m1, m2 := Moment(Stopped(thread, Signalled(SIGSTOP)), world), Moment(Stopped(thread, Cloned(child)), world);
    KernelMore(root, [m1], m2);
    assert [m1] + [m2] == [m1, m2];
    ThreadCanStop(root, thread, world);
    HasThe(KernelAfter(root, [m1]).live, root);
  }

  /** A stop of a task that is not to be registered again. */
  lemma OnlyHandled(t: Tracer, tid: Tid, kind: Kind, world: World)
    requires tid !in t.newborns && kind != Signalled(SIGSTOP)
    ensures HandleStop(t, Stopped(tid, kind), world)
         == HandleKind(t.(started := t.started + {tid}), tid, kind, world)
  {
    hide HandleKind;
  }

  lemma FirstStopTables(t: Tracer, tid: Tid, world: World)
    requires tid !in t.newborns && tid !in t.started
    ensures var u := HandleStop(t, Stopped(tid, Signalled(SIGSTOP)), world);
            u.tasks == t.tasks && u.newborns == t.newborns && u.processes == t.processes
  {
  }

  /** After a clone event of the root's and a program it runs. */
  lemma ClonedAndRan(t: Tracer, root: Pid, thread: Tid, world: World)
    requires root !in t.newborns && t.newborns == map[] && t.tasks == map[root := root] && root in t.processes
    requires root != thread && world.tgid(thread) == Some(root)
    ensures var u := HandleStop(t, Stopped(root, Cloned(thread)), world);
            var v := HandleStop(u, Stopped(root, Execed), world);
            v.tasks == map[root := root, thread := root] && root in v.processes
  {
    hide HandleStop, HandleKind, HandleExec, Clone;
    var u := HandleStop(t, Stopped(root, Cloned(thread)), world);
    var t1, u1 := t.(started := t.started + {root}), u.(started := u.started + {root});
    OnlyHandled(t, root, Cloned(thread), world);
    CloneTables(t1, root, thread, world);
    CloneResumes(t1, root, thread, world);
    OnlyHandled(u, root, Execed, world);
    ExecTables(u1, root, world);
    ExecResumes(u1, root, world);
  }

  lemma ThreadMayNotRun(root: Pid, thread: Tid, world: World)
    requires root != thread && world.tgid(root) == world.tgid(thread) == Some(root)
    ensures var cloned := [Moment(Stopped(root, Cloned(thread)), world)];
            Orderly(root, cloned) && !PossibleRun(root, cloned + [Moment(Stopped(root, Execed), world)])
  {
    hide KernelAfter, Orderly, PossibleRun;
    var m1, m2 := Moment(Stopped(root, Cloned(thread)), world), Moment(Stopped(root, Execed), world);
    KernelMore(root, [], m1);
    KernelMore(root, [m1], m2);
    assert [] + [m1] == [m1];
    HasThe(KernelAfter(root, [m1]).live - {root}, thread);
  }

  /**
   A thread that is not the leader runs a program: it takes the leader's id, and its own is never told to
   exit. Its entry stays, so its process stays open though it has no task left.
   */
  lemma ExecByAThreadStays(arch: Seccomp.Arch, root: Pid, thread: Tid, name: Text, command: Text, cwd: Text,
                           status: int, world: World)
    requires root != thread && world.tgid(root) == world.tgid(thread) == Some(root)
    ensures var cloned := [Moment(Stopped(root, Cloned(thread)), world)];
            var ran := cloned + [Moment(Stopped(root, Execed), world)];
            var t := HandleStops(LinuxModel.New(arch, root, name, command, cwd),
                                 ran + [Moment(Exited(root, status), world)]);
            && Orderly(root, cloned) && !PossibleRun(root, ran)
            && Get(t.tasks, thread) == Some(root) && root in t.processes
  {
    hide HandleStop, HandleStops, KernelAfter, Orderly, PossibleRun, HandleTaskExit;
    var t0 := LinuxModel.New(arch, root, name, command, cwd);
    var m1, m2 := Moment(Stopped(root, Cloned(thread)), world), Moment(Stopped(root, Execed), world);
    var m3 := Moment(Exited(root, status), world);
    StopsMore(t0, [], m1);
    StopsMore(t0, [m1], m2);
    StopsMore(t0, [m1] + [m2], m3);
    ThreadMayNotRun(root, thread, world);
    ClonedAndRan(t0, root, thread, world);
    var t2 := HandleStops(t0, [m1] + [m2]);
    HasThe(t2.tasks - {root}, thread);
    ExitTables(t2, root, status, world);
    ExitStep(t2, root, status, world);
  }

  lemma ExitStep(t: Tracer, tid: Tid, status: int, world: World)
    ensures HandleStop(t, Exited(tid, status), world) == HandleTaskExit(t, tid, status, world)
  {
    hide HandleTaskExit;
  }

  lemma ThreadCanStop(root: Pid, thread: Tid, world: World)
    requires root != thread && world.tgid(thread) == Some(root)
    ensures var k := KernelAfter(root, [Moment(Stopped(thread, Signalled(SIGSTOP)), world)]);
            && Orderly(root, [Moment(Stopped(thread, Signalled(SIGSTOP)), world)])
            && PossibleRun(root, [Moment(Stopped(thread, Signalled(SIGSTOP)), world)])
            && k == Kernel(map[root := root, thread := root], {thread}, {thread})
  {
    var m := Moment(Stopped(thread, Signalled(SIGSTOP)), world);
    KernelMore(root, [], m);
    assert [] + [m] == [m];
    HasThe(Started(root).live, root);
  }

  /** A thread that clones before it has been named is taken for a process, and for its child's parent. */
  lemma UnnamedThreadIsTakenForAParent(arch: Seccomp.Arch, root: Pid, thread: Tid, child: Pid, name: Text,
                                       command: Text, cwd: Text, world: World)
    requires root != thread && root != child && thread != child
    requires world.tgid(thread) == Some(root) && world.tgid(child) == Some(child)
    ensures var stopped := [Moment(Stopped(thread, Signalled(SIGSTOP)), world)];
            var cloned := stopped + [Moment(Stopped(thread, Cloned(child)), world)];
            var t := HandleStops(LinuxModel.New(arch, root, name, command, cwd), cloned);
            && PossibleRun(root, cloned) && !Orderly(root, cloned)
            && child in t.processes && t.processes[child].process.parentPid == thread
  {
    hide HandleStop, HandleStops, KernelAfter, Orderly, PossibleRun;
    var t0 := LinuxModel.New(arch, root, name, command, cwd);
    var m1, m2 := Moment(Stopped(thread, Signalled(SIGSTOP)), world), Moment(Stopped(thread, Cloned(child)), world);
    StopsMore(t0, [], m1);
    StopsMore(t0, [m1], m2);
    KernelMore(root, [m1], m2);
    ThreadCanStop(root, thread, world);
    FirstStopTables(t0, thread, world);
    ClonedByUnnamed(HandleStop(t0, m1.stop, world), thread, child, world);
  }

  lemma ClonedByUnnamed(t: Tracer, tid: Tid, child: Pid, world: World)
    requires tid !in t.newborns && tid !in t.tasks && child !in t.processes && child != tid
    requires world.tgid(child) == Some(child)
    ensures var u := HandleStop(t, Stopped(tid, Cloned(child)), world);
            child in u.processes && u.processes[child].process.parentPid == tid
  {
    hide BuildParent, ForkSegment;
  }

  /** A process whose only tasks left have not been named yet is ended too early. */
  lemma UnnamedThreadIsNotWaitedFor(arch: Seccomp.Arch, root: Pid, thread: Tid, name: Text, command: Text, cwd: Text,
                                    status: int, world: World)
    requires root != thread && world.tgid(thread) == Some(root)
    ensures var stopped := [Moment(Stopped(thread, Signalled(SIGSTOP)), world)];
            var exited := stopped + [Moment(Exited(root, status), world)];
            var t := HandleStops(LinuxModel.New(arch, root, name, command, cwd), exited);
            && PossibleRun(root, exited) && !Orderly(root, exited)
            && root !in t.processes && HasTask(KernelAfter(root, exited).live, root)
  {
    hide HandleStop, HandleStops, KernelAfter, Orderly, PossibleRun, HandleTaskExit;
    var t0 := LinuxModel.New(arch, root, name, command, cwd);
    var m1, m2 := Moment(Stopped(thread, Signalled(SIGSTOP)), world), Moment(Exited(root, status), world);
    StopsMore(t0, [], m1);
    StopsMore(t0, [m1], m2);
    KernelMore(root, [m1], m2);
    ThreadCanStop(root, thread, world);
    FirstStopTables(t0, thread, world);
    var t1 := HandleStop(t0, m1.stop, world);
    ExitTables(t1, root, status, world);
    ExitStep(t1, root, status, world);
    HasThe(KernelAfter(root, [m1]).live - {root}, thread);
  }
}
