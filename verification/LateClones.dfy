/**
 What the Linux tracer still holds of a task that has exited: nothing, unless the task is told of again. A
 clone event that comes after its child's exit tells of it for good.
 */
module LateClones {
  import opened Basics
  import opened TrackerModel
  import opened LinuxModel
  import opened LinuxKernel
  import Seccomp

  /** Whether any table has an entry of the task. */
  predicate HasEntry(t: Tracer, tid: Tid) {
    tid in t.active || tid in t.started || tid in t.tasks || tid in t.newborns || IsPending(t, tid)
  }

  /** Whether the tables that only an exit takes a task from have it no less than before. */
  predicate KeepsEntries(t: Tracer, u: Tracer, tid: Tid) {
    && (tid in t.active ==> tid in u.active) && (tid in t.started ==> tid in u.started)
    && (tid in t.tasks ==> tid in u.tasks)
  }

  predicate SameEntries(t: Tracer, u: Tracer, tid: Tid) {
    && (tid in t.active <==> tid in u.active) && (tid in t.started <==> tid in u.started)
    && (tid in t.tasks <==> tid in u.tasks) && (tid in t.newborns <==> tid in u.newborns)
    && (IsPending(t, tid) <==> IsPending(u, tid))
  }

  predicate IsExit(m: Moment, tid: Tid) {
    m.stop.Exited? && m.stop.tid == tid
  }

  predicate IsCloneOf(m: Moment, tid: Tid) {
    m.stop.Stopped? && m.stop.kind == Cloned(tid)
  }

  /** A stop of the task, or a clone event that names it. */
  predicate TellsOf(m: Moment, tid: Tid) {
    m.stop.Stopped? && (m.stop.tid == tid || m.stop.kind == Cloned(tid))
  }

  /** An exit leaves no entry of its task in any table. */
  lemma ExitForgets(t: Tracer, tid: Tid, status: int, world: World)
    ensures !HasEntry(HandleStop(t, Exited(tid, status), world), tid)
  {
    hide EndProcess, ExitCode;
  }

  lemma RegisteringSame(t: Tracer, tid: Tid, parent: Pid, now: nat, world: World, other: Tid)
    ensures var u := InitializeNewborn(t, tid, parent, now, world);
            KeepsEntries(t, u, other) && (other != tid ==> SameEntries(t, u, other)) && tid in u.tasks
  {
    hide AddProcess;
  }

  lemma AgainSame(t: Tracer, tid: Tid, world: World, other: Tid)
    ensures KeepsEntries(t, Registered(t, tid, world), other)
    ensures other != tid ==> SameEntries(t, Registered(t, tid, world), other)
  {
    hide InitializeNewborn;
    if tid in t.newborns {
      RegisteringSame(t.(newborns := t.newborns - {tid}), tid, t.newborns[tid], world.earlier, world, other);
    }
  }

  lemma CloneSame(t: Tracer, tid: Tid, child: Tid, world: World, other: Tid)
    ensures var u := Clone(t, tid, child, world);
            KeepsEntries(t, u, other) && (other != child ==> SameEntries(t, u, other))
            && child in u.active && child in u.tasks
  {
    hide InitializeNewborn;
    RegisteringSame(t.(active := t.active + {child}), child, TgidOf(t, tid), world.now, world, other);
    RegisteringSame(t.(active := t.active + {child}), child, TgidOf(t, tid), world.now, world, child);
  }

  lemma ExecSame(t: Tracer, tid: Tid, world: World, other: Tid)
    ensures var u := HandleExec(t, tid, world); KeepsEntries(t, u, other) && (other != tid ==> SameEntries(t, u, other))
  {
    hide AddProcess, RunIn;
  }

  lemma CallSame(t: Tracer, tid: Tid, kind: Kind, world: World, other: Tid)
    requires !kind.Cloned? && !kind.Execed?
    ensures var u := HandleKind(t, tid, kind, world);
            KeepsEntries(t, u, other) && (other != tid ==> SameEntries(t, u, other))
  {
    hide HandleSeccomp, EndCall;
    match kind {
      case Filtered(info) =>
        EnteringSame(t, tid, info, world, other);
      case SyscallStop(call) =>
        if call.AtExit? && other != tid {
          LeavingSame(t, tid, call.rval, world, other);
        }
      case _ =>
    }
  }

  lemma EnteringSame(t: Tracer, tid: Tid, info: SeccompInfo, world: World, other: Tid)
    ensures other != tid ==> IsPending(t, other) == IsPending(HandleSeccomp(t, tid, info, world), other)
  {
    hide IntentOf;
  }

  lemma LeavingSame(t: Tracer, tid: Tid, rval: int, world: World, other: Tid)
    requires other != tid
    ensures IsPending(t, other) == IsPending(EndCall(t, tid, rval, world), other)
  {
    hide EndCall;
    var u := EndCall(t, tid, rval, world);
    assert other in t.pendingOpens <==> other in t.pendingOpens - {tid};
    assert other in u.pendingOpens <==> other in u.pendingOpens - {tid};
    assert other in t.pendingRenames <==> other in t.pendingRenames - {tid};
    assert other in u.pendingRenames <==> other in u.pendingRenames - {tid};
  }

  lemma KindSame(t: Tracer, tid: Tid, kind: Kind, world: World, other: Tid)
    ensures var u := HandleKind(t, tid, kind, world);
            && KeepsEntries(t, u, other)
            && (other != tid && kind != Cloned(other) ==> SameEntries(t, u, other))
            && (kind == Cloned(other) ==> other in u.active && other in u.tasks)
  {
    hide Clone, HandleExec;
    match kind {
      case Cloned(child) => CloneSame(t, tid, child, world, other);
      case Execed => ExecSame(t, tid, world, other);
      case _ => CallSame(t, tid, kind, world, other);
    }
  }

  lemma ExitSame(t: Tracer, tid: Tid, status: int, world: World, other: Tid)
    requires other != tid
    ensures SameEntries(t, HandleTaskExit(t, tid, status, world), other)
  {
    hide ExitCode, EndProcess;
  }

  /**
   Only its own exit takes a task from the tables. Nothing else does, and what does not tell of it leaves all
   its entries as they were.
   */
  lemma OnlyItsExitForgets(t: Tracer, m: Moment, tid: Tid)
    requires !IsExit(m, tid)
    ensures var u := HandleStop(t, m.stop, m.world);
            && KeepsEntries(t, u, tid)
            && (!TellsOf(m, tid) ==> SameEntries(t, u, tid))
            && (TellsOf(m, tid) ==> tid in u.active || tid in u.started)
            && (IsCloneOf(m, tid) ==> tid in u.active && tid in u.tasks)
  {
    hide Registered, HandleKind, HandleTaskExit, IsPending;
    match m.stop {
      case Exited(other, status) =>
        ExitSame(t, other, status, m.world, tid);
      case Stopped(other, kind) =>
        var t1 := Registered(t, other, m.world);
        var t2 := t1.(started := t1.started + {other});
        AgainSame(t, other, m.world, tid);
        assert IsPending(t1, tid) == IsPending(t2, tid) by { SamePending(t1, t2, tid); }
        KindSame(t2, other, kind, m.world, tid);
        var t3 := Resume(t2.(active := t2.active + {other}), other, Continue, 0);
        SamePending(t2, t3, tid);
    }
  }

  lemma SamePending(t: Tracer, u: Tracer, tid: Tid)
    requires u.pendingOpens == t.pendingOpens && u.pendingRenames == t.pendingRenames
    ensures IsPending(t, tid) == IsPending(u, tid)
  {
  }

  /**
   Over any run, a task has an entry after its last exit if and only if a stop of it, or a clone event that
   names it, was reported since. After such a clone event it is waited for, and stays a task of its process,
   whatever other tasks report.
   */
  lemma {:induction false} EntriesAfterAnExit(t: Tracer, before: seq<Moment>, exit: Moment, after: seq<Moment>,
                                              tid: Tid)
    requires IsExit(exit, tid) && forall i | 0 <= i < |after| :: !IsExit(after[i], tid)
    ensures var u := HandleStops(t, before + [exit] + after);
            && (HasEntry(u, tid) <==> exists i :: 0 <= i < |after| && TellsOf(after[i], tid))
            && (HasEntry(u, tid) ==> tid in u.active || tid in u.started)
            && ((exists i :: 0 <= i < |after| && IsCloneOf(after[i], tid)) ==> tid in u.active && tid in u.tasks)
  {
    hide HandleStop, IsPending, TellsOf, IsExit;
    if after == [] {
      assert before + [exit] + after == before + [exit];
      StopsMore(t, before, exit);
      LeftByExit(HandleStops(t, before), exit, tid);
    } else {
      var n := |after| - 1;
      EntriesAfterAnExit(t, before, exit, after[..n], tid);
      assert before + [exit] + after == before + [exit] + after[..n] + [after[n]];
      StopsMore(t, before + [exit] + after[..n], after[n]);
      OnlyItsExitForgets(HandleStops(t, before + [exit] + after[..n]), after[n], tid);
      ToldMore(after, tid);
    }
  }

  lemma LeftByExit(t: Tracer, m: Moment, tid: Tid)
    requires IsExit(m, tid)
    ensures !HasEntry(HandleStop(t, m.stop, m.world), tid)
  {
    ExitForgets(t, tid, m.stop.status, m.world);
  }

  lemma ToldMore(after: seq<Moment>, tid: Tid)
    requires after != []
    ensures var n := |after| - 1;
            && ((exists i :: 0 <= i < |after| && TellsOf(after[i], tid)) <==>
                TellsOf(after[n], tid) || exists i :: 0 <= i < n && TellsOf(after[..n][i], tid))
            && ((exists i :: 0 <= i < |after| && IsCloneOf(after[i], tid)) <==>
                IsCloneOf(after[n], tid) || exists i :: 0 <= i < n && IsCloneOf(after[..n][i], tid))
  {
    hide TellsOf, IsCloneOf;
    var n := |after| - 1;
    assert forall i | 0 <= i < n :: after[..n][i] == after[i];
  }

  /**
   A child of the root's exits before its clone event is reported. When everything has exited, the tracer
   still waits for it, and has it open as a process.
   */
  lemma LateCloneIsForGood(arch: Seccomp.Arch, root: Pid, child: Pid, name: Text, command: Text, cwd: Text,
                           status: int, world: World, gone: World)
    requires root != child && world.tgid(child) == Some(child) && gone.tgid(child) == None
    ensures var exited := [Moment(Stopped(child, Signalled(SIGSTOP)), world), Moment(Exited(child, status), world)];
            var moments := exited + [Moment(Stopped(root, Cloned(child)), gone), Moment(Exited(root, status), gone)];
            var u := HandleStops(LinuxModel.New(arch, root, name, command, cwd), moments);
            !PossibleRun(root, exited) && u.active == {child} && u.tasks == map[child := child]
            && child in u.processes && root !in u.processes
  {
    hide HandleStop, HandleStops, HandleTaskExit, PossibleRun;
    var t0 := LinuxModel.New(arch, root, name, command, cwd);
    var m1, m2 := Moment(Stopped(child, Signalled(SIGSTOP)), world), Moment(Exited(child, status), world);
    var m3, m4 := Moment(Stopped(root, Cloned(child)), gone), Moment(Exited(root, status), gone);
    ExitTooSoon(root, child, status, world);
    assert [m1, m2] == [m1] + [m2] && [m1, m2] + [m3, m4] == [m1] + [m2] + [m3] + [m4];
    StopsMore(t0, [], m1);
    StopsMore(t0, [m1], m2);
    StopsMore(t0, [m1] + [m2], m3);
    StopsMore(t0, [m1] + [m2] + [m3], m4);
    FirstOfChild(t0, child, world);
    ExitOf(HandleStops(t0, [m1]), child, status, world);
    LateClone(HandleStops(t0, [m1] + [m2]), root, child, gone);
    ExitOf(HandleStops(t0, [m1] + [m2] + [m3]), root, status, gone);
  }

  lemma ExitTooSoon(root: Pid, child: Pid, status: int, world: World)
    requires root != child && world.tgid(child) == Some(child)
    ensures !PossibleRun(root, [Moment(Stopped(child, Signalled(SIGSTOP)), world),
                                Moment(Exited(child, status), world)])
  {
    var m1, m2 := Moment(Stopped(child, Signalled(SIGSTOP)), world), Moment(Exited(child, status), world);
    KernelMore(root, [], m1);
    KernelMore(root, [m1], m2);
    assert [] + [m1] == [m1] && [m1] + [m2] == [m1, m2];
  }

  lemma ExitOf(t: Tracer, tid: Tid, status: int, world: World)
    requires forall other | other in t.tasks && other != tid :: t.tasks[other] != TgidOf(t, tid)
    ensures var u := HandleStop(t, Exited(tid, status), world);
            && u.active == t.active - {tid} && u.tasks == t.tasks - {tid} && u.newborns == t.newborns - {tid}
            && u.processes.Keys == t.processes.Keys - {TgidOf(t, tid)}
  {
    hide HandleTaskExit;
    ExitTables(t, tid, status, world);
    ExitActive(t, tid, status, world);
  }

  lemma FirstOfChild(t: Tracer, child: Pid, world: World)
    requires t.newborns == map[] && child !in t.started
    ensures var u := HandleStop(t, Stopped(child, Signalled(SIGSTOP)), world);
            u.active == t.active + {child} && u.tasks == t.tasks && u.newborns == map[] && u.processes == t.processes
  {
  }

  lemma ExitActive(t: Tracer, tid: Tid, status: int, world: World)
    ensures HandleStop(t, Exited(tid, status), world) == HandleTaskExit(t, tid, status, world)
    ensures HandleTaskExit(t, tid, status, world).active == t.active - {tid}
  {
    hide ExitCode, Ended;
  }

  lemma LateClone(t: Tracer, root: Pid, child: Pid, world: World)
    requires t.newborns == map[] && t.tasks == map[root := root] && t.processes.Keys == {root} && t.active == {root}
    requires root != child && world.tgid(child) == None
    ensures var u := HandleStop(t, Stopped(root, Cloned(child)), world);
            && u.active == {root, child} && u.tasks == map[root := root, child := child]
            && u.processes.Keys == {root, child}
  {
    hide HandleKind, Clone;
    var t1 := t.(started := t.started + {root});
    OnlyHandled(t, root, Cloned(child), world);
    CloneTables(t1, root, child, world);
    CloneResumes(t1, root, child, world);
    CloneActive(t1, root, child, world);
  }

  lemma CloneActive(t: Tracer, tid: Tid, child: Tid, world: World)
    ensures HandleKind(t, tid, Cloned(child), world).active == t.active + {child}
  {
    hide InitializeNewborn;
  }
}
