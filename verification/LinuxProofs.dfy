/** What the Linux tracer keeps to, whatever stops it is told of and in whatever order. */
module LinuxProofs {
  import opened Basics
  import opened TrackerModel
  import opened LinuxModel
  import Seccomp

  // ---- Modes ----

  /** How `tid` was last let go on. */
  function LastMode(resumed: seq<Resumption>, tid: Tid): Option<Mode> {
    if resumed == [] then None
    else if resumed[|resumed| - 1].tid == tid then Some(resumed[|resumed| - 1].mode)
    else LastMode(resumed[..|resumed| - 1], tid)
  }

  /** A task with a call pending has started, and will next stop at the call's end at the latest. */
  ghost predicate Watches(t: Tracer) {
    forall tid | IsPending(t, tid) :: tid in t.started && LastMode(t.resumed, tid) == Some(UntilSyscall)
  }

  lemma LastResumed(resumed: seq<Resumption>, r: Resumption, tid: Tid)
    ensures LastMode(resumed + [r], tid) == if r.tid == tid then Some(r.mode) else LastMode(resumed, tid)
  {
    assert (resumed + [r])[..|resumed|] == resumed;
  }

  /**
   `u` follows `t` by letting `tid` go on with this signal, to its call's end if it has just entered one or
   has one pending, and otherwise without watching it.
   */
  predicate LetsGo(t: Tracer, u: Tracer, tid: Tid, signal: int, entered: bool) {
    && t.started <= u.started && tid in u.started
    && u.pendingOpens - {tid} == t.pendingOpens - {tid} && u.pendingRenames - {tid} == t.pendingRenames - {tid}
    && u.resumed
    == t.resumed + [Resumption(tid, if entered || IsPending(u, tid) then UntilSyscall else Continue, signal)]
  }

  /** The signal a task is let go on with: the one it stopped for, but for the one its first stop is. */
  function SignalOf(t: Tracer, tid: Tid, kind: Kind): int {
    if kind.Signalled? && (tid in t.started || kind.signal != SIGSTOP) then kind.signal else 0
  }

  lemma LettingGoWatches(t: Tracer, u: Tracer, tid: Tid, signal: int, entered: bool)
    requires Watches(t) && LetsGo(t, u, tid, signal, entered)
    ensures Watches(u)
  {
    hide LastMode;
    var mode := if entered || IsPending(u, tid) then UntilSyscall else Continue;
    forall other | IsPending(u, other) ensures other in u.started && LastMode(u.resumed, other) == Some(UntilSyscall) {
      assert other != tid ==> other in u.pendingOpens - {tid} || other in u.pendingRenames - {tid};
      LastResumed(t.resumed, Resumption(tid, mode, signal), other);
    }
  }

  /** What a step that only registers tasks, processes and programs leaves as it was. */
  predicate SameCalls(t: Tracer, u: Tracer) {
    && u.pendingOpens == t.pendingOpens && u.pendingRenames == t.pendingRenames
    && u.started == t.started && u.resumed == t.resumed && u.arch == t.arch
  }

  lemma RegisteringKeepsCalls(t: Tracer, tid: Tid, parent: Pid, child: Tid, now: nat, world: World)
    ensures SameCalls(t, InitializeNewborn(t, tid, parent, now, world))
    ensures SameCalls(t, Registered(t, tid, world)) && SameCalls(t, Clone(t, tid, child, world))
  {
    hide InitializeNewborn, Registered, Clone;
  }

  lemma ExecKeepsCalls(t: Tracer, tid: Tid, world: World)
    ensures SameCalls(t, HandleExec(t, tid, world))
  {
    hide HandleExec;
  }

  lemma KindLetsGo(t: Tracer, tid: Tid, kind: Kind, world: World)
    requires tid in t.started && !(tid in t.pendingOpens && tid in t.pendingRenames)
    ensures LetsGo(t, HandleKind(t, tid, kind, world), tid, if kind.Signalled? then kind.signal else 0, kind.Filtered?)
  {
    hide HandleExec, Clone, LetsGo, HandleSeccomp, HandleSyscallStop;
    var u := HandleKind(t, tid, kind, world);
    match kind {
      case Cloned(child) => ModeLetsGo(t, Clone(t, tid, child, world), tid, 0);
      case Execed => ModeLetsGo(t, HandleExec(t, tid, world), tid, 0);
      case Filtered(info) => EnteringLetsGo(t, tid, info, world);
      case Noted => ModeLetsGo(t, t, tid, 0);
      case SyscallStop(call) => LeavingLetsGo(t, tid, call, world);
      case Signalled(signal) => ModeLetsGo(t, t, tid, signal);
    }
  }

  lemma ModeLetsGo(t: Tracer, u: Tracer, tid: Tid, signal: int)
    requires tid in t.started && SameCalls(t, u)
    ensures LetsGo(t, ResumeWithMode(u, tid, signal), tid, signal, false)
  {
    var mode := if IsPending(u, tid) then UntilSyscall else Continue;
    assert ResumeWithMode(u, tid, signal).resumed == t.resumed + [Resumption(tid, mode, signal)];
  }

  lemma EnteringLetsGo(t: Tracer, tid: Tid, info: SeccompInfo, world: World)
    requires tid in t.started
    ensures LetsGo(t, HandleSeccomp(t, tid, info, world), tid, 0, true)
  {
    hide HandleSeccomp;
    var u := HandleSeccomp(t, tid, info, world);
    assert u.resumed == t.resumed + [Resumption(tid, UntilSyscall, 0)] by {
      EnteringResumes(t, tid, info, world);
    }
    EnteringKeepsOthers(t, tid, info, world);
  }

  lemma EnteringResumes(t: Tracer, tid: Tid, info: SeccompInfo, world: World)
    ensures HandleSeccomp(t, tid, info, world).resumed == t.resumed + [Resumption(tid, UntilSyscall, 0)]
  {
    hide IntentOf;
  }

  lemma EnteringKeepsOthers(t: Tracer, tid: Tid, info: SeccompInfo, world: World)
    ensures var u := HandleSeccomp(t, tid, info, world);
            u.pendingOpens - {tid} == t.pendingOpens - {tid} && u.pendingRenames - {tid} == t.pendingRenames - {tid}
  {
    hide IntentOf;
  }

  lemma LeavingLetsGo(t: Tracer, tid: Tid, call: SyscallInfo, world: World)
    requires tid in t.started && !(tid in t.pendingOpens && tid in t.pendingRenames)
    ensures LetsGo(t, HandleSyscallStop(t, tid, call, world), tid, 0, false)
  {
    hide EndCall;
    var u := HandleSyscallStop(t, tid, call, world);
    var mode := if IsPending(u, tid) then UntilSyscall else Continue;
    assert u.resumed == t.resumed + [Resumption(tid, mode, 0)];
  }

  /** Whatever a stop is, its task is let go on, once, with its signal, and watched just while it is in a call. */
  lemma StopLetsGo(t: Tracer, tid: Tid, kind: Kind, world: World)
    requires Watches(t) && !(tid in t.pendingOpens && tid in t.pendingRenames)
    ensures LetsGo(t, HandleStop(t, Stopped(tid, kind), world), tid, SignalOf(t, tid, kind), kind.Filtered?)
  {
    hide HandleKind, LastMode, Registered;
    RegisteringKeepsCalls(t, tid, 0, 0, 0, world);
    var t1 := Registered(t, tid, world);
    var t2 := t1.(started := t1.started + {tid});
    if tid !in t1.started && kind == Signalled(SIGSTOP) {
      assert HandleStop(t, Stopped(tid, kind), world).resumed == t.resumed + [Resumption(tid, Continue, 0)];
    } else {
      KindLetsGo(t2, tid, kind, world);
    }
  }

  lemma ExitWatches(t: Tracer, tid: Tid, status: int, world: World)
    requires Watches(t)
    ensures Watches(HandleStop(t, Exited(tid, status), world))
  {
    hide LastMode, ExitCode, EndProcess;
  }

  // ---- How the root ended ----

  /** The code of the root's last exit. */
  function RootExit(root: Pid, moments: seq<Moment>): Option<nat> {
    if moments == [] then None else
      match moments[|moments| - 1].stop
      case Exited(tid, status) =>
        if tid == root then Some(ExitCode(status)) else RootExit(root, moments[..|moments| - 1])
      case _ => RootExit(root, moments[..|moments| - 1])
  }

  /** The exit code of the build is that of its root's last exit, whatever else is reported. */
  lemma {:induction false} RootExitCodeIsItsLast(t: Tracer, moments: seq<Moment>)
    requires t.rootExitCode == None
    ensures HandleStops(t, moments).rootExitCode == RootExit(t.rootPid, moments)
    ensures HandleStops(t, moments).rootPid == t.rootPid
  {
    hide HandleStop, ExitCode;
    if moments != [] {
      var n := |moments| - 1;
      RootExitCodeIsItsLast(t, moments[..n]);
      StopTellsRoot(HandleStops(t, moments[..n]), moments[n].stop, moments[n].world);
    }
  }

  lemma StopTellsRoot(t: Tracer, stop: Stop, world: World)
    ensures var u := HandleStop(t, stop, world);
            && u.rootPid == t.rootPid
            && u.rootExitCode
            == if stop.Exited? && stop.tid == t.rootPid then Some(ExitCode(stop.status)) else t.rootExitCode
  {
    hide HandleKind, EndProcess, TaskEnded, Registered, ExitCode;
    match stop {
      case Exited(tid, status) => ExitTellsRoot(t, tid, ExitCode(status));
      case Stopped(tid, kind) =>
        var t1 := Registered(t, tid, world);
        KindKeepsRoot(t1.(started := t1.started + {tid}), tid, kind, world);
    }
  }

  lemma ExitTellsRoot(t: Tracer, tid: Tid, code: nat)
    requires code < 256
    ensures var u := TaskEnded(t, tid, code);
            u.rootPid == t.rootPid && u.rootExitCode == if tid == t.rootPid then Some(code) else t.rootExitCode
  {
    hide Forgotten;
  }

  lemma KindKeepsRoot(t: Tracer, tid: Tid, kind: Kind, world: World)
    ensures var u := HandleKind(t, tid, kind, world); u.rootPid == t.rootPid && u.rootExitCode == t.rootExitCode
  {
    hide HandleExec, Clone, HandleSeccomp, HandleSyscallStop;
  }

  // ---- Calls ----

  /**
   The calls that are between their start, which the filter stops, and their end, as the tracer reads them.
   `LinuxCalls` has them as programs make them.
   */
  type Calls = map<Tid, Intent>

  function CallsAfter(arch: Seccomp.Arch, calls: Calls, stop: Stop, world: World): Calls {
    match stop
    case Stopped(tid, Filtered(info)) => calls[tid := IntentOf(arch, tid, info, world)]
    case Stopped(tid, SyscallStop(AtExit(_))) => calls - {tid}
    case Exited(tid, _) => calls - {tid}
    case _ => calls
  }

  function AllCalls(arch: Seccomp.Arch, moments: seq<Moment>): Calls {
    if moments == [] then map[]
    else CallsAfter(arch, AllCalls(arch, moments[..|moments| - 1]), moments[|moments| - 1].stop,
                    moments[|moments| - 1].world)
  }

  /** No task starts a call while one of its own is running. */
  predicate OneCallAtATime(arch: Seccomp.Arch, moments: seq<Moment>) {
    moments == [] ||
    (var n := |moments| - 1;
     && OneCallAtATime(arch, moments[..n])
     && (moments[n].stop.Stopped? && moments[n].stop.kind.Filtered?
         ==> moments[n].stop.tid !in AllCalls(arch, moments[..n])))
  }

  /** What the end of a call leaves: a record if it succeeded, and what it was on was read. */
  function CallRecords(t: Tracer, calls: Calls, tid: Tid, rval: int, world: World): seq<Written> {
    if tid !in calls then [] else match calls[tid]
      case Opening(open) => if rval >= 0 then [OpenRecord(TgidOf(t, tid), tid, open, rval, world)] else []
      case Renaming(rename) => if rval == 0 then [RenameRecord(TgidOf(t, tid), rename)] else []
      case Unreadable => []
  }

  function Outcome(t: Tracer, calls: Calls, stop: Stop, world: World): seq<Written> {
    match stop
    case Stopped(tid, SyscallStop(AtExit(rval))) => CallRecords(Registered(t, tid, world), calls, tid, rval, world)
    case _ => []
  }

  function AllOutcomes(t: Tracer, moments: seq<Moment>): seq<Written> {
    if moments == [] then [] else
      var n := |moments| - 1;
      AllOutcomes(t, moments[..n])
      + Outcome(HandleStops(t, moments[..n]), AllCalls(t.arch, moments[..n]), moments[n].stop, moments[n].world)
  }

  function FileRecords(sink: seq<Written>): seq<Written> {
    if sink == [] then [] else
      var w := sink[|sink| - 1];
      FileRecords(sink[..|sink| - 1]) + if w.FileOpened? || w.FileRenamed? then [w] else []
  }

  lemma MoreFileRecords(sink: seq<Written>, w: Written)
    ensures FileRecords(sink + [w]) == FileRecords(sink) + if w.FileOpened? || w.FileRenamed? then [w] else []
  {
    assert (sink + [w])[..|sink|] == sink;
  }

  function Opens(calls: Calls): map<Tid, PendingOpen> {
    map tid | tid in calls && calls[tid].Opening? :: calls[tid].open
  }

  function Renames(calls: Calls): map<Tid, PendingRename> {
    map tid | tid in calls && calls[tid].Renaming? :: calls[tid].rename
  }

  /** The tracer's two tables are just the calls that are running. */
  predicate Follows(t: Tracer, calls: Calls) {
    t.pendingOpens == Opens(calls) && t.pendingRenames == Renames(calls)
  }

  lemma FollowsApart(t: Tracer, calls: Calls, tid: Tid)
    requires Follows(t, calls)
    ensures !(tid in t.pendingOpens && tid in t.pendingRenames)
  {
  }

  lemma Entered(calls: Calls, tid: Tid, intent: Intent)
    requires tid !in calls
    ensures Opens(calls[tid := intent]) == if intent.Opening? then Opens(calls)[tid := intent.open] else Opens(calls)
    ensures Renames(calls[tid := intent])
         == if intent.Renaming? then Renames(calls)[tid := intent.rename] else Renames(calls)
  {
  }

  lemma Left(calls: Calls, tid: Tid)
    ensures Opens(calls - {tid}) == Opens(calls) - {tid} && Renames(calls - {tid}) == Renames(calls) - {tid}
    ensures tid !in Opens(calls) ==> Opens(calls) - {tid} == Opens(calls)
    ensures tid !in Renames(calls) ==> Renames(calls) - {tid} == Renames(calls)
    ensures tid in Opens(calls) <==> tid in calls && calls[tid].Opening?
    ensures tid in Renames(calls) <==> tid in calls && calls[tid].Renaming?
    ensures tid in Opens(calls) ==> Opens(calls)[tid] == calls[tid].open
    ensures tid in Renames(calls) ==> Renames(calls)[tid] == calls[tid].rename
  {
  }

  lemma EnteringFollows(t: Tracer, calls: Calls, tid: Tid, info: SeccompInfo, world: World)
    requires Follows(t, calls) && tid !in calls
    ensures Follows(HandleSeccomp(t, tid, info, world), calls[tid := IntentOf(t.arch, tid, info, world)])
  {
    hide IntentOf, Opens, Renames;
    Entered(calls, tid, IntentOf(t.arch, tid, info, world));
  }

  lemma LeavingFollows(t: Tracer, calls: Calls, tid: Tid, rval: int, world: World)
    requires Follows(t, calls)
    ensures var u := HandleSyscallStop(t, tid, AtExit(rval), world);
            Follows(u, calls - {tid}) && u.sink == t.sink + CallRecords(t, calls, tid, rval, world)
  {
    hide OpenRecord, RenameRecord, TgidOf, Opens, Renames;
    Left(calls, tid);
  }

  /** Records of anything but files leave what was said of files as it was. */
  predicate OnlyLives(t: Tracer, u: Tracer) {
    FileRecords(u.sink) == FileRecords(t.sink)
  }

  lemma RegisteringSaysNoFiles(t: Tracer, tid: Tid, parent: Pid, now: nat, world: World)
    ensures OnlyLives(t, InitializeNewborn(t, tid, parent, now, world))
  {
    hide ForkSegment, BuildParentOf, FileRecords;
    var tgid := if world.tgid(tid).Some? then world.tgid(tid).value else tid;
    MoreFileRecords(t.sink, ProcessStarted(tgid));
  }

  lemma ExecSaysNoFiles(t: Tracer, tid: Tid, world: World)
    ensures OnlyLives(t, HandleExec(t, tid, world))
  {
    hide FileRecords, BuildParentOf, Ended, ProgramSegment, Named;
    var tgid := TgidOf(t, tid);
    MoreFileRecords(t.sink, ProcessStarted(tgid));
    var t1 := if tgid in t.processes then t else Adopt(t, tid, tgid, world);
    var state := t1.processes[tgid];
    MoreFileRecords(t1.sink, SegmentEnded(state.process, Ended(state.segment, world.now)));
  }

  lemma ExitSaysNoFiles(t: Tracer, tid: Tid, status: int, world: World)
    ensures OnlyLives(t, HandleTaskExit(t, tid, status, world))
  {
    hide FileRecords, Ended, ExitCode;
    var tgid, code := TgidOf(t, tid), ExitCode(status);
    if tgid in t.processes {
      var state := t.processes[tgid];
      var last := Ended(state.segment, world.now).(exitCode := Some(code));
      MoreFileRecords(t.sink, SegmentEnded(state.process, last));
      MoreFileRecords(t.sink + [SegmentEnded(state.process, last)], ProcessExited(tgid, last.start));
    }
  }

  lemma KindFollows(t: Tracer, calls: Calls, tid: Tid, kind: Kind, world: World)
    requires Follows(t, calls) && (kind.Filtered? ==> tid !in calls)
    ensures Follows(HandleKind(t, tid, kind, world), CallsAfter(t.arch, calls, Stopped(tid, kind), world))
    ensures FileRecords(HandleKind(t, tid, kind, world).sink)
         == FileRecords(t.sink)
            + if kind.SyscallStop? && kind.call.AtExit? then CallRecords(t, calls, tid, kind.call.rval, world) else []
  {
    hide Follows, FileRecords, HandleExec, Clone, HandleSeccomp, HandleSyscallStop, CallRecords, IntentOf;
    var u := HandleKind(t, tid, kind, world);
    match kind {
      case Cloned(child) =>
        CloneSays(t, tid, child, world);
        ResumedFollows(t, u, calls);
      case Execed =>
        ExecKeepsCalls(t, tid, world);
        ExecSaysNoFiles(t, tid, world);
        ResumedFollows(t, u, calls);
      case Filtered(info) =>
        EnteringFollows(t, calls, tid, info, world);
        EnteringSays(t, tid, info, world);
      case Noted =>
        ResumedFollows(t, u, calls);
      case Signalled(_) =>
        ResumedFollows(t, u, calls);
      case SyscallStop(call) =>
        if call.AtExit? {
          LeavingFollows(t, calls, tid, call.rval, world);
          LeavingSays(t, calls, tid, call.rval, world);
        } else {
          StillFollows(t, calls, tid, world);
        }
    }
  }

  lemma StillFollows(t: Tracer, calls: Calls, tid: Tid, world: World)
    requires Follows(t, calls)
    ensures Follows(HandleSyscallStop(t, tid, NotAtExit, world), calls)
    ensures HandleSyscallStop(t, tid, NotAtExit, world).sink == t.sink
  {
    hide Opens, Renames;
  }

  lemma LeavingSays(t: Tracer, calls: Calls, tid: Tid, rval: int, world: World)
    requires Follows(t, calls)
    ensures FileRecords(HandleSyscallStop(t, tid, AtExit(rval), world).sink)
         == FileRecords(t.sink) + CallRecords(t, calls, tid, rval, world)
  {
    hide FileRecords, HandleSyscallStop, TgidOf;
    LeavingFollows(t, calls, tid, rval, world);
    assert t.sink + [] == t.sink;
    if tid in calls {
      match calls[tid] {
        case Opening(open) => MoreFileRecords(t.sink, OpenRecord(TgidOf(t, tid), tid, open, rval, world));
        case Renaming(rename) => MoreFileRecords(t.sink, RenameRecord(TgidOf(t, tid), rename));
        case Unreadable =>
      }
    }
  }

  lemma EnteringSays(t: Tracer, tid: Tid, info: SeccompInfo, world: World)
    ensures HandleSeccomp(t, tid, info, world).sink == t.sink
  {
    hide IntentOf;
  }

  lemma CloneSays(t: Tracer, tid: Tid, child: Tid, world: World)
    ensures SameCalls(t, Clone(t, tid, child, world)) && OnlyLives(t, Clone(t, tid, child, world))
  {
    hide InitializeNewborn, FileRecords;
    var t1 := t.(active := t.active + {child});
    RegisteringKeepsCalls(t1, child, TgidOf(t, tid), 0, world.now, world);
    RegisteringSaysNoFiles(t1, child, TgidOf(t, tid), world.now, world);
  }

  lemma ResumedFollows(t: Tracer, u: Tracer, calls: Calls)
    requires Follows(t, calls) && u.pendingOpens == t.pendingOpens && u.pendingRenames == t.pendingRenames
    ensures Follows(u, calls)
  {
  }

  /** One stop: the tables stay those of the running calls, and files are said just what the calls left. */
  lemma StepFollows(t: Tracer, calls: Calls, stop: Stop, world: World)
    requires Follows(t, calls) && (stop.Stopped? && stop.kind.Filtered? ==> stop.tid !in calls)
    ensures Follows(HandleStop(t, stop, world), CallsAfter(t.arch, calls, stop, world))
    ensures FileRecords(HandleStop(t, stop, world).sink) == FileRecords(t.sink) + Outcome(t, calls, stop, world)
    ensures HandleStop(t, stop, world).arch == t.arch
  {
    hide Follows, FileRecords, Registered, HandleKind, HandleTaskExit, IntentOf, CallRecords;
    match stop {
      case Exited(tid, status) =>
        ExitSaysNoFiles(t, tid, status, world);
        ExitFollows(t, calls, tid, status, world);
      case Stopped(tid, kind) =>
        var t1 := Registered(t, tid, world);
        var t2 := t1.(started := t1.started + {tid});
        RegisteredSays(t, calls, tid, world);
        ResumedFollows(t1, t2, calls);
        SameRecords(t1, t2, calls, tid, world);
        KindFollows(t2, calls, tid, kind, world);
        KindKeepsArch(t2, tid, kind, world);
        if tid !in t1.started && kind == Signalled(SIGSTOP) {
          ResumedFollows(t1, HandleStop(t, stop, world), calls);
        }
    }
  }

  lemma SameRecords(t: Tracer, u: Tracer, calls: Calls, tid: Tid, world: World)
    requires t.tasks == u.tasks
    ensures forall rval :: CallRecords(t, calls, tid, rval, world) == CallRecords(u, calls, tid, rval, world)
  {
  }

  lemma KindKeepsArch(t: Tracer, tid: Tid, kind: Kind, world: World)
    ensures HandleKind(t, tid, kind, world).arch == t.arch
  {
    hide HandleExec, Clone, HandleSeccomp, HandleSyscallStop;
  }

  lemma RegisteredSays(t: Tracer, calls: Calls, tid: Tid, world: World)
    requires Follows(t, calls)
    ensures Follows(Registered(t, tid, world), calls) && OnlyLives(t, Registered(t, tid, world))
    ensures Registered(t, tid, world).arch == t.arch
  {
    hide Follows, FileRecords, InitializeNewborn;
    if tid in t.newborns {
      var t1 := t.(newborns := t.newborns - {tid});
      RegisteringKeepsCalls(t1, tid, t.newborns[tid], 0, world.earlier, world);
      RegisteringSaysNoFiles(t1, tid, t.newborns[tid], world.earlier, world);
      ResumedFollows(t, Registered(t, tid, world), calls);
    }
  }

  lemma ExitFollows(t: Tracer, calls: Calls, tid: Tid, status: int, world: World)
    requires Follows(t, calls)
    ensures Follows(HandleTaskExit(t, tid, status, world), calls - {tid})
    ensures HandleTaskExit(t, tid, status, world).arch == t.arch
  {
    hide ExitCode, EndProcess, Opens, Renames;
    Left(calls, tid);
  }

  /**
   Over any run in which no task starts a call within a call: a task is never waiting for both an open
   and a rename; and the trace is told of exactly the opens and renames that succeeded, each once, in
   the order they ended, and of none that failed.
   */
  lemma {:induction false} FilesAreExactlyWhatSucceeded(t: Tracer, moments: seq<Moment>)
    requires t.pendingOpens == map[] && t.pendingRenames == map[] && OneCallAtATime(t.arch, moments)
    ensures Follows(HandleStops(t, moments), AllCalls(t.arch, moments))
    ensures FileRecords(HandleStops(t, moments).sink) == FileRecords(t.sink) + AllOutcomes(t, moments)
    ensures HandleStops(t, moments).arch == t.arch
  {
    hide HandleStop, Outcome, FileRecords, CallsAfter, Follows;
    if moments == [] {
      NothingFollows(t);
      assert FileRecords(t.sink) + [] == FileRecords(t.sink);
    } else {
      var n := |moments| - 1;
      FilesAreExactlyWhatSucceeded(t, moments[..n]);
      var before := HandleStops(t, moments[..n]);
      StepFollows(before, AllCalls(t.arch, moments[..n]), moments[n].stop, moments[n].world);
      ConcatAssociates(FileRecords(t.sink), AllOutcomes(t, moments[..n]),
                       Outcome(before, AllCalls(t.arch, moments[..n]), moments[n].stop, moments[n].world));
    }
  }

  lemma NothingFollows(t: Tracer)
    requires t.pendingOpens == map[] && t.pendingRenames == map[]
    ensures Follows(t, map[])
  {
  }

  /**
   Over any such run, a task with a call pending is always let go on only until that call's end, so no
   end is missed.
   */
  lemma {:induction false} AlwaysWatches(t: Tracer, moments: seq<Moment>)
    requires Watches(t) && t.pendingOpens == map[] && t.pendingRenames == map[] && OneCallAtATime(t.arch, moments)
    ensures Watches(HandleStops(t, moments))
  {
    hide HandleStop, Watches, LetsGo, CallsAfter, Opens, Renames;
    if moments != [] {
      var n := |moments| - 1;
      AlwaysWatches(t, moments[..n]);
      FilesAreExactlyWhatSucceeded(t, moments[..n]);
      var before := HandleStops(t, moments[..n]);
      match moments[n].stop {
        case Stopped(tid, kind) =>
          FollowsApart(before, AllCalls(t.arch, moments[..n]), tid);
          StopLetsGo(before, tid, kind, moments[n].world);
          LettingGoWatches(before, HandleStop(before, moments[n].stop, moments[n].world), tid,
                           SignalOf(before, tid, kind), kind.Filtered?);
        case Exited(tid, status) =>
          ExitWatches(before, tid, status, moments[n].world);
      }
    }
  }

  // ---- Conservation ----

  /** How often a process has been started, and ended by the exit of its last task, in the trace. */
  datatype Tally = Tally(starts: nat, finals: nat, reports: nat)

  function TallyOne(w: Written, pid: Pid): Tally {
    match w
    case ProcessStarted(p) => Tally(if p == pid then 1 else 0, 0, 0)
    case SegmentEnded(process, segment) => Tally(0, if process.pid == pid && segment.exitCode.Some? then 1 else 0, 0)
    case ProcessExited(p, _) => Tally(0, 0, if p == pid then 1 else 0)
    case _ => Tally(0, 0, 0)
  }

  function Sum(a: Tally, b: Tally): Tally {
    Tally(a.starts + b.starts, a.finals + b.finals, a.reports + b.reports)
  }

  function TallyOf(sink: seq<Written>, pid: Pid): Tally {
    if sink == [] then Tally(0, 0, 0)
    else Sum(TallyOf(sink[..|sink| - 1], pid), TallyOne(sink[|sink| - 1], pid))
  }

  lemma MoreTally(sink: seq<Written>, w: Written, pid: Pid)
    ensures TallyOf(sink + [w], pid) == Sum(TallyOf(sink, pid), TallyOne(w, pid))
  {
    assert (sink + [w])[..|sink|] == sink;
  }

  /** Every process started has had one final segment, unless it is still in the table. */
  predicate Balanced(t: Tracer, pid: Pid) {
    Balances(t.sink, t.processes, pid)
  }

  predicate Balances(sink: seq<Written>, processes: map<Pid, TracedProcess>, pid: Pid) {
    && TallyOf(sink, pid).starts == TallyOf(sink, pid).finals + (if pid in processes then 1 else 0)
    && TallyOf(sink, pid).reports == TallyOf(sink, pid).finals
    && (forall p | p in processes :: processes[p].process.pid == p && processes[p].segment.exitCode.None?)
  }

  lemma AddingBalances(t: Tracer, pid: Pid, parent: Pid, segment: Segment, p: Pid)
    requires Balanced(t, p) && pid !in t.processes && segment.exitCode.None?
    ensures Balanced(AddProcess(t, pid, parent, segment), p)
  {
    hide TallyOf, BuildParent;
    MoreTally(t.sink, ProcessStarted(pid), p);
  }

  lemma NewbornBalances(t: Tracer, tid: Tid, parent: Pid, now: nat, world: World, p: Pid)
    requires Balanced(t, p)
    ensures Balanced(InitializeNewborn(t, tid, parent, now, world), p)
  {
    hide TallyOf, AddProcess;
    var tgid := if world.tgid(tid).Some? then world.tgid(tid).value else tid;
    var t1 := t.(tasks := t.tasks[tid := tgid]);
    if tgid != parent && tgid !in t.processes {
      AddingBalances(t1, tgid, parent, ForkSegment(t, parent, now), p);
    }
  }

  lemma ExecBalances(t: Tracer, tid: Tid, world: World, p: Pid)
    requires Balanced(t, p)
    ensures Balanced(HandleExec(t, tid, world), p)
  {
    hide Balanced, Adopt, RunIn;
    var tgid := TgidOf(t, tid);
    if tgid !in t.processes {
      AdoptBalances(t, tid, tgid, world, p);
    }
    RunBalances(if tgid in t.processes then t else Adopt(t, tid, tgid, world), tgid, world.program(tid), world.now, p);
  }

  lemma AdoptBalances(t: Tracer, tid: Tid, tgid: Pid, world: World, p: Pid)
    requires Balanced(t, p) && tgid !in t.processes
    ensures Balanced(Adopt(t, tid, tgid, world), p)
  {
    hide Balances, AddProcess;
    var parent := if world.ppid(tid).Some? then world.ppid(tid).value else 0;
    var tasks := if tid in t.tasks then t.tasks else t.tasks[tid := tgid];
    var t1 := t.(tasks := tasks, active := t.active + {tid});
    AddingBalances(t1, tgid, parent, Segment(world.now, 0, [], [], [], None, false), p);
  }

  lemma RunBalances(t: Tracer, tgid: Pid, program: Program, now: nat, p: Pid)
    requires Balanced(t, p) && tgid in t.processes
    ensures Balanced(RunIn(t, tgid, program, now), p)
  {
    hide TallyOf;
    var state := t.processes[tgid];
    MoreTally(t.sink, SegmentEnded(state.process, Ended(state.segment, now)), p);
  }

  lemma EndingBalances(t: Tracer, tgid: Pid, code: nat, now: nat, p: Pid)
    requires Balanced(t, p)
    ensures Balanced(EndProcess(t, tgid, code, now), p)
  {
    hide TallyOf;
    if tgid in t.processes {
      var state := t.processes[tgid];
      var last := Ended(state.segment, now).(exitCode := Some(code));
      MoreTally(t.sink, SegmentEnded(state.process, last), p);
      MoreTally(t.sink + [SegmentEnded(state.process, last)], ProcessExited(tgid, last.start), p);
    }
  }

  lemma CallBalances(t: Tracer, tid: Tid, rval: int, world: World, p: Pid)
    requires Balanced(t, p)
    ensures Balanced(EndCall(t, tid, rval, world), p)
  {
    hide TallyOf, OpenRecord, RenameRecord;
    if tid in t.pendingRenames {
      MoreTally(t.sink, RenameRecord(TgidOf(t, tid), t.pendingRenames[tid]), p);
      RenameTally(TgidOf(t, tid), t.pendingRenames[tid], p);
    } else if tid in t.pendingOpens {
      MoreTally(t.sink, OpenRecord(TgidOf(t, tid), tid, t.pendingOpens[tid], rval, world), p);
      OpenTally(TgidOf(t, tid), tid, t.pendingOpens[tid], rval, world, p);
    }
  }

  lemma RenameTally(tgid: Pid, rename: PendingRename, p: Pid)
    ensures TallyOne(RenameRecord(tgid, rename), p) == Tally(0, 0, 0)
  {
  }

  lemma OpenTally(tgid: Pid, tid: Tid, open: PendingOpen, rval: int, world: World, p: Pid)
    ensures TallyOne(OpenRecord(tgid, tid, open, rval, world), p) == Tally(0, 0, 0)
  {
  }

  lemma SameBalance(t: Tracer, u: Tracer, p: Pid)
    requires Balanced(t, p) && u.sink == t.sink && u.processes == t.processes
    ensures Balanced(u, p)
  {
  }

  lemma KindBalances(t: Tracer, tid: Tid, kind: Kind, world: World, p: Pid)
    requires Balanced(t, p)
    ensures Balanced(HandleKind(t, tid, kind, world), p)
  {
    hide Balanced, InitializeNewborn, HandleExec, HandleSeccomp, EndCall;
    var u := HandleKind(t, tid, kind, world);
    match kind {
      case Cloned(child) =>
        var t1 := t.(active := t.active + {child});
        SameBalance(t, t1, p);
        NewbornBalances(t1, child, TgidOf(t, tid), world.now, world, p);
        SameBalance(InitializeNewborn(t1, child, TgidOf(t, tid), world.now, world), u, p);
      case Execed =>
        ExecBalances(t, tid, world, p);
        SameBalance(HandleExec(t, tid, world), u, p);
      case SyscallStop(call) =>
        if call.AtExit? {
          CallBalances(t, tid, call.rval, world, p);
          SameBalance(EndCall(t, tid, call.rval, world), u, p);
        } else {
          SameBalance(t, u, p);
        }
      case _ =>
        SameBalance(t, u, p);
    }
  }

  lemma StopBalances(t: Tracer, stop: Stop, world: World, p: Pid)
    requires Balanced(t, p)
    ensures Balanced(HandleStop(t, stop, world), p)
  {
    hide Balanced, InitializeNewborn, HandleKind, EndProcess, ExitCode;
    match stop {
      case Exited(tid, status) =>
        var t1 := TaskEnded(t, tid, ExitCode(status));
        SameBalance(t, t1, p);
        EndingBalances(t1, TgidOf(t, tid), ExitCode(status), world.now, p);
      case Stopped(tid, kind) =>
        if tid in t.newborns {
          SameBalance(t, t.(newborns := t.newborns - {tid}), p);
          NewbornBalances(t.(newborns := t.newborns - {tid}), tid, t.newborns[tid], world.earlier, world, p);
        }
        var t1 := Registered(t, tid, world);
        var t2 := t1.(started := t1.started + {tid});
        SameBalance(t1, t2, p);
        if tid !in t1.started && kind == Signalled(SIGSTOP) {
          SameBalance(t1, HandleStop(t, stop, world), p);
        } else {
          KindBalances(t2, tid, kind, world, p);
        }
    }
  }

  /**
   Whatever stops are reported, each start of a process in the trace has exactly one final segment and
   one exit report, unless the process is still open.
   */
  lemma {:induction false} ProcessesAreConserved(arch: Seccomp.Arch, root: Pid, name: Text, command: Text, cwd: Text,
                                                 moments: seq<Moment>, p: Pid)
    ensures Balanced(HandleStops(LinuxModel.New(arch, root, name, command, cwd), moments), p)
  {
    hide HandleStop, Balanced;
    if moments == [] {
      NewBalances(arch, root, name, command, cwd, p);
    } else {
      var n := |moments| - 1;
      ProcessesAreConserved(arch, root, name, command, cwd, moments[..n], p);
      StopBalances(HandleStops(LinuxModel.New(arch, root, name, command, cwd), moments[..n]), moments[n].stop,
                   moments[n].world, p);
    }
  }

  lemma NewBalances(arch: Seccomp.Arch, root: Pid, name: Text, command: Text, cwd: Text, p: Pid)
    ensures Balanced(LinuxModel.New(arch, root, name, command, cwd), p)
  {
    hide Balances;
    NewSinkBalances(root, name, command, cwd, p);
  }

  lemma FirstTally(w: Written, p: Pid)
    ensures TallyOf([w], p) == TallyOne(w, p)
  {
    assert [w][..0] == [];
  }

  lemma NewSinkBalances(root: Pid, name: Text, command: Text, cwd: Text, p: Pid)
    ensures Balances([ProcessStarted(root)],
                     map[root := TracedProcess(Process(root, 0, 0, false),
                                               Segment(0, 0, name, command, cwd, None, false))], p)
  {
    hide TallyOf;
    FirstTally(ProcessStarted(root), p);
  }

  /** How many segments of `pid` the trace has. */
  function SegmentCount(sink: seq<Written>, pid: Pid): nat {
    if sink == [] then 0
    else SegmentCount(sink[..|sink| - 1], pid)
         + if sink[|sink| - 1].SegmentEnded? && sink[|sink| - 1].process.pid == pid then 1 else 0
  }

  predicate Distinct(order: seq<Pid>) {
    forall i, j | 0 <= i < j < |order| :: order[i] != order[j]
  }

  /** When the loop ends, each process still open has its one last segment written, ended then, and no other has any. */
  lemma {:induction false} FinishEndsEach(t: Tracer, order: seq<Pid>, now: nat, pid: Pid)
    requires Distinct(order) && forall i | 0 <= i < |order| :: order[i] in t.processes
    requires forall p | p in t.processes :: t.processes[p].process.pid == p
    ensures var u := LinuxModel.FinishAll(t, order, now);
            && SegmentCount(u.sink, pid) == SegmentCount(t.sink, pid) + (if pid in order then 1 else 0)
            && (pid in order ==> SegmentEnded(t.processes[pid].process,
                                              t.processes[pid].segment.(end := now)) in u.sink)
            && t.sink <= u.sink
  {
    hide SegmentCount;
    if order != [] {
      var n := |order| - 1;
      FinishEndsEach(t, order[..n], now, pid);
      assert order == order[..n] + [order[n]];
      var before := LinuxModel.FinishAll(t, order[..n], now);
      var w := SegmentEnded(before.processes[order[n]].process, before.processes[order[n]].segment.(end := now));
      OneMoreSegment(before.sink, w, pid);
      assert pid == order[n] ==> pid !in order[..n];
      assert w in before.sink + [w];
    }
  }

  lemma OneMoreSegment(sink: seq<Written>, w: Written, pid: Pid)
    ensures SegmentCount(sink + [w], pid)
         == SegmentCount(sink, pid) + if w.SegmentEnded? && w.process.pid == pid then 1 else 0
  {
    assert (sink + [w])[..|sink|] == sink;
  }
}
