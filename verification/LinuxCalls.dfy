/**
 System calls as programs make them: each by its parameters, which the kernel passes in registers, in
 order. What the tracer leaves of a call is what its caller passed, and what came of it.
 */
module LinuxCalls {
  import opened Basics
  import opened TrackerModel
  import opened LinuxModel
  import opened LinuxProofs
  import Seccomp

  // ---- Calls ----

  /** A call by its parameters. Paths and structures are addresses in the caller's memory. */
  datatype UserCall =
    | OpenCall(path: Word, flags: Word, mode: Word)
    | OpenAt(dir: Word, path: Word, flags: Word, mode: Word)
    | OpenAt2(dir: Word, path: Word, how: Word, size: Word)
    | RenameCall(source: Word, target: Word)
    | RenameAt(sourceDir: Word, source: Word, targetDir: Word, target: Word)
    | RenameAt2(sourceDir: Word, source: Word, targetDir: Word, target: Word, flags: Word)

  function Number(arch: Seccomp.Arch, c: UserCall): Option<int> {
    match c
    case OpenCall(_, _, _) => arch.open
    case OpenAt(_, _, _, _) => Some(arch.openat)
    case OpenAt2(_, _, _, _) => Some(arch.openat2)
    case RenameCall(_, _) => arch.rename
    case RenameAt(_, _, _, _) => Some(arch.renameat)
    case RenameAt2(_, _, _, _, _) => Some(arch.renameat2)
  }

  function Parameters(c: UserCall): seq<Word> {
    match c
    case OpenCall(path, flags, mode) => [path, flags, mode]
    case OpenAt(dir, path, flags, mode) => [dir, path, flags, mode]
    case OpenAt2(dir, path, how, size) => [dir, path, how, size]
    case RenameCall(source, target) => [source, target]
    case RenameAt(sourceDir, source, targetDir, target) => [sourceDir, source, targetDir, target]
    case RenameAt2(sourceDir, source, targetDir, target, flags) => [sourceDir, source, targetDir, target, flags]
  }

  /** The kernel is given the call's number, and its parameters in the first registers. */
  predicate IsMadeAs(arch: Seccomp.Arch, c: UserCall, info: SeccompInfo) {
    Number(arch, c) == Some(info.nr) && Parameters(c) <= info.args
  }

  /** No two of an architecture's calls have one number. */
  predicate NumbersDiffer(arch: Seccomp.Arch) {
    var all := Seccomp.TracedSyscalls(arch);
    forall i, j | 0 <= i < j < |all| :: all[i] != all[j]
  }

  // ---- What a call leaves ----

  /** The low 32 bits of what a call returned, as a descriptor. */
  function DescriptorOf(rval: int): int {
    var low := rval % 0x1_0000_0000;
    if low < 0x8000_0000 then low else low - 0x1_0000_0000
  }

  /** A file opened by the path read as the call started, if the call returned a descriptor. */
  function Opened(tid: Tid, tgid: Pid, start: World, end: World, rval: int, path: Word, flags: Word): seq<Written> {
    var raw := start.text(tid, path);
    var fd := DescriptorOf(rval);
    if rval < 0 then [] else
      [FileOpened(tgid, start.now, end.resolveOpen(tid, fd, if raw.Some? then raw.value else UNREADABLE), flags, fd,
                  false)]
  }

  /** A path read in a call's parameter, and looked up from a directory; none if it cannot be read or is empty. */
  function Place(tid: Tid, start: World, dir: int, path: Word): Option<Text> {
    var raw := start.text(tid, path);
    if raw.Some? && raw.value != [] then Some(start.resolveAt(tid, dir, raw.value)) else None
  }

  function Moved(tid: Tid, tgid: Pid, start: World, rval: int, from: Option<Text>, to: Option<Text>): seq<Written> {
    if rval == 0 && from.Some? && to.Some? then [FileRenamed(tgid, start.now, from.value, to.value)] else []
  }

  /** What a call leaves in the trace, from what it passed, how memory was as it started, and what it returned. */
  function LeftBy(c: UserCall, tid: Tid, tgid: Pid, start: World, end: World, rval: int): seq<Written> {
    match c
    case OpenCall(path, flags, _) => Opened(tid, tgid, start, end, rval, path, flags)
    case OpenAt(_, path, flags, _) => Opened(tid, tgid, start, end, rval, path, flags)
    case OpenAt2(_, path, how, _) =>
      var flags := start.word(tid, how);
      Opened(tid, tgid, start, end, rval, path, if flags.Some? then flags.value else 0)
    case RenameCall(source, target) =>
      Moved(tid, tgid, start, rval, Place(tid, start, AT_FDCWD, source), Place(tid, start, AT_FDCWD, target))
    case RenameAt(sourceDir, source, targetDir, target) =>
      Moved(tid, tgid, start, rval, Place(tid, start, AsI32(sourceDir), source),
            Place(tid, start, AsI32(targetDir), target))
    case RenameAt2(sourceDir, source, targetDir, target, _) =>
      Moved(tid, tgid, start, rval, Place(tid, start, AsI32(sourceDir), source),
            Place(tid, start, AsI32(targetDir), target))
  }

  // ---- Over a run ----

  /** The stop that started the call a task is in. */
  function InCall(moments: seq<Moment>, tid: Tid): (start: Option<nat>)
    ensures start.Some? ==> start.value < |moments|
  {
    if moments == [] then None else
      var n := |moments| - 1;
      match moments[n].stop
      case Stopped(task, Filtered(_)) => if task == tid then Some(n) else InCall(moments[..n], tid)
      case Stopped(task, SyscallStop(AtExit(_))) => if task == tid then None else InCall(moments[..n], tid)
      case Exited(task, _) => if task == tid then None else InCall(moments[..n], tid)
      case _ => InCall(moments[..n], tid)
  }

  predicate StartsCall(m: Moment) {
    m.stop.Stopped? && m.stop.kind.Filtered?
  }

  /** No task starts a call within one of its own. */
  predicate NoCallWithin(moments: seq<Moment>) {
    forall i | 0 <= i < |moments| && StartsCall(moments[i]) :: InCall(moments[..i], moments[i].stop.tid) == None
  }

  /** Every call that is stopped as it starts is one of `made`, at the same place. */
  predicate AreMade(arch: Seccomp.Arch, moments: seq<Moment>, made: seq<UserCall>) {
    && |made| == |moments|
    && forall i | 0 <= i < |moments| && StartsCall(moments[i]) :: IsMadeAs(arch, made[i], moments[i].stop.kind.info)
  }

  /** The process the tracer has a task in, once it has handled the moment. */
  function ProcessThen(t: Tracer, moments: seq<Moment>, m: Moment): Pid {
    TgidOf(HandleStop(HandleStops(t, moments), m.stop, m.world), m.stop.tid)
  }

  /** What the last moment leaves: if it ends a call, what that call leaves. */
  function LeftLast(t: Tracer, moments: seq<Moment>, made: seq<UserCall>): seq<Written>
    requires moments != [] && |made| == |moments|
  {
    var n := |moments| - 1;
    match moments[n].stop
    case Stopped(tid, SyscallStop(AtExit(rval))) =>
      var start := InCall(moments[..n], tid);
      if start.Some? then
        LeftBy(made[start.value], tid, ProcessThen(t, moments[..n], moments[n]), moments[start.value].world,
               moments[n].world, rval)
      else []
    case _ => []
  }

  /** What the calls of a run leave, in the order they end. */
  function Left(t: Tracer, moments: seq<Moment>, made: seq<UserCall>): seq<Written>
    requires |made| == |moments|
  {
    if moments == [] then [] else
      Left(t, moments[..|moments| - 1], made[..|moments| - 1]) + LeftLast(t, moments, made)
  }

  // ---- The tracer reads them right ----

  lemma DescriptorIs(rval: int)
    ensures (rval + 0x8000_0000) % 0x1_0000_0000 - 0x8000_0000 == DescriptorOf(rval)
  {
  }

  /** What the tracer makes of a stopped call is what the call passed. */
  lemma IntentIs(arch: Seccomp.Arch, c: UserCall, tid: Tid, info: SeccompInfo, start: World)
    requires NumbersDiffer(arch) && IsMadeAs(arch, c, info)
    ensures var intent := IntentOf(arch, tid, info, start);
            match c
            case OpenCall(path, flags, _) => intent == Opening(PendingOpen(start.now, RawAt(tid, start, path), flags))
            case OpenAt(_, path, flags, _) => intent == Opening(PendingOpen(start.now, RawAt(tid, start, path), flags))
            case OpenAt2(_, path, how, _) =>
              var flags := start.word(tid, how);
              intent == Opening(PendingOpen(start.now, RawAt(tid, start, path), if flags.Some? then flags.value else 0))
            case RenameCall(source, target) =>
              intent == Move(start, Place(tid, start, AT_FDCWD, source), Place(tid, start, AT_FDCWD, target))
            case RenameAt(sourceDir, source, targetDir, target) =>
              intent == Move(start, Place(tid, start, AsI32(sourceDir), source),
                             Place(tid, start, AsI32(targetDir), target))
            case RenameAt2(sourceDir, source, targetDir, target, _) =>
              intent == Move(start, Place(tid, start, AsI32(sourceDir), source),
                             Place(tid, start, AsI32(targetDir), target))
  {
    hide AsI32;
    NumbersTellApart(arch, c);
    var parameters := Parameters(c);
    assert forall i | 0 <= i < |parameters| :: Arg(info, i) == parameters[i];
  }

  function RawAt(tid: Tid, start: World, path: Word): Text {
    var raw := start.text(tid, path);
    if raw.Some? then raw.value else UNREADABLE
  }

  function Move(start: World, from: Option<Text>, to: Option<Text>): Intent {
    if from.Some? && to.Some? then Renaming(PendingRename(start.now, from.value, to.value)) else Unreadable
  }

  lemma NumbersTellApart(arch: Seccomp.Arch, c: UserCall)
    requires NumbersDiffer(arch) && Number(arch, c).Some?
    ensures var nr := Number(arch, c).value;
            && (Seccomp.IsRename(arch, nr) <==> c.RenameCall? || c.RenameAt? || c.RenameAt2?)
            && (Seccomp.IsBareRename(arch, nr) <==> c.RenameCall?)
            && (Seccomp.IsBareOpen(arch, nr) <==> c.OpenCall?)
            && (nr == arch.openat <==> c.OpenAt?)
  {
    var all := Seccomp.TracedSyscalls(arch);
    assert all[0] == arch.openat && all[1] == arch.openat2 && all[2] == arch.renameat && all[3] == arch.renameat2;
    assert arch.open.Some? ==> all[4] == arch.open.value;
    assert arch.rename.Some? ==> all[|all| - 1] == arch.rename.value && (arch.open.Some? ==> |all| == 6);
  }

  /** The calls the tracer has running are those that have started and not ended. */
  lemma {:induction false} RunningCalls(arch: Seccomp.Arch, moments: seq<Moment>, tid: Tid)
    ensures match InCall(moments, tid)
            case None => tid !in AllCalls(arch, moments)
            case Some(i) =>
              && i < |moments| && StartsCall(moments[i]) && moments[i].stop.tid == tid
              && tid in AllCalls(arch, moments)
              && AllCalls(arch, moments)[tid] == IntentOf(arch, tid, moments[i].stop.kind.info, moments[i].world)
  {
    hide IntentOf;
    if moments != [] {
      RunningCalls(arch, moments[..|moments| - 1], tid);
    }
  }

  lemma {:induction false} OneAtATime(arch: Seccomp.Arch, moments: seq<Moment>)
    requires NoCallWithin(moments)
    ensures OneCallAtATime(arch, moments)
  {
    hide InCall, AllCalls;
    if moments != [] {
      var n := |moments| - 1;
      assert NoCallWithin(moments[..n]) by { FewerWithin(moments); }
      OneAtATime(arch, moments[..n]);
      RunningCalls(arch, moments[..n], moments[n].stop.tid);
    }
  }

  lemma FewerWithin(moments: seq<Moment>)
    requires NoCallWithin(moments) && moments != []
    ensures NoCallWithin(moments[..|moments| - 1])
  {
    hide InCall;
    var before := moments[..|moments| - 1];
    forall i | 0 <= i < |before| && StartsCall(before[i]) ensures InCall(before[..i], before[i].stop.tid) == None {
      assert before[..i] == moments[..i];
    }
  }

  lemma SameProcess(t: Tracer, tid: Tid, rval: int, world: World)
    ensures TgidOf(HandleStop(t, Stopped(tid, SyscallStop(AtExit(rval))), world), tid)
         == TgidOf(Registered(t, tid, world), tid)
  {
    hide Registered, EndCall;
  }

  /** The end of a call leaves what was passed to it. */
  lemma EndLeaves(t: Tracer, moments: seq<Moment>, made: seq<UserCall>)
    requires moments != [] && NumbersDiffer(t.arch) && AreMade(t.arch, moments, made)
    ensures var n := |moments| - 1;
            Outcome(HandleStops(t, moments[..n]), AllCalls(t.arch, moments[..n]), moments[n].stop, moments[n].world)
            == LeftLast(t, moments, made)
  {
    hide HandleStops, HandleStop, Registered, IntentOf, AllCalls, NumbersDiffer, IsMadeAs, TgidOf, InCall;
    var n := |moments| - 1;
    match moments[n].stop {
      case Stopped(tid, SyscallStop(AtExit(rval))) =>
        RunningCalls(t.arch, moments[..n], tid);
        SameProcess(HandleStops(t, moments[..n]), tid, rval, moments[n].world);
        DescriptorIs(rval);
        var start := InCall(moments[..n], tid);
        if start.Some? {
          assert IsMadeAs(t.arch, made[start.value], moments[start.value].stop.kind.info);
          IntentIs(t.arch, made[start.value], tid, moments[start.value].stop.kind.info, moments[start.value].world);
        }
      case _ =>
    }
  }

  lemma {:induction false} OutcomesAreLeft(t: Tracer, moments: seq<Moment>, made: seq<UserCall>)
    requires NumbersDiffer(t.arch) && AreMade(t.arch, moments, made)
    ensures AllOutcomes(t, moments) == Left(t, moments, made)
  {
    hide Outcome, LeftLast, NumbersDiffer, IsMadeAs;
    if moments != [] {
      var n := |moments| - 1;
      assert AreMade(t.arch, moments[..n], made[..n]);
      OutcomesAreLeft(t, moments[..n], made[..n]);
      EndLeaves(t, moments, made);
    }
  }

  /**
   Over any run in which no task starts a call within a call, and the filter stops calls as programs make
   them: the trace is told just what the calls leave, in the order they end. An open leaves its own path
   and flags, a rename its old and its new path, each under its own directory, and only if it succeeded.
   */
  lemma CallsLeaveWhatTheyPass(t: Tracer, moments: seq<Moment>, made: seq<UserCall>)
    requires t.pendingOpens == map[] && t.pendingRenames == map[]
    requires NumbersDiffer(t.arch) && AreMade(t.arch, moments, made) && NoCallWithin(moments)
    ensures FileRecords(HandleStops(t, moments).sink) == FileRecords(t.sink) + Left(t, moments, made)
  {
    hide HandleStops, FileRecords, AllOutcomes, Left, NumbersDiffer, AreMade, NoCallWithin, OneCallAtATime, Follows;
    OneAtATime(t.arch, moments);
    FilesAreExactlyWhatSucceeded(t, moments);
    OutcomesAreLeft(t, moments, made);
  }
}
