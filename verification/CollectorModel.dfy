/**
 The collector as a function of its state: what each kernel trace record, each tick and the
 final flush do. `Collector.dfy` holds the object that is updated in place and proved
 against these functions.
 */
module CollectorModel {
  import opened Basics
  import opened Messages
  import opened Ordering
  import opened Paths
  import opened Fragments

  // ---- Kernel records ----

  type Tid = Word
  type Args = args: seq<Word> | |args| == 4 witness [0, 0, 0, 0]

  datatype Record = Record(timestamp: nat, args: Args, thread: Tid, debugid: nat) {
    /** The kind of record, without its start and end bits. */
    function Code(): nat { debugid - debugid % 4 }
    predicate IsStart() { debugid % 2 == 1 }
    predicate IsEnd() { debugid / 2 % 2 == 1 }
  }

  const NEWTHREAD: nat := 0x0700_0004
  const DATA_EXEC: nat := 0x0700_0008
  const STRING_EXEC: nat := 0x0701_0008
  const LOST_EVENTS: nat := 0x0702_0008
  const PROC_EXIT: nat := 0x0401_0004
  const VFS_LOOKUP: nat := 0x0301_0090

  const OPEN: nat := 0x040c_0014
  const OPEN_NOCANCEL: nat := 0x040c_0638
  const OPEN_EXTENDED: nat := 0x040c_0454
  const OPEN_DPROTECTED: nat := 0x040c_0360
  const GUARDED_OPEN: nat := 0x040c_06e4
  const GUARDED_OPEN_DPROTECTED: nat := 0x040c_0790
  const OPENAT: nat := 0x040c_073c
  const OPENAT_NOCANCEL: nat := 0x040c_0740
  const OPENAT_DPROTECTED: nat := 0x040c_0368
  const RENAME: nat := 0x040c_0200
  const RENAMEAT: nat := 0x040c_0744
  const RENAMEATX: nat := 0x040c_07a0
  const CHDIR: nat := 0x040c_0030
  const FCHDIR: nat := 0x040c_0034
  const CLOSE: nat := 0x040c_0018
  const CLOSE_NOCANCEL: nat := 0x040c_063c
  const GUARDED_CLOSE: nat := 0x040c_06e8
  const DUP: nat := 0x040c_00a4
  const DUP2: nat := 0x040c_0168
  const FCNTL: nat := 0x040c_0170
  const FCNTL_NOCANCEL: nat := 0x040c_0658

  const AT_FDCWD: int := -2
  const O_CLOEXEC: nat := 0x0100_0000
  const O_DIRECTORY: nat := 0x0010_0000
  const O_CREAT: nat := 0x0200
  const F_DUPFD: Word := 0
  const F_SETFD: Word := 2
  const F_DUPFD_CLOEXEC: Word := 67

  predicate IsOpenAt(code: nat) {
    code == OPENAT || code == OPENAT_NOCANCEL || code == OPENAT_DPROTECTED
  }

  predicate IsGuardedOpen(code: nat) {
    code == GUARDED_OPEN || code == GUARDED_OPEN_DPROTECTED
  }

  predicate IsOpen(code: nat) {
    || code == OPEN || code == OPEN_NOCANCEL || code == OPEN_EXTENDED || code == OPEN_DPROTECTED
    || IsGuardedOpen(code) || IsOpenAt(code)
  }

  predicate IsRename(code: nat) {
    code == RENAME || code == RENAMEAT || code == RENAMEATX
  }

  predicate IsClose(code: nat) {
    code == CLOSE || code == CLOSE_NOCANCEL || code == GUARDED_CLOSE
  }

  predicate IsFcntl(code: nat) {
    code == FCNTL || code == FCNTL_NOCANCEL
  }

  predicate IsFollowed(code: nat) {
    || IsOpen(code) || IsRename(code) || code == CHDIR || code == FCHDIR || IsClose(code)
    || code == DUP || code == DUP2 || IsFcntl(code)
  }

  // ---- State ----

  datatype Descriptor = Descriptor(path: Option<Text>, closeOnExec: bool)
  datatype Process = Process(cwd: Option<Text>, fds: map<int, Descriptor>)
  datatype Lookup = Lookup(vnode: Word, path: Text)
  datatype Gathered = Gathered(vnode: Word, words: seq<Word>)
  datatype Call = Call(code: nat, args: Args, lookups: seq<Lookup>)
  datatype HeldOpen = HeldOpen(time: nat, pid: Pid, vnode: Word, raw: Text, flags: nat, fd: int)
  datatype HeldExit = HeldExit(pid: Pid, time: nat, stat: int)
  datatype Successor = Successor(executable: Text, argv: seq<Text>)

  datatype Pending = Pending(
    pid: Pid,
    time: nat,
    image: Word,
    giveUp: bool,
    movedOn: Option<Successor>,
    named: bool)

  datatype State = State(
    root: Pid,
    window: nat,
    fileEvents: bool,
    processes: map<Pid, Process>,
    threads: map<Tid, Pid>,
    lookups: map<Tid, Gathered>,
    calls: map<Tid, Call>,
    vnodePaths: map<Word, Text>,
    names: map<Pid, Text>,
    heldExits: seq<HeldExit>,
    newTasks: map<Tid, Tid>,
    replaced: set<Tid>,
    argvRetries: seq<Pending>,
    rootCommand: Option<seq<Text>>,
    latest: nat,
    created: set<Text>,
    heldOpens: seq<HeldOpen>,
    queued: seq<Message>,
    dropped: nat,
    started: nat,
    unnamed: nat)

  /** A new collector follows the root alone. */
  function Initial(root: Pid, rootCwd: Text, window: nat, fileEvents: bool,
                   threads: map<Tid, Pid>, rootCommand: Option<seq<Text>>): State {
    State(root, window, fileEvents,
          map[root := Process(Some(Normalized(rootCwd)), map[])],
          threads, map[], map[], map[], map[], [], map[], {}, [], rootCommand, 0, {}, [], [], 0, 0, 0)
  }

  datatype Step = Step(state: State, out: seq<Message>)

  /** A message about a file, from this process and time. */
  predicate IsFileMessage(m: Message, pid: Pid, time: nat) {
    && m.time == time && m.pid == pid && m.ppid == 0 && (m.event.Open? || m.event.Rename?)
    && (m.event.Open? ==> m.event.flags < TWO_TO_64 && IsI32(m.event.fd))
  }

  /** A step that holds an open says nothing; at most one is held, of this process and time. */
  predicate HoldsOrSays(s: State, step: Step, pid: Pid, time: nat) {
    step.state.heldOpens == s.heldOpens ||
    (&& step.out == []
     && |step.state.heldOpens| == |s.heldOpens| + 1
     && step.state.heldOpens[..|s.heldOpens|] == s.heldOpens
     && var held := step.state.heldOpens[|s.heldOpens|];
        held.time == time && held.pid == pid && held.flags < TWO_TO_64 && IsI32(held.fd))
  }

  /** What is fixed when the collector is made. */
  predicate SameSetup(s: State, t: State) {
    t.root == s.root && t.window == s.window && t.fileEvents == s.fileEvents
  }

  // ---- What the machine answers ----

  datatype Inspection = Inspection(started: nat, executable: Text, argv: seq<Text>, image: Word)
  datatype Answer = NoSuchProcess | NotReadable | Answered(inspection: Inspection)

  /** The answers a step gets: what reading a process gives, which it tries once at most, and which paths exist. */
  datatype Env = Env(inspect: Pid -> Answer, present: Text -> bool)

  datatype Unread = NotYet | Gone | MovedOn(successor: Successor)
  datatype Reading = Read(executable: Text, argv: seq<Text>) | Unreadable(why: Unread)

  function WhatInstead(why: Unread): Option<Successor> {
    match why
    case MovedOn(successor) => Some(successor)
    case _ => None
  }

  function CommandLine(time: nat, image: Word, answer: Answer): Reading {
    match answer
    case NoSuchProcess => Unreadable(Gone)
    case NotReadable => Unreadable(NotYet)
    case Answered(i) =>
      if i.started > time then Unreadable(Gone)
      else if image != 0 && i.image != image then Unreadable(MovedOn(Successor(i.executable, i.argv)))
      else Read(i.executable, i.argv)
  }

  // ---- Programs ----

  function CwdOf(s: State, pid: Pid): Text {
    if pid in s.processes && s.processes[pid].cwd.Some? then s.processes[pid].cwd.value else []
  }

  function ExecMessage(s: State, pid: Pid, time: nat, executable: Text, argv: seq<Text>): (m: Message)
    ensures m.time == time && m.pid == pid && m.ppid == 0 && m.event.Exec?
  {
    Message(time, pid, 0, Exec(argv, CwdOf(s, pid), executable))
  }

  function TrimDashes(arg: Text): Text {
    if arg != [] && arg[0] == 45 then TrimDashes(arg[1..]) else arg
  }

  /** Whether `argv` starts with the kernel's name for the program; long names are cut short. */
  predicate PassedOn(s: State, pid: Pid, argv: seq<Text>) {
    && pid in s.names
    && s.names[pid] != []
    && var first := if argv == [] then [] else TrimDashes(LastComponent(argv[0]));
       first == s.names[pid] || (|s.names[pid]| >= 15 && s.names[pid] <= first)
  }

  function NameOf(s: State, pid: Pid): Text {
    if pid in s.names then s.names[pid] else []
  }

  /** The exec message of an unread program: under what it passed on, or its name, or nothing. */
  function Settled(s: State, p: Pending): (m: Message)
    ensures m.time == p.time && m.pid == p.pid && m.ppid == 0 && m.event.Exec?
  {
    match p.movedOn
    case Some(next) =>
      if PassedOn(s, p.pid, next.argv) then ExecMessage(s, p.pid, p.time, next.executable, next.argv)
      else ExecMessage(s, p.pid, p.time, NameOf(s, p.pid), [NameOf(s, p.pid)])
    case None => ExecMessage(s, p.pid, p.time, NameOf(s, p.pid), [NameOf(s, p.pid)])
  }

  /** Settling counts as lost when nothing else has the arguments. */
  function Lost(p: Pending): nat {
    if p.movedOn.Some? then 0 else 1
  }

  predicate HasPending(pending: seq<Pending>, pid: Pid) {
    exists i | 0 <= i < |pending| :: pending[i].pid == pid
  }

  function FirstPending(pending: seq<Pending>, pid: Pid): (i: nat)
    requires HasPending(pending, pid)
    ensures i < |pending| && pending[i].pid == pid
    ensures forall j | 0 <= j < i :: pending[j].pid != pid
  {
    if pending[0].pid == pid then 0 else
      assert HasPending(pending[1..], pid) by {
        var k :| 0 <= k < |pending| && pending[k].pid == pid;
        assert pending[1..][k - 1].pid == pid;
      }
      1 + FirstPending(pending[1..], pid)
  }

  function SettleEarlier(s: State, pid: Pid): (step: Step)
    ensures step.state == s.(argvRetries := step.state.argvRetries, unnamed := step.state.unnamed)
  {
    if HasPending(s.argvRetries, pid) then
      var i := FirstPending(s.argvRetries, pid);
      var earlier := s.argvRetries[i];
      Step(s.(argvRetries := s.argvRetries[..i] + s.argvRetries[i + 1..],
              unnamed := s.unnamed + Lost(earlier)),
           [Settled(s, earlier)])
    else
      Step(s, [])
  }

  function KeptOnExec(fds: map<int, Descriptor>): map<int, Descriptor> {
    map fd | fd in fds && !fds[fd].closeOnExec :: fds[fd]
  }

  function CloseOnExec(s: State, pid: Pid): (t: State)
    ensures t == s.(processes := t.processes)
  {
    if pid in s.processes then
      s.(processes := s.processes[pid := s.processes[pid].(fds := KeptOnExec(s.processes[pid].fds))])
    else s
  }

  /** The read of the program's own command line, or another entry to retry. */
  function StartProgram(s: State, pid: Pid, time: nat, image: Word, answer: Answer): (step: Step)
    ensures step.state == s.(rootCommand := step.state.rootCommand, argvRetries := step.state.argvRetries)
    ensures step.out == [] ==>
              && |step.state.argvRetries| == |s.argvRetries| + 1
              && step.state.argvRetries[..|s.argvRetries|] == s.argvRetries
              && var p := step.state.argvRetries[|s.argvRetries|];
                 p.pid == pid && p.time == time && !p.named
    ensures step.out != [] ==>
              && step.state.argvRetries == s.argvRetries
              && |step.out| == 1 && step.out[0].time == time && step.out[0].pid == pid
              && step.out[0].ppid == 0 && step.out[0].event.Exec?
  {
    if pid == s.root && s.rootCommand.Some? then
      var argv := s.rootCommand.value;
      Step(s.(rootCommand := None), [ExecMessage(s, pid, time, if argv == [] then [] else argv[0], argv)])
    else
      match CommandLine(time, image, answer)
      case Read(executable, argv) => Step(s, [ExecMessage(s, pid, time, executable, argv)])
      case Unreadable(why) =>
        Step(s.(argvRetries := s.argvRetries + [Pending(pid, time, image, !why.NotYet?, WhatInstead(why), false)]), [])
  }

  function ExecStep(s: State, pid: Pid, time: nat, image: Word, env: Env): (step: Step)
    ensures step.state == s.(processes := step.state.processes, argvRetries := step.state.argvRetries,
                             unnamed := step.state.unnamed, rootCommand := step.state.rootCommand)
  {
    var earlier := SettleEarlier(CloseOnExec(s, pid), pid);
    var next := StartProgram(earlier.state, pid, time, image, env.inspect(pid));
    Step(next.state, earlier.out + next.out)
  }

  // ---- Retrying ----

  datatype Retried = Keep(pending: Pending) | Report(message: Message, lost: nat)

  function Retry(s: State, p: Pending, answer: Answer, lastChance: bool): (r: Retried)
    ensures r.Keep? ==> r.pending == p.(giveUp := r.pending.giveUp, movedOn := r.pending.movedOn)
    ensures r.Keep? ==> !lastChance && s.latest < p.time + s.window
    ensures r.Report? ==> r.message.time == p.time && r.message.pid == p.pid
    ensures r.Report? ==> r.message.ppid == 0 && r.message.event.Exec?
  {
    var read := if p.giveUp then Unreadable(Gone) else CommandLine(p.time, p.image, answer);
    var waiting := !lastChance && s.latest < p.time + s.window;
    match read
    case Read(executable, argv) => Report(ExecMessage(s, p.pid, p.time, executable, argv), 0)
    case Unreadable(why) =>
      var p' := p.(movedOn := if p.movedOn.Some? then p.movedOn else WhatInstead(why));
      if waiting && (why.NotYet? || !p.named) then Keep(p'.(giveUp := !why.NotYet?))
      else Report(Settled(s, p'), Lost(p'))
  }

  datatype RetriedAll = RetriedAll(kept: seq<Pending>, out: seq<Message>, lost: nat)

  /** Retries the first entries of a list, in order; each is answered by the read of its process. */
  function RetryList(s: State, pending: seq<Pending>, env: Env, lastChance: bool): RetriedAll {
    if pending == [] then RetriedAll([], [], 0) else
      var n := |pending| - 1;
      var before := RetryList(s, pending[..n], env, lastChance);
      match Retry(s, pending[n], env.inspect(pending[n].pid), lastChance)
      case Keep(p) => before.(kept := before.kept + [p])
      case Report(m, lost) => before.(out := before.out + [m], lost := before.lost + lost)
  }

  function RetryCommandLines(s: State, env: Env, lastChance: bool): (step: Step)
    ensures step.state == s.(argvRetries := step.state.argvRetries, unnamed := step.state.unnamed)
  {
    var all := RetryList(s, s.argvRetries, env, lastChance);
    Step(s.(argvRetries := all.kept, unnamed := s.unnamed + all.lost), all.out)
  }

  // ---- Exits ----

  function ExitMessage(exit: HeldExit): Message {
    Message(exit.time, exit.pid, 0, Exit(exit.stat))
  }

  function ExitMessages(exits: seq<HeldExit>): (ms: seq<Message>)
    ensures |ms| == |exits|
    ensures forall i | 0 <= i < |ms| :: ms[i] == ExitMessage(exits[i])
  {
    if exits == [] then [] else [ExitMessage(exits[0])] + ExitMessages(exits[1..])
  }

  function PidsOf(exits: seq<HeldExit>): set<Pid> {
    if exits == [] then {} else PidsOf(exits[..|exits| - 1]) + {exits[|exits| - 1].pid}
  }

  /** Believing exits ends their processes, except the root, which is always followed. */
  function EndProcesses(s: State, exits: seq<HeldExit>): (t: State)
    ensures t == s.(processes := t.processes, names := t.names)
  {
    s.(processes := s.processes - (PidsOf(exits) - {s.root}), names := s.names - PidsOf(exits))
  }

  /** The exits that wait for a command line of their process. */
  function Waiting(exits: seq<HeldExit>, pending: seq<Pending>): (kept: seq<HeldExit>)
    ensures forall i | 0 <= i < |kept| :: HasPending(pending, kept[i].pid)
  {
    if exits == [] then []
    else (if HasPending(pending, exits[0].pid) then [exits[0]] else []) + Waiting(exits[1..], pending)
  }

  /** The exits that wait for nothing. */
  function Believable(exits: seq<HeldExit>, pending: seq<Pending>): seq<HeldExit> {
    if exits == [] then []
    else (if HasPending(pending, exits[0].pid) then [] else [exits[0]]) + Believable(exits[1..], pending)
  }

  function BelieveExits(s: State): (step: Step)
    ensures step.state == s.(processes := step.state.processes, names := step.state.names,
                             heldExits := step.state.heldExits)
  {
    var believed := Believable(s.heldExits, s.argvRetries);
    Step(EndProcesses(s, believed).(heldExits := Waiting(s.heldExits, s.argvRetries)), ExitMessages(believed))
  }

  function WithoutPid(exits: seq<HeldExit>, pid: Pid): seq<HeldExit> {
    if exits == [] then []
    else (if exits[0].pid == pid then [] else [exits[0]]) + WithoutPid(exits[1..], pid)
  }

  // ---- Paths ----

  function FdPath(s: State, pid: Pid, fd: Word): Option<Text> {
    if pid in s.processes && AsI32(fd) in s.processes[pid].fds
    then s.processes[pid].fds[AsI32(fd)].path else None
  }

  /** A path some process looked up absolutely, if it can be the file this lookup ended at. */
  function KnownPath(s: State, vnode: Word, raw: Text): Option<Text> {
    if vnode in s.vnodePaths && LastComponent(s.vnodePaths[vnode]) == LastComponent(raw)
    then Some(s.vnodePaths[vnode]) else None
  }

  function ParentDirectory(path: Text): Text {
    if SLASH in path then path[..LastSlash(path)] else ROOT
  }

  predicate Confirms(s: State, path: Text, creating: bool, env: Env) {
    path in s.created ||
    var target := if creating then ParentDirectory(path) else path;
    env.present(if target == [] then ROOT else target)
  }

  datatype Resolution = Nowhere | Resolved(path: Text, joined: bool)

  /** A lookup that restarted near the root: its first name is there, and not in the directory. */
  predicate RestartedAtRoot(base: Text, raw: Text, env: Env) {
    var first := FirstComponent(raw);
    && first != []
    && SLASH in raw
    && !env.present(Under(base, first))
    && env.present(Under([], first))
  }

  function Resolve(s: State, pid: Pid, vnode: Word, raw: Text, directory: Option<Word>,
                   creating: bool, env: Env): Resolution {
    if IsAbsolute(raw) then Resolved(Normalized(raw), false)
    else
      var known := KnownPath(s, vnode, raw);
      if directory.None? && pid !in s.processes then Nowhere
      else
        var base := if directory.Some? then FdPath(s, pid, directory.value) else s.processes[pid].cwd;
        if base.None? then
          if known.Some? then Resolved(known.value, false) else Nowhere
        else if RestartedAtRoot(base.value, raw, env) then Resolved(Normalized(Under([], raw)), false)
        else
          var joined := Normalized(Under(base.value, raw));
          if known.None? then Resolved(joined, true)
          else if Confirms(s, joined, creating, env) then Resolved(joined, false)
          else Resolved(known.value, false)
  }

  // ---- Finished calls ----

  /** `t` is `s` but for what finished calls may change: working directories, descriptors, created and held files. */
  predicate FilesOnly(s: State, t: State) {
    t == s.(processes := t.processes, created := t.created, heldOpens := t.heldOpens)
  }

  function SetProcess(s: State, pid: Pid, process: Process): (t: State)
    ensures t == s.(processes := t.processes) && t.processes.Keys == s.processes.Keys + {pid}
  {
    s.(processes := s.processes[pid := process])
  }

  function SetDescriptor(s: State, pid: Pid, fd: int, descriptor: Descriptor): (t: State)
    ensures t == s.(processes := t.processes) && t.processes.Keys == s.processes.Keys
  {
    if pid in s.processes then
      SetProcess(s, pid, s.processes[pid].(fds := s.processes[pid].fds[fd := descriptor]))
    else s
  }

  function OpenFlags(call: Call): Word {
    if IsGuardedOpen(call.code) then call.args[3]
    else if IsOpenAt(call.code) then call.args[2]
    else call.args[1]
  }

  function DirectoryArgument(at: bool, fd: Word): Option<Word> {
    if at && AsI32(fd) != AT_FDCWD then Some(fd) else None
  }

  /** Where an open's file is, unless nothing says so. */
  function PlacedPath(s: State, pid: Pid, call: Call, env: Env): (path: Option<Text>)
    requires IsOpen(call.code)
    ensures path.None? ==> call.lookups != []
  {
    if call.lookups == [] then Some(ROOT)
    else
      var creating := HasFlag(OpenFlags(call), O_CREAT);
      var directory := DirectoryArgument(IsOpenAt(call.code), call.args[0]);
      match Resolve(s, pid, call.lookups[0].vnode, call.lookups[0].path, directory, creating, env)
      case Nowhere => None
      case Resolved(path, joined) => if !joined || Confirms(s, path, creating, env) then Some(path) else None
  }

  /** An open is followed up if it looked a path up, or is the one open that never does. */
  predicate OpenCounts(call: Call) {
    call.lookups != [] || HasFlag(OpenFlags(call), O_DIRECTORY)
  }

  function HoldOpen(pid: Pid, time: nat, call: Call, returned: Word): HeldOpen
    requires call.lookups != []
  {
    HeldOpen(time, pid, call.lookups[0].vnode, call.lookups[0].path, LinuxOpenFlags(OpenFlags(call)), AsI32(returned))
  }

  /** An open that nothing placed is held; its descriptor has no path. */
  function OpenUnplaced(s: State, pid: Pid, time: nat, call: Call, returned: Word): (t: State)
    requires call.lookups != []
    ensures FilesOnly(s, t) && t.processes.Keys == s.processes.Keys
  {
    SetDescriptor(if s.fileEvents then s.(heldOpens := s.heldOpens + [HoldOpen(pid, time, call, returned)]) else s,
                  pid, AsI32(returned), Descriptor(None, HasFlag(OpenFlags(call), O_CLOEXEC)))
  }

  function OpenPlaced(s: State, pid: Pid, call: Call, returned: Word, path: Text): (t: State)
    ensures FilesOnly(s, t) && t.processes.Keys == s.processes.Keys
  {
    var t := SetDescriptor(s, pid, AsI32(returned), Descriptor(Some(path), HasFlag(OpenFlags(call), O_CLOEXEC)));
    if HasFlag(OpenFlags(call), O_CREAT) then t.(created := t.created + {path}) else t
  }

  function FinishOpen(s: State, pid: Pid, time: nat, call: Call, returned: Word, env: Env): (step: Step)
    requires IsOpen(call.code)
    ensures FilesOnly(s, step.state) && step.state.processes.Keys == s.processes.Keys
    ensures HoldsOrSays(s, step, pid, time)
    ensures |step.out| <= 1 && forall i | 0 <= i < |step.out| :: IsFileMessage(step.out[i], pid, time)
  {
    if !OpenCounts(call) then Step(s, []) else
      match PlacedPath(s, pid, call, env)
      case None => Step(OpenUnplaced(s, pid, time, call, returned), [])
      case Some(path) =>
        Step(OpenPlaced(s, pid, call, returned, path),
             if s.fileEvents
             then [Message(time, pid, 0, Open(path, LinuxOpenFlags(OpenFlags(call)), AsI32(returned), false))] else [])
  }

  function FinishRename(s: State, pid: Pid, time: nat, call: Call, env: Env): (step: Step)
    ensures step.state == s
    ensures |step.out| <= 1 && forall i | 0 <= i < |step.out| :: IsFileMessage(step.out[i], pid, time)
  {
    if !s.fileEvents || |call.lookups| < 2 then Step(s, []) else
      var last := |call.lookups| - 1;
      var at := call.code != RENAME;
      var from := Resolve(s, pid, call.lookups[last - 1].vnode, call.lookups[last - 1].path,
                          DirectoryArgument(at, call.args[0]), false, env);
      var to := Resolve(s, pid, call.lookups[last].vnode, call.lookups[last].path,
                        DirectoryArgument(at, call.args[2]), true, env);
      Step(s, if from.Resolved? && to.Resolved? then [Message(time, pid, 0, Rename(from.path, to.path))] else [])
  }

  function FinishChdir(s: State, pid: Pid, call: Call, env: Env): (t: State)
    ensures t == s.(processes := t.processes) && t.processes.Keys == s.processes.Keys
  {
    if call.lookups != [] && pid in s.processes then
      var to := Resolve(s, pid, call.lookups[0].vnode, call.lookups[0].path, None, false, env);
      SetProcess(s, pid, s.processes[pid].(cwd := if to.Resolved? then Some(to.path) else None))
    else s
  }

  function FinishFchdir(s: State, pid: Pid, call: Call): (t: State)
    ensures t == s.(processes := t.processes) && t.processes.Keys == s.processes.Keys
  {
    if pid in s.processes then
      SetProcess(s, pid, s.processes[pid].(cwd := FdPath(s, pid, call.args[0])))
    else s
  }

  function FinishClose(s: State, pid: Pid, call: Call): (t: State)
    ensures t == s.(processes := t.processes) && t.processes.Keys == s.processes.Keys
  {
    if pid in s.processes then
      SetProcess(s, pid, s.processes[pid].(fds := s.processes[pid].fds - {AsI32(call.args[0])}))
    else s
  }

  function Duplicate(s: State, pid: Pid, from: Word, to: Word, closeOnExec: bool): (t: State)
    ensures t == s.(processes := t.processes) && t.processes.Keys == s.processes.Keys
  {
    SetDescriptor(s, pid, AsI32(to), Descriptor(FdPath(s, pid, from), closeOnExec))
  }

  function SetCloseOnExec(s: State, pid: Pid, fd: int, closeOnExec: bool): (t: State)
    ensures t == s.(processes := t.processes) && t.processes.Keys == s.processes.Keys
  {
    if pid in s.processes && fd in s.processes[pid].fds then
      SetDescriptor(s, pid, fd, s.processes[pid].fds[fd].(closeOnExec := closeOnExec))
    else s
  }

  function FinishFcntl(s: State, pid: Pid, call: Call, returned: Word): (t: State)
    ensures t == s.(processes := t.processes) && t.processes.Keys == s.processes.Keys
  {
    if call.args[1] == F_DUPFD then Duplicate(s, pid, call.args[0], returned, false)
    else if call.args[1] == F_DUPFD_CLOEXEC then Duplicate(s, pid, call.args[0], returned, true)
    else if call.args[1] == F_SETFD then SetCloseOnExec(s, pid, AsI32(call.args[0]), call.args[2] % 2 == 1)
    else s
  }

  function FinishCall(s: State, pid: Pid, time: nat, call: Call, returned: Word, env: Env): (step: Step)
    ensures FilesOnly(s, step.state) && step.state.processes.Keys == s.processes.Keys
    ensures HoldsOrSays(s, step, pid, time)
    ensures |step.out| <= 1 && forall i | 0 <= i < |step.out| :: IsFileMessage(step.out[i], pid, time)
  {
    var code := call.code;
    if IsOpen(code) then FinishOpen(s, pid, time, call, returned, env)
    else if IsRename(code) then FinishRename(s, pid, time, call, env)
    else Step(
      if code == CHDIR then FinishChdir(s, pid, call, env)
      else if code == FCHDIR then FinishFchdir(s, pid, call)
      else if IsClose(code) then FinishClose(s, pid, call)
      else if code == DUP then Duplicate(s, pid, call.args[0], returned, false)
      else if code == DUP2 then Duplicate(s, pid, call.args[0], call.args[1], false)
      else if IsFcntl(code) then FinishFcntl(s, pid, call, returned)
      else s, [])
  }

  // ---- One record ----

  function RegisterThread(s: State, r: Record): (t: State)
    ensures t == s.(threads := t.threads, newTasks := t.newTasks)
  {
    var child, pid := r.args[0], AsI32(r.args[1]);
    s.(threads := s.threads[child := pid],
       newTasks := if r.args[2] == 1 && Get(s.threads, r.thread) == Some(pid)
                   then s.newTasks[child := r.thread] else s.newTasks)
  }

  /** A thread of `parent` started the first thread of another process, `pid`. */
  function StartProcess(s: State, parent: Pid, pid: Pid, time: nat): (step: Step)
    ensures step.state == s.(processes := step.state.processes, heldExits := step.state.heldExits,
                             started := step.state.started)
  {
    if parent in s.processes then
      Step(s.(started := s.started + 1,
              heldExits := WithoutPid(s.heldExits, pid),
              processes := s.processes[pid := s.processes[parent]]),
           [Message(time, parent, 0, Fork(pid))])
    else if pid != s.root && parent != 0 then
      // Another process has this pid now.
      Step(s.(processes := s.processes - {pid}), [])
    else Step(s, [])
  }

  function NewThread(s: State, r: Record): (step: Step)
    ensures step.state == s.(threads := step.state.threads, newTasks := step.state.newTasks,
                             processes := step.state.processes, heldExits := step.state.heldExits,
                             started := step.state.started)
  {
    var pid := AsI32(r.args[1]);
    var parent := Get(s.threads, r.thread);
    var s1 := RegisterThread(s, r);
    if parent.Some? && parent.value != pid then StartProcess(s1, parent.value, pid, r.timestamp)
    else Step(s1, [])
  }

  function MarkNamed(pending: seq<Pending>, pid: Pid): (marked: seq<Pending>)
    ensures |marked| == |pending|
    ensures forall i | 0 <= i < |pending| ::
              marked[i] == if pending[i].pid == pid then pending[i].(named := true) else pending[i]
  {
    if pending == [] then []
    else [if pending[0].pid == pid then pending[0].(named := true) else pending[0]] + MarkNamed(pending[1..], pid)
  }

  function NameProgram(s: State, pid: Pid, args: Args): (t: State)
    ensures t == s.(names := t.names, argvRetries := t.argvRetries)
  {
    s.(names := s.names[pid := Decoded(args)], argvRetries := MarkNamed(s.argvRetries, pid))
  }

  /** A program that starts on a new task's thread retires the thread that task was created by. */
  function ReplaceAsker(s: State, thread: Tid): (t: State)
    ensures t == s.(started := t.started, replaced := t.replaced, newTasks := t.newTasks)
  {
    s.(started := s.started + 1,
       replaced := if thread in s.newTasks then s.replaced + {s.newTasks[thread]} else s.replaced,
       newTasks := s.newTasks - {thread})
  }

  /** The kernel reports the ends of replaced programs and of failed starts as exits too. */
  function ProcExit(s: State, pid: Pid, r: Record): (step: Step)
    ensures step.state == s.(replaced := step.state.replaced, newTasks := step.state.newTasks,
                             processes := step.state.processes, names := step.state.names,
                             heldExits := step.state.heldExits)
  {
    if r.thread in s.replaced then Step(s.(replaced := s.replaced - {r.thread}), [])
    else if r.thread in s.newTasks then Step(s.(newTasks := s.newTasks - {r.thread}), [])
    else BelieveExits(s.(heldExits := s.heldExits + [HeldExit(pid, r.timestamp, AsI32(r.args[1]))]))
  }

  function LookupOf(s: State, thread: Tid): Gathered {
    if thread in s.lookups then s.lookups[thread] else Gathered(0, [])
  }

  function Gather(entry: Gathered, r: Record): Gathered {
    if r.IsStart() then Gathered(r.args[0], r.args[1..]) else entry.(words := entry.words + r.args)
  }

  /** A lookup's last record: its path is known, and belongs to the thread's call. */
  function FinishLookup(s: State, thread: Tid, vnode: Word, path: Text): (t: State)
    ensures t == s.(lookups := t.lookups, vnodePaths := t.vnodePaths, calls := t.calls)
  {
    s.(lookups := s.lookups[thread := Gathered(0, [])],
       vnodePaths := if IsAbsolute(path) then s.vnodePaths[vnode := Normalized(path)] else s.vnodePaths,
       calls := if thread in s.calls
                then s.calls[thread := s.calls[thread].(lookups := s.calls[thread].lookups + [Lookup(vnode, path)])]
                else s.calls)
  }

  function LookupStep(s: State, r: Record): (t: State)
    ensures t == s.(lookups := t.lookups, vnodePaths := t.vnodePaths, calls := t.calls)
  {
    var entry := Gather(LookupOf(s, r.thread), r);
    if r.IsEnd() then FinishLookup(s, r.thread, entry.vnode, Decoded(entry.words))
    else s.(lookups := s.lookups[r.thread := entry])
  }

  function SyscallStep(s: State, pid: Pid, r: Record, env: Env): (step: Step)
    ensures FilesOnly(s.(calls := step.state.calls), step.state) && step.state.processes.Keys == s.processes.Keys
    ensures step.state.calls - {r.thread} == s.calls - {r.thread}
    ensures HoldsOrSays(s, step, pid, r.timestamp)
    ensures |step.out| <= 1 && forall i | 0 <= i < |step.out| :: IsFileMessage(step.out[i], pid, r.timestamp)
  {
    if r.IsStart() then Step(s.(calls := s.calls[r.thread := Call(r.Code(), r.args, [])]), [])
    else if !r.IsEnd() || r.thread !in s.calls then Step(s, [])
    else
      var call := s.calls[r.thread];
      var s1 := s.(calls := s.calls - {r.thread});
      if call.code != r.Code() || r.args[0] != 0 then Step(s1, [])
      else FinishCall(s1, pid, r.timestamp, call, r.args[1], env)
  }

  function ProcessStep(s: State, pid: Pid, r: Record, env: Env): (step: Step)
    ensures step.state.latest == s.latest && step.state.queued == s.queued && SameSetup(s, step.state)
    ensures step.state.threads == s.threads
  {
    var code := r.Code();
    if code == STRING_EXEC then Step(NameProgram(s, pid, r.args), [])
    else if code == DATA_EXEC then ExecStep(ReplaceAsker(s, r.thread), pid, r.timestamp, r.args[2], env)
    else if code == PROC_EXIT && r.IsEnd() then ProcExit(s, pid, r)
    else if code == VFS_LOOKUP then Step(LookupStep(s, r), [])
    else if IsFollowed(code) then SyscallStep(s, pid, r, env)
    else Step(s, [])
  }

  /** A record of a thread of a followed process. */
  predicate IsFollowedThread(s: State, thread: Tid) {
    thread in s.threads && s.threads[thread] in s.processes
  }

  function Noticed(s: State, r: Record): State {
    s.(latest := Max(s.latest, r.timestamp))
  }

  function Interpret(s: State, r: Record, env: Env): (step: Step)
    ensures step.state.latest == Max(s.latest, r.timestamp) && step.state.queued == s.queued
    ensures SameSetup(s, step.state)
    ensures r.Code() != NEWTHREAD ==> step.state.threads == s.threads
  {
    var s1 := Noticed(s, r);
    if r.Code() == NEWTHREAD then NewThread(s1, r)
    else if r.Code() == LOST_EVENTS then Step(s1.(dropped := s1.dropped + 1), [])
    else if !IsFollowedThread(s1, r.thread) then Step(s1, [])
    else ProcessStep(s1, s1.threads[r.thread], r, env)
  }

  // ---- The reordering queue ----

  /** The time of the earliest program still unread. */
  function Earliest(pending: seq<Pending>): (time: nat)
    requires pending != []
    ensures forall i | 0 <= i < |pending| :: time <= pending[i].time
    ensures exists i | 0 <= i < |pending| :: time == pending[i].time
  {
    if |pending| == 1 then pending[0].time
    else
      var rest := Earliest(pending[1..]);
      assert forall i | 1 <= i < |pending| :: pending[i] == pending[1..][i - 1];
      assert exists i | 1 <= i < |pending| :: rest == pending[i].time by {
        var i :| 0 <= i < |pending[1..]| && rest == pending[1..][i].time;
        assert rest == pending[i + 1].time;
      }
      if pending[0].time < rest then pending[0].time else rest
  }

  /** Passes on what no earlier message can still precede, and queues the rest. */
  function Release(s: State, batch: seq<Message>): (step: Step)
    ensures step.state == s.(queued := step.state.queued)
  {
    var sorted := SortByTime(batch);
    var ready := if s.argvRetries == [] then |sorted| else ReadyCount(sorted, Earliest(s.argvRetries));
    Step(s.(queued := sorted[ready..]), sorted[..ready])
  }

  /** A step with an empty queue, whose messages join the queue before its release. */
  function InOrder(s: State, step: Step): Step {
    Release(step.state, s.queued + step.out)
  }

  function TickStep(s: State, env: Env): (step: Step)
    ensures step.state.latest == s.latest && step.state.queued == s.queued && SameSetup(s, step.state)
  {
    var retried := RetryCommandLines(s, env, false);
    var believed := BelieveExits(retried.state);
    Step(believed.state, retried.out + believed.out)
  }

  function OpenMessage(s: State, open: HeldOpen): Message {
    var known := KnownPath(s, open.vnode, open.raw);
    Message(open.time, open.pid, 0,
            Open(if known.Some? then known.value else open.raw, open.flags, open.fd, known.None?))
  }

  function OpenMessages(s: State, opens: seq<HeldOpen>): (ms: seq<Message>)
    ensures |ms| == |opens|
    ensures forall i | 0 <= i < |ms| :: ms[i] == OpenMessage(s, opens[i])
  {
    if opens == [] then [] else OpenMessages(s, opens[..|opens| - 1]) + [OpenMessage(s, opens[|opens| - 1])]
  }

  function EmitExits(s: State): (step: Step)
    ensures step.state == s.(processes := step.state.processes, names := step.state.names,
                             heldExits := step.state.heldExits)
  {
    Step(EndProcesses(s, s.heldExits).(heldExits := []), ExitMessages(s.heldExits))
  }

  function FlushStep(s: State, env: Env): Step {
    var opens := OpenMessages(s, s.heldOpens);
    var retried := RetryCommandLines(s.(heldOpens := []), env, true);
    var ended := EmitExits(retried.state);
    Step(ended.state, opens + retried.out + ended.out)
  }

  function Dequeued(s: State): State {
    s.(queued := [])
  }

  function Observe(s: State, r: Record, env: Env): Step {
    InOrder(s, Interpret(Dequeued(s), r, env))
  }

  function Tick(s: State, env: Env): Step {
    InOrder(s, TickStep(Dequeued(s), env))
  }

  function Flush(s: State, env: Env): Step {
    InOrder(s, FlushStep(Dequeued(s), env))
  }

  // ---- Whole runs ----

  datatype Input = Seen(record: Record, env: Env) | Ticked(env: Env)

  function Next(s: State, input: Input): Step {
    match input
    case Seen(r, env) => Observe(s, r, env)
    case Ticked(env) => Tick(s, env)
  }

  /** Everything delivered by a run of records and ticks, and the state it leaves. */
  function Run(s: State, inputs: seq<Input>): Step {
    if inputs == [] then Step(s, []) else
      var before := Run(s, inputs[..|inputs| - 1]);
      var last := Next(before.state, inputs[|inputs| - 1]);
      Step(last.state, before.out + last.out)
  }
}
