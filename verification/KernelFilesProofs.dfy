/** The collector's tables hold the answers of `KernelFiles`, and a recording reports just its opens and renames. */
module KernelFilesProofs {
  import opened Basics
  import opened Messages
  import opened Paths
  import opened Fragments
  import opened CollectorModel
  import opened FileView
  import opened DeliveryOrder
  import opened Reassembly
  import opened Ledger
  import opened KernelFiles

  // ---- Names ----

  lemma {:induction false} FirstIs(path: Text)
    ensures FirstComponent(path) == FirstName(path)
  {
    if path != [] && path[0] != SLASH {
      FirstIs(path[1..]);
    }
  }

  lemma {:induction false} FinalBehind(front: Text, name: Text)
    requires SLASH !in name
    ensures FinalName(Under(front, name)) == name
  {
    if name != [] {
      var n := |name| - 1;
      FinalBehind(front, name[..n]);
      assert Under(front, name)[..|Under(front, name)| - 1] == Under(front, name[..n]);
    }
  }

  lemma {:induction false} FinalAlone(name: Text)
    requires SLASH !in name
    ensures FinalName(name) == name
  {
    if name != [] {
      FinalAlone(name[..|name| - 1]);
    }
  }

  lemma FinalIs(path: Text)
    ensures LastComponent(path) == FinalName(path)
    ensures Holder(path) == if ParentDirectory(path) == [] then ROOT else ParentDirectory(path)
  {
    if SLASH in path {
      var i := LastSlash(path);
      var front, name := path[..i], path[i + 1..];
      assert path == Under(front, name);
      SplitUnder(front, name);
      SplitName(name);
      FinalBehind(front, name);
      assert path[..i + 1][..i] == front;
    } else {
      SplitName(path);
      FinalAlone(path);
    }
  }

  lemma RestartIs(directory: Text, raw: Text, env: Env)
    requires !IsAbsolute(raw)
    ensures RestartedAtRoot(directory, raw, env) <==> WentOnFromRoot(directory, raw, env.present)
  {
    hide FirstComponent;
    FirstIs(raw);
    assert Under([], FirstName(raw)) == [SLASH] + FirstName(raw);
  }

  // ---- Where a lookup ended ----

  function PathOf(at: Resolution): Option<Text> {
    if at.Resolved? then Some(at.path) else None
  }

  function BaseOf(t: State, pid: Pid, directory: Option<Word>): Option<Text>
    requires pid in t.processes
  {
    if directory.Some? then FdPath(t, pid, directory.value) else t.processes[pid].cwd
  }

  lemma ConfirmsIs(t: State, path: Text, creating: bool, env: Env)
    requires path != []
    ensures Confirms(t, path, creating, env) <==> IsThere(path, creating, t.created, env.present)
  {
    hide ParentDirectory, Holder;
    FinalIs(path);
  }

  lemma LocatedIs(t: State, pid: Pid, lookup: Lookup, directory: Option<Word>, creating: bool, env: Env)
    requires pid in t.processes
    ensures var at := Resolve(t, pid, lookup.vnode, lookup.path, directory, creating, env);
            var base, known := BaseOf(t, pid, directory), KnownPath(t, lookup.vnode, lookup.path);
            && Located(base, known, lookup.path, creating, false, t.created, env.present) == PathOf(at)
            && Located(base, known, lookup.path, creating, true, t.created, env.present)
            == if at.Resolved? && at.joined && !Confirms(t, at.path, creating, env) then None else PathOf(at)
  {
    hide Normalized, RestartedAtRoot, WentOnFromRoot, Confirms, IsThere, FdPath, KnownPath;
    var raw := lookup.path;
    var base := BaseOf(t, pid, directory);
    if !IsAbsolute(raw) && base.Some? {
      RestartIs(base.value, raw, env);
      assert Under([], raw) == [SLASH] + raw;
      var joined := Normalized(Under(base.value, raw));
      NormalizedIsCanonical(Under(base.value, raw));
      ConfirmsIs(t, joined, creating, env);
    }
  }

  // ---- What the tables hold ----

  ghost predicate ProcessAgrees(process: Process, s: State, inputs: seq<Input>, pid: Pid) {
    && process.cwd == DirectoryOf(s, inputs, pid)
    && forall fd :: Get(process.fds, fd) == DescriptorOf(s, inputs, pid, fd)
  }

  predicate HeldAgrees(held: seq<HeldOpen>, opens: seq<Done>)
    requires forall i | 0 <= i < |opens| :: opens[i].lookups != []
  {
    && |held| == |opens|
    && forall i | 0 <= i < |held| :: held[i] == HeldAs(opens[i])
  }

  function HeldAs(d: Done): HeldOpen
    requires d.lookups != []
  {
    HeldOpen(d.time, d.pid, d.lookups[0].vnode, d.lookups[0].path, LinuxOpenFlags(FlagsPassed(d)), AsI32(d.returned))
  }

  ghost predicate ProcessesAgree(t: State, s: State, inputs: seq<Input>) {
    forall pid | pid in t.processes :: ProcessAgrees(t.processes[pid], s, inputs, pid)
  }

  ghost predicate VnodesAgree(t: State, s: State, inputs: seq<Input>) {
    forall vnode :: Get(t.vnodePaths, vnode) == Remembered(s, inputs, vnode)
  }

  ghost predicate FilesAgree(t: State, s: State, inputs: seq<Input>) {
    t.created == MadeBy(s, inputs) && HeldAgrees(t.heldOpens, Unplaced(s, inputs)) && t.fileEvents == s.fileEvents
  }

  /** Each table of `t` answers as the records do. */
  ghost predicate Agrees(t: State, s: State, inputs: seq<Input>) {
    ProcessesAgree(t, s, inputs) && VnodesAgree(t, s, inputs) && FilesAgree(t, s, inputs)
  }

  lemma KnownIs(t: State, s: State, inputs: seq<Input>, lookup: Lookup)
    requires VnodesAgree(t, s, inputs)
    ensures KnownPath(t, lookup.vnode, lookup.path) == KnownAs(s, inputs, lookup)
  {
    hide LastComponent, FinalName, Holder, ParentDirectory, Remembered;
    assert Get(t.vnodePaths, lookup.vnode) == Remembered(s, inputs, lookup.vnode);
    FinalIs(lookup.path);
    if lookup.vnode in t.vnodePaths {
      FinalIs(t.vnodePaths[lookup.vnode]);
    }
  }

  lemma OpenOnIs(t: State, s: State, inputs: seq<Input>, pid: Pid, fd: Word)
    requires ProcessesAgree(t, s, inputs) && pid in t.processes
    ensures FdPath(t, pid, fd) == OpenOn(s, inputs, pid, AsI32(fd))
  {
    hide DescriptorOf, DirectoryOf, AsI32;
    assert ProcessAgrees(t.processes[pid], s, inputs, pid);
    assert Get(t.processes[pid].fds, AsI32(fd)) == DescriptorOf(s, inputs, pid, AsI32(fd));
  }

  ghost predicate IsCall(d: Done, call: Call, returned: Word, env: Env) {
    d.code == call.code && d.args == call.args && d.lookups == call.lookups && d.returned == returned
    && d.present == env.present
  }

  function AsDescriptor(word: Option<Word>): Option<int> {
    if word.Some? then Some(AsI32(word.value)) else None
  }

  lemma LocatedAtIs(t: State, s: State, inputs: seq<Input>, d: Done, i: nat, at: Option<Word>, creating: bool, env: Env)
    requires Agrees(t, s, inputs) && d.pid in t.processes && i < |d.lookups| && d.present == env.present
    ensures var lookup := d.lookups[i];
            var where := Resolve(t, d.pid, lookup.vnode, lookup.path, at, creating, env);
            && LocatedAt(s, inputs, d, i, AsDescriptor(at), creating, false) == PathOf(where)
            && LocatedAt(s, inputs, d, i, AsDescriptor(at), creating, true)
            == if where.Resolved? && where.joined && !Confirms(t, where.path, creating, env) then None
               else PathOf(where)
  {
    hide Located, Resolve, Confirms, DirectoryOf, OpenOn, MadeBy, Remembered, FdPath, AsI32, KnownAs, KnownPath,
         VnodesAgree, Unplaced, HeldAgrees, Get;
    var lookup := d.lookups[i];
    LocatedIs(t, d.pid, lookup, at, creating, env);
    KnownIs(t, s, inputs, lookup);
    assert ProcessAgrees(t.processes[d.pid], s, inputs, d.pid);
    if at.Some? {
      OpenOnIs(t, s, inputs, d.pid, at.value);
    }
  }

  // ---- Arguments ----

  lemma ArgumentsAre(d: Done, call: Call, returned: Word, env: Env)
    requires IsCall(d, call, returned, env)
    ensures d.code in OPENS <==> IsOpen(call.code)
    ensures d.code in RENAMES <==> IsRename(call.code)
    ensures d.code in CLOSES <==> IsClose(call.code)
    ensures d.code in FCNTLS <==> IsFcntl(call.code)
    ensures IsOpen(call.code) ==> FlagsPassed(d) == OpenFlags(call)
    ensures IsOpen(call.code) ==>
              DirectoryPassed(d, 0) == AsDescriptor(DirectoryArgument(IsOpenAt(call.code), call.args[0]))
    ensures IsRename(call.code) ==>
              && DirectoryPassed(d, 0) == AsDescriptor(DirectoryArgument(call.code != RENAME, call.args[0]))
              && DirectoryPassed(d, 2) == AsDescriptor(DirectoryArgument(call.code != RENAME, call.args[2]))
  {
  }

  lemma KindsDiffer(code: nat)
    ensures code in OPENS ==> code !in RENAMES && code !in CLOSES && code !in FCNTLS
    ensures code in OPENS ==> code != CHDIR && code != FCHDIR && code != DUP && code != DUP2
    ensures code in RENAMES ==> code !in CLOSES && code !in FCNTLS
    ensures code in RENAMES ==> code != CHDIR && code != FCHDIR && code != DUP && code != DUP2
    ensures code in CLOSES ==> code !in FCNTLS && code != CHDIR && code != FCHDIR && code != DUP && code != DUP2
    ensures code in FCNTLS ==> code != CHDIR && code != FCHDIR && code != DUP && code != DUP2
  {
  }

  // ---- What an ended call changes ----

  /** `d` is the call that the last record ended, and `t` the state before that. */
  ghost predicate Ends(t: State, s: State, inputs: seq<Input>, d: Done) {
    && inputs != [] && Last(s, inputs) == Ended(d)
    && Agrees(t, s, inputs[..|inputs| - 1]) && d.pid in t.processes
  }

  lemma OthersAsBefore(s: State, inputs: seq<Input>, d: Done, pid: Pid, fd: int)
    requires inputs != [] && Last(s, inputs) == Ended(d) && pid != d.pid
    ensures var before := inputs[..|inputs| - 1];
            && DirectoryOf(s, inputs, pid) == DirectoryOf(s, before, pid)
            && DescriptorOf(s, inputs, pid, fd) == DescriptorOf(s, before, pid, fd)
  {
    hide Last, OpenedAt, LocatedAt, OpenOn;
  }

  lemma VnodesAsBefore(s: State, inputs: seq<Input>, d: Done, vnode: Word)
    requires inputs != [] && Last(s, inputs) == Ended(d)
    ensures Remembered(s, inputs, vnode) == Remembered(s, inputs[..|inputs| - 1], vnode)
  {
    hide Last;
  }

  lemma FilesAsBefore(s: State, inputs: seq<Input>, d: Done)
    requires inputs != [] && Last(s, inputs) == Ended(d) && !IsOpening(d)
    ensures var before := inputs[..|inputs| - 1];
            MadeBy(s, inputs) == MadeBy(s, before) && Unplaced(s, inputs) == Unplaced(s, before)
  {
    hide Last, OpenedAt, IsOpening;
  }

  /** Only the caller's own process is left to look at. */
  lemma OnlyItsOwn(t: State, s: State, inputs: seq<Input>, d: Done, t': State)
    requires Ends(t, s, inputs, d)
    requires OthersKept(t, t', d.pid) && t'.vnodePaths == t.vnodePaths
    requires FilesAgree(t', s, inputs)
    requires ProcessAgrees(t'.processes[d.pid], s, inputs, d.pid)
    ensures Agrees(t', s, inputs)
  {
    hide Last, DirectoryOf, DescriptorOf, Remembered, FilesAgree;
    var before := inputs[..|inputs| - 1];
    forall pid | pid in t'.processes ensures ProcessAgrees(t'.processes[pid], s, inputs, pid) {
      if pid != d.pid {
        assert ProcessAgrees(t.processes[pid], s, before, pid);
        forall fd ensures Get(t'.processes[pid].fds, fd) == DescriptorOf(s, inputs, pid, fd) {
          OthersAsBefore(s, inputs, d, pid, fd);
        }
        OthersAsBefore(s, inputs, d, pid, 0);
      }
    }
    forall vnode ensures Get(t'.vnodePaths, vnode) == Remembered(s, inputs, vnode) {
      VnodesAsBefore(s, inputs, d, vnode);
    }
  }

  /** A call that makes no file leaves the files made and held. */
  lemma NoFileMade(t: State, s: State, inputs: seq<Input>, d: Done, t': State)
    requires Ends(t, s, inputs, d) && !IsOpening(d)
    requires t'.created == t.created && t'.heldOpens == t.heldOpens && t'.fileEvents == t.fileEvents
    ensures FilesAgree(t', s, inputs)
  {
    hide Last, MadeBy, Unplaced, IsOpening;
    FilesAsBefore(s, inputs, d);
  }

  lemma DirectoryAfter(s: State, inputs: seq<Input>, d: Done)
    requires inputs != [] && Last(s, inputs) == Ended(d)
    ensures var before := inputs[..|inputs| - 1];
            DirectoryOf(s, inputs, d.pid)
            == if d.code == CHDIR && d.lookups != [] then LocatedAt(s, before, d, 0, None, false, false)
               else if d.code == FCHDIR then OpenOn(s, before, d.pid, AsI32(d.args[0]))
               else DirectoryOf(s, before, d.pid)
  {
    hide Last, LocatedAt, OpenOn, AsI32;
  }

  lemma DescriptorAfter(s: State, inputs: seq<Input>, d: Done, fd: int)
    requires inputs != [] && Last(s, inputs) == Ended(d)
    ensures var before := inputs[..|inputs| - 1];
            DescriptorOf(s, inputs, d.pid, fd)
            == if IsOpening(d) && AsI32(d.returned) == fd then
                 Some(Descriptor(OpenedAt(s, before, d), HasFlag(FlagsPassed(d), O_CLOEXEC)))
               else if d.code in CLOSES && AsI32(d.args[0]) == fd then None
               else if IsDup(d) && DupMade(d) == fd then
                 Some(Descriptor(OpenOn(s, before, d.pid, AsI32(d.args[0])),
                                 d.code in FCNTLS && d.args[1] == F_DUPFD_CLOEXEC))
               else if d.code in FCNTLS && d.args[1] == F_SETFD && AsI32(d.args[0]) == fd then
                 var held := DescriptorOf(s, before, d.pid, fd);
                 if held.Some? then Some(held.value.(closeOnExec := d.args[2] % 2 == 1)) else None
               else DescriptorOf(s, before, d.pid, fd)
  {
    hide Last, OpenedAt, OpenOn, AsI32, HasFlag, FlagsPassed, IsOpening, IsDup, DupMade;
  }

  // ---- Opens ----

  lemma OpenedIs(t: State, s: State, inputs: seq<Input>, d: Done, call: Call, env: Env)
    requires Agrees(t, s, inputs) && d.pid in t.processes && IsCall(d, call, d.returned, env) && IsOpen(call.code)
    ensures OpenedAt(s, inputs, d) == PlacedPath(t, d.pid, call, env)
  {
    hide Resolve, Confirms, Agrees, LocatedAt, OpenFlags, FlagsPassed, DirectoryArgument, DirectoryPassed, HasFlag,
         IsOpen, IsOpenAt, AsDescriptor;
    ArgumentsAre(d, call, d.returned, env);
    if call.lookups != [] {
      LocatedAtIs(t, s, inputs, d, 0, DirectoryArgument(IsOpenAt(call.code), call.args[0]),
                  HasFlag(OpenFlags(call), O_CREAT), env);
    }
  }

  /** What an open leaves, when its file is known to be `at` or not known. */
  ghost predicate Opened(t: State, d: Done, at: Option<Text>, u: State)
    requires d.pid in t.processes
  {
    && u.processes == t.processes[d.pid := t.processes[d.pid].(
         fds := t.processes[d.pid].fds[AsI32(d.returned) := Descriptor(at, HasFlag(FlagsPassed(d), O_CLOEXEC))])]
    && u.created == t.created + (if at.Some? && HasFlag(FlagsPassed(d), O_CREAT) then {at.value} else {})
    && (at.None? ==> d.lookups != [])
    && u.heldOpens == t.heldOpens + (if at.None? && t.fileEvents then [HeldAs(d)] else [])
    && u.vnodePaths == t.vnodePaths && u.fileEvents == t.fileEvents
  }

  function OpenSaid(t: State, d: Done, at: Option<Text>): seq<Message> {
    if at.Some? && t.fileEvents then
      [Message(d.time, d.pid, 0, Open(at.value, LinuxOpenFlags(FlagsPassed(d)), AsI32(d.returned), false))]
    else []
  }

  lemma FlagsAre(d: Done, call: Call, env: Env)
    requires IsCall(d, call, d.returned, env) && IsOpen(call.code)
    ensures FlagsPassed(d) == OpenFlags(call)
  {
    ArgumentsAre(d, call, d.returned, env);
  }

  lemma PlacedOpens(t: State, d: Done, call: Call, env: Env, path: Text)
    requires IsCall(d, call, d.returned, env) && IsOpen(call.code) && d.pid in t.processes
    ensures Opened(t, d, Some(path), OpenPlaced(t, d.pid, call, d.returned, path))
  {
    hide HasFlag, AsI32, FlagsPassed, OpenFlags, IsOpen;
    FlagsAre(d, call, env);
    assert t.created + {} == t.created && t.heldOpens + [] == t.heldOpens;
  }

  lemma UnplacedIsHeld(t: State, d: Done, call: Call, env: Env)
    requires IsCall(d, call, d.returned, env) && IsOpen(call.code) && d.pid in t.processes && call.lookups != []
    ensures Opened(t, d, None, OpenUnplaced(t, d.pid, d.time, call, d.returned))
  {
    hide HasFlag, AsI32, FlagsPassed, OpenFlags, IsOpen, LinuxOpenFlags;
    FlagsAre(d, call, env);
    assert t.created + {} == t.created && t.heldOpens + [] == t.heldOpens;
  }

  lemma OpenSays(t: State, d: Done, call: Call, env: Env, at: Option<Text>)
    requires IsCall(d, call, d.returned, env) && IsOpen(call.code) && d.pid in t.processes
    requires OpenCounts(call) && at == PlacedPath(t, d.pid, call, env)
    ensures var step := FinishOpen(t, d.pid, d.time, call, d.returned, env);
            Opened(t, d, at, step.state) && step.out == OpenSaid(t, d, at)
  {
    hide PlacedPath, LinuxOpenFlags, HasFlag, AsI32, FlagsPassed, OpenFlags, IsOpen, Opened, OpenPlaced, OpenUnplaced,
         OpenCounts;
    FlagsAre(d, call, env);
    match at {
      case Some(path) => PlacedOpens(t, d, call, env, path);
      case None => UnplacedIsHeld(t, d, call, env);
    }
  }

  lemma OpenEnds(t: State, s: State, inputs: seq<Input>, d: Done, call: Call, env: Env)
    requires Ends(t, s, inputs, d) && IsCall(d, call, d.returned, env) && IsOpen(call.code)
    ensures var step := FinishOpen(t, d.pid, d.time, call, d.returned, env);
            && Agrees(step.state, s, inputs)
            && step.out == if s.fileEvents then FileFact(s, inputs[..|inputs| - 1], d) else []
  {
    hide FinishOpen, OpenedAt, PlacedPath, OpenFlags, FlagsPassed, HasFlag, LinuxOpenFlags, AsI32, IsOpen, Last,
         DirectoryOf, DescriptorOf, MadeBy, Unplaced, HeldAs, Remembered;
    var before := inputs[..|inputs| - 1];
    var step := FinishOpen(t, d.pid, d.time, call, d.returned, env);
    ArgumentsAre(d, call, d.returned, env);
    KindsDiffer(d.code);
    OpenedIs(t, s, before, d, call, env);
    assert OpenCounts(call) <==> IsOpening(d);
    if IsOpening(d) {
      OpenSays(t, d, call, env, OpenedAt(s, before, d));
      OpenAgrees(t, s, inputs, d, step.state);
    } else {
      OpenIgnored(t, d, call, env);
      NothingEnds(t, s, inputs, d);
    }
  }

  lemma OpenIgnored(t: State, d: Done, call: Call, env: Env)
    requires !OpenCounts(call) && IsOpen(call.code)
    ensures FinishOpen(t, d.pid, d.time, call, d.returned, env) == Step(t, [])
  {
  }

  /** The descriptor, the file made and the open held are those the records tell of. */
  lemma OpenAgrees(t: State, s: State, inputs: seq<Input>, d: Done, u: State)
    requires Ends(t, s, inputs, d) && IsOpening(d)
    requires Opened(t, d, OpenedAt(s, inputs[..|inputs| - 1], d), u)
    ensures Agrees(u, s, inputs)
  {
    hide OpenedAt, FlagsPassed, HasFlag, AsI32, Last, DirectoryOf, DescriptorOf, HeldAs, MadeBy, Unplaced, Remembered;
    var before := inputs[..|inputs| - 1];
    KindsDiffer(d.code);
    OpenFiles(s, inputs, d);
    assert ProcessAgrees(t.processes[d.pid], s, before, d.pid);
    forall fd ensures Get(u.processes[d.pid].fds, fd) == DescriptorOf(s, inputs, d.pid, fd) {
      DescriptorAfter(s, inputs, d, fd);
      assert Get(t.processes[d.pid].fds, fd) == DescriptorOf(s, before, d.pid, fd);
    }
    DirectoryAfter(s, inputs, d);
    OnlyItsOwn(t, s, inputs, d, u);
  }

  lemma OpenFiles(s: State, inputs: seq<Input>, d: Done)
    requires inputs != [] && Last(s, inputs) == Ended(d) && IsOpening(d)
    ensures var before := inputs[..|inputs| - 1];
            var at := OpenedAt(s, before, d);
            && MadeBy(s, inputs)
            == MadeBy(s, before) + (if at.Some? && HasFlag(FlagsPassed(d), O_CREAT) then {at.value} else {})
            && Unplaced(s, inputs) == Unplaced(s, before) + (if at.None? && s.fileEvents then [d] else [])
  {
    hide OpenedAt, FlagsPassed, HasFlag, Last, IsOpening;
    var before := inputs[..|inputs| - 1];
    assert MadeBy(s, before) + {} == MadeBy(s, before);
    assert Unplaced(s, before) + [] == Unplaced(s, before);
  }

  /** A call that changes nothing. */
  lemma NothingEnds(t: State, s: State, inputs: seq<Input>, d: Done)
    requires Ends(t, s, inputs, d) && !IsOpening(d)
    requires d.code != CHDIR || d.lookups == []
    requires d.code != FCHDIR && d.code !in CLOSES && !IsDup(d)
    requires !(d.code in FCNTLS && d.args[1] == F_SETFD)
    ensures Agrees(t, s, inputs)
  {
    hide Last, DirectoryOf, DescriptorOf, MadeBy, Unplaced, AsI32, Remembered, HeldAgrees;
    var before := inputs[..|inputs| - 1];
    assert ProcessAgrees(t.processes[d.pid], s, before, d.pid);
    DirectoryAfter(s, inputs, d);
    forall fd ensures Get(t.processes[d.pid].fds, fd) == DescriptorOf(s, inputs, d.pid, fd) {
      DescriptorAfter(s, inputs, d, fd);
      assert Get(t.processes[d.pid].fds, fd) == DescriptorOf(s, before, d.pid, fd);
    }
    NoFileMade(t, s, inputs, d, t);
    NothingChanged(t, d.pid);
    OnlyItsOwn(t, s, inputs, d, t);
  }

  // ---- Renames, directories and descriptors ----

  lemma RenameEnds(t: State, s: State, inputs: seq<Input>, d: Done, call: Call, env: Env)
    requires Ends(t, s, inputs, d) && IsCall(d, call, d.returned, env) && IsRename(call.code)
    ensures var step := FinishRename(t, d.pid, d.time, call, env);
            && Agrees(step.state, s, inputs)
            && step.out == if s.fileEvents then FileFact(s, inputs[..|inputs| - 1], d) else []
  {
    hide Last, Resolve, IsRename, DirectoryArgument, DirectoryPassed, LocatedAt, ProcessesAgree, VnodesAgree,
         HeldAgrees;
    var before := inputs[..|inputs| - 1];
    ArgumentsAre(d, call, d.returned, env);
    KindsDiffer(d.code);
    assert !IsOpening(d) && !IsDup(d);
    NothingEnds(t, s, inputs, d);
    if IsMove(d) {
      var n := |d.lookups| - 1;
      LocatedAtIs(t, s, before, d, n - 1, DirectoryArgument(call.code != RENAME, call.args[0]), false, env);
      LocatedAtIs(t, s, before, d, n, DirectoryArgument(call.code != RENAME, call.args[2]), true, env);
    }
  }

  /** A call that sets the working directory of its process. */
  lemma DirectoryMoves(t: State, s: State, inputs: seq<Input>, d: Done, u: State)
    requires Ends(t, s, inputs, d) && !IsOpening(d) && (d.code == CHDIR || d.code == FCHDIR)
    requires u == SetProcess(t, d.pid, t.processes[d.pid].(cwd := DirectoryOf(s, inputs, d.pid)))
    ensures Agrees(u, s, inputs)
  {
    hide Last, DirectoryOf, DescriptorOf, MadeBy, Unplaced, AsI32, Remembered, HeldAgrees;
    var before := inputs[..|inputs| - 1];
    KindsDiffer(d.code);
    assert ProcessAgrees(t.processes[d.pid], s, before, d.pid);
    forall fd ensures Get(t.processes[d.pid].fds, fd) == DescriptorOf(s, inputs, d.pid, fd) {
      DescriptorAfter(s, inputs, d, fd);
      assert Get(t.processes[d.pid].fds, fd) == DescriptorOf(s, before, d.pid, fd);
    }
    NoFileMade(t, s, inputs, d, u);
    OnlyItsOwn(t, s, inputs, d, u);
  }

  lemma ChdirEnds(t: State, s: State, inputs: seq<Input>, d: Done, call: Call, env: Env)
    requires Ends(t, s, inputs, d) && IsCall(d, call, d.returned, env) && call.code == CHDIR
    ensures Agrees(FinishChdir(t, d.pid, call, env), s, inputs)
  {
    hide Last, Resolve, DirectoryOf, LocatedAt, SetProcess, ProcessesAgree, VnodesAgree, HeldAgrees;
    KindsDiffer(d.code);
    assert !IsOpening(d) && !IsDup(d) && d.code !in FCNTLS && d.code !in CLOSES;
    if d.lookups == [] {
      NothingEnds(t, s, inputs, d);
    } else {
      LocatedAtIs(t, s, inputs[..|inputs| - 1], d, 0, None, false, env);
      DirectoryAfter(s, inputs, d);
      DirectoryMoves(t, s, inputs, d, FinishChdir(t, d.pid, call, env));
    }
  }

  lemma FchdirEnds(t: State, s: State, inputs: seq<Input>, d: Done, call: Call, env: Env)
    requires Ends(t, s, inputs, d) && IsCall(d, call, d.returned, env) && call.code == FCHDIR
    ensures Agrees(FinishFchdir(t, d.pid, call), s, inputs)
  {
    hide Last, DirectoryOf, OpenOn, FdPath, SetProcess, ProcessesAgree, VnodesAgree, HeldAgrees, AsI32;
    KindsDiffer(d.code);
    assert !IsOpening(d);
    OpenOnIs(t, s, inputs[..|inputs| - 1], d.pid, d.args[0]);
    DirectoryAfter(s, inputs, d);
    DirectoryMoves(t, s, inputs, d, FinishFchdir(t, d.pid, call));
  }

  /** A call that sets the descriptors of its process. */
  lemma DescriptorsMove(t: State, s: State, inputs: seq<Input>, d: Done, fds: map<int, Descriptor>)
    requires Ends(t, s, inputs, d) && !IsOpening(d) && d.code != CHDIR && d.code != FCHDIR
    requires forall fd :: Get(fds, fd) == DescriptorOf(s, inputs, d.pid, fd)
    ensures Agrees(SetProcess(t, d.pid, t.processes[d.pid].(fds := fds)), s, inputs)
  {
    hide Last, DirectoryOf, DescriptorOf, MadeBy, Unplaced, AsI32, Remembered, HeldAgrees;
    var u := SetProcess(t, d.pid, t.processes[d.pid].(fds := fds));
    assert ProcessAgrees(t.processes[d.pid], s, inputs[..|inputs| - 1], d.pid);
    DirectoryAfter(s, inputs, d);
    NoFileMade(t, s, inputs, d, u);
    OnlyItsOwn(t, s, inputs, d, u);
  }

  lemma CloseEnds(t: State, s: State, inputs: seq<Input>, d: Done, call: Call, env: Env)
    requires Ends(t, s, inputs, d) && IsCall(d, call, d.returned, env) && IsClose(call.code)
    ensures Agrees(FinishClose(t, d.pid, call), s, inputs)
  {
    hide Last, DirectoryOf, DescriptorOf, MadeBy, Unplaced, AsI32, VnodesAgree, HeldAgrees, SetProcess, IsClose;
    ArgumentsAre(d, call, d.returned, env);
    KindsDiffer(d.code);
    var before := inputs[..|inputs| - 1];
    var fds := t.processes[d.pid].fds - {AsI32(d.args[0])};
    assert ProcessAgrees(t.processes[d.pid], s, before, d.pid);
    forall fd ensures Get(fds, fd) == DescriptorOf(s, inputs, d.pid, fd) {
      DescriptorAfter(s, inputs, d, fd);
      assert Get(t.processes[d.pid].fds, fd) == DescriptorOf(s, before, d.pid, fd);
    }
    DescriptorsMove(t, s, inputs, d, fds);
  }

  lemma DupEnds(t: State, s: State, inputs: seq<Input>, d: Done, to: Word, closeOnExec: bool)
    requires Ends(t, s, inputs, d) && IsDup(d) && DupMade(d) == AsI32(to)
    requires closeOnExec == (d.code in FCNTLS && d.args[1] == F_DUPFD_CLOEXEC)
    ensures Agrees(Duplicate(t, d.pid, d.args[0], to, closeOnExec), s, inputs)
  {
    hide Last, DirectoryOf, DescriptorOf, MadeBy, Unplaced, AsI32, VnodesAgree, HeldAgrees, SetProcess, OpenOn, FdPath,
         DupMade;
    KindsDiffer(d.code);
    var before := inputs[..|inputs| - 1];
    OpenOnIs(t, s, before, d.pid, d.args[0]);
    var fds := t.processes[d.pid].fds[AsI32(to) := Descriptor(FdPath(t, d.pid, d.args[0]), closeOnExec)];
    assert ProcessAgrees(t.processes[d.pid], s, before, d.pid);
    forall fd ensures Get(fds, fd) == DescriptorOf(s, inputs, d.pid, fd) {
      DescriptorAfter(s, inputs, d, fd);
      assert Get(t.processes[d.pid].fds, fd) == DescriptorOf(s, before, d.pid, fd);
    }
    DescriptorsMove(t, s, inputs, d, fds);
  }

  lemma SetFlagEnds(t: State, s: State, inputs: seq<Input>, d: Done)
    requires Ends(t, s, inputs, d) && d.code in FCNTLS && d.args[1] == F_SETFD
    ensures Agrees(SetCloseOnExec(t, d.pid, AsI32(d.args[0]), d.args[2] % 2 == 1), s, inputs)
  {
    hide Last, DirectoryOf, DescriptorOf, MadeBy, Unplaced, AsI32, VnodesAgree, HeldAgrees, SetProcess;
    KindsDiffer(d.code);
    var before := inputs[..|inputs| - 1];
    var held := t.processes[d.pid].fds;
    var at := AsI32(d.args[0]);
    var fds := if at in held then held[at := held[at].(closeOnExec := d.args[2] % 2 == 1)] else held;
    assert ProcessAgrees(t.processes[d.pid], s, before, d.pid);
    forall fd ensures Get(fds, fd) == DescriptorOf(s, inputs, d.pid, fd) {
      DescriptorAfter(s, inputs, d, fd);
      assert Get(held, fd) == DescriptorOf(s, before, d.pid, fd);
    }
    DescriptorsMove(t, s, inputs, d, fds);
    assert t.processes[d.pid].(fds := held) == t.processes[d.pid];
    assert at !in held ==> SetProcess(t, d.pid, t.processes[d.pid]) == t by { SetSame(t, d.pid); }
  }

  lemma SetSame(t: State, pid: Pid)
    requires pid in t.processes
    ensures SetProcess(t, pid, t.processes[pid]) == t
  {
    assert t.processes[pid := t.processes[pid]] == t.processes;
  }

  lemma FcntlEnds(t: State, s: State, inputs: seq<Input>, d: Done, call: Call, env: Env)
    requires Ends(t, s, inputs, d) && IsCall(d, call, d.returned, env) && IsFcntl(call.code)
    ensures Agrees(FinishFcntl(t, d.pid, call, d.returned), s, inputs)
  {
    hide Ends, Agrees, Duplicate, SetCloseOnExec, AsI32, IsFcntl;
    ArgumentsAre(d, call, d.returned, env);
    KindsDiffer(d.code);
    if d.args[1] == F_DUPFD || d.args[1] == F_DUPFD_CLOEXEC {
      DupEnds(t, s, inputs, d, d.returned, d.args[1] == F_DUPFD_CLOEXEC);
    } else if d.args[1] == F_SETFD {
      SetFlagEnds(t, s, inputs, d);
    } else {
      NothingEnds(t, s, inputs, d);
    }
  }

  /** Whatever call it was, the tables answer as the records do, and what it is worth is reported. */
  lemma CallEnds(t: State, s: State, inputs: seq<Input>, d: Done, call: Call, env: Env)
    requires Ends(t, s, inputs, d) && IsCall(d, call, d.returned, env)
    ensures var step := FinishCall(t, d.pid, d.time, call, d.returned, env);
            && Agrees(step.state, s, inputs)
            && step.out == if s.fileEvents then FileFact(s, inputs[..|inputs| - 1], d) else []
  {
    hide Ends, Agrees, FinishOpen, FinishRename, FinishChdir, FinishFchdir, FinishClose, Duplicate, FinishFcntl,
         IsOpen, IsRename, IsClose, IsFcntl, AsI32, HasFlag, FlagsPassed, OpenedAt, MovedFrom, MovedTo;
    ArgumentsAre(d, call, d.returned, env);
    KindsDiffer(d.code);
    if IsOpen(call.code) {
      OpenEnds(t, s, inputs, d, call, env);
    } else if IsRename(call.code) {
      RenameEnds(t, s, inputs, d, call, env);
    } else if call.code == CHDIR {
      ChdirEnds(t, s, inputs, d, call, env);
    } else if call.code == FCHDIR {
      FchdirEnds(t, s, inputs, d, call, env);
    } else if IsClose(call.code) {
      CloseEnds(t, s, inputs, d, call, env);
    } else if call.code == DUP {
      DupEnds(t, s, inputs, d, d.returned, false);
    } else if call.code == DUP2 {
      DupEnds(t, s, inputs, d, d.args[1], false);
    } else if IsFcntl(call.code) {
      FcntlEnds(t, s, inputs, d, call, env);
    } else {
      NothingEnds(t, s, inputs, d);
    }
  }

  // ---- Whose record it is ----

  lemma NewThreadNames(t: State, r: Record)
    ensures NewThread(t, r).state.threads == t.threads[r.args[0] := AsI32(r.args[1])]
  {
    hide StartProcess, AsI32;
  }

  lemma ObserveThreads(t: State, r: Record, env: Env, thread: Tid)
    ensures Get(Observe(t, r, env).state.threads, thread)
         == if r.Code() == NEWTHREAD && r.args[0] == thread then Some(AsI32(r.args[1])) else Get(t.threads, thread)
  {
    hide ProcessStep, Release, NewThread, AsI32;
    NewThreadNames(Noticed(Dequeued(t), r), r);
  }

  lemma TickKeepsThreads(t: State, env: Env)
    ensures Tick(t, env).state.threads == t.threads
  {
    hide RetryList, BelieveExits, Release;
  }

  lemma {:induction false} RunThreads(s: State, inputs: seq<Input>, thread: Tid)
    ensures Get(Run(s, inputs).state.threads, thread) == ProcessOf(s, inputs, thread)
  {
    hide Observe, Tick, AsI32;
    if inputs != [] {
      var n := |inputs| - 1;
      RunThreads(s, inputs[..n], thread);
      var t := Run(s, inputs[..n]).state;
      match inputs[n] {
        case Seen(r, env) => ObserveThreads(t, r, env, thread);
        case Ticked(env) => TickKeepsThreads(t, env);
      }
    }
  }

  lemma SpeakerIs(s: State, inputs: seq<Input>, thread: Tid)
    ensures var t := Run(s, inputs).state;
            Speaker(s, inputs, thread) == if IsFollowedThread(t, thread) then Some(t.threads[thread]) else None
  {
    hide Run, ProcessOf;
    RunThreads(s, inputs, thread);
  }

  lemma {:induction false} RunViews(s: State, inputs: seq<Input>, thread: Tid)
    ensures ViewOf(Run(s, inputs).state, thread) == ViewAt(s, inputs, thread)
  {
    hide Observe, Tick, OwnStep, ViewOf, Speaker;
    if inputs != [] {
      var n := |inputs| - 1;
      RunViews(s, inputs[..n], thread);
      SpeakerIs(s, inputs[..n], thread);
      var t := Run(s, inputs[..n]).state;
      match inputs[n] {
        case Seen(r, env) => ObserveOwn(t, r, env, thread);
        case Ticked(env) => TickOwn(t, env, thread);
      }
    }
  }

  // ---- One record ----

  /** The part of a state that holds the answers. */
  predicate SameTables(t: State, u: State) {
    && u.processes == t.processes && u.vnodePaths == t.vnodePaths && u.created == t.created
    && u.heldOpens == t.heldOpens && u.fileEvents == t.fileEvents
  }

  lemma SameAgrees(t: State, u: State, s: State, inputs: seq<Input>)
    requires Agrees(t, s, inputs) && SameTables(t, u)
    ensures Agrees(u, s, inputs)
  {
    hide ProcessAgrees, HeldAgrees, MadeBy, Unplaced, Remembered;
  }

  predicate Fewer(all: map<Pid, Process>, left: map<Pid, Process>) {
    forall pid | pid in left :: pid in all && left[pid] == all[pid]
  }

  /** Processes may be forgotten; the rest is as it was. */
  predicate Forgets(t: State, u: State) {
    && Fewer(t.processes, u.processes)
    && u.vnodePaths == t.vnodePaths && u.created == t.created
    && u.heldOpens == t.heldOpens && u.fileEvents == t.fileEvents
  }

  lemma NothingHappens(s: State, inputs: seq<Input>, pid: Pid, fd: int, vnode: Word)
    requires inputs != [] && Last(s, inputs).Nothing?
    ensures var before := inputs[..|inputs| - 1];
            && DirectoryOf(s, inputs, pid) == DirectoryOf(s, before, pid)
            && DescriptorOf(s, inputs, pid, fd) == DescriptorOf(s, before, pid, fd)
            && Remembered(s, inputs, vnode) == Remembered(s, before, vnode)
            && MadeBy(s, inputs) == MadeBy(s, before)
            && Unplaced(s, inputs) == Unplaced(s, before)
  {
    hide Last;
  }

  lemma NothingAgrees(t: State, s: State, inputs: seq<Input>, u: State)
    requires inputs != [] && Last(s, inputs).Nothing? && Agrees(t, s, inputs[..|inputs| - 1]) && Forgets(t, u)
    ensures Agrees(u, s, inputs)
  {
    hide Last, DirectoryOf, DescriptorOf, Remembered, MadeBy, Unplaced, HeldAgrees;
    var before := inputs[..|inputs| - 1];
    forall pid | pid in u.processes ensures ProcessAgrees(u.processes[pid], s, inputs, pid) {
      assert ProcessAgrees(t.processes[pid], s, before, pid);
      forall fd ensures Get(u.processes[pid].fds, fd) == DescriptorOf(s, inputs, pid, fd) {
        NothingHappens(s, inputs, pid, fd, 0);
      }
      NothingHappens(s, inputs, pid, 0, 0);
    }
    forall vnode ensures Get(u.vnodePaths, vnode) == Remembered(s, inputs, vnode) {
      NothingHappens(s, inputs, 0, 0, vnode);
    }
    NothingHappens(s, inputs, 0, 0, 0);
  }

  lemma BirthHappens(s: State, inputs: seq<Input>, parent: Pid, child: Pid, pid: Pid, fd: int, vnode: Word)
    requires inputs != [] && Last(s, inputs) == Born(parent, child)
    ensures var before := inputs[..|inputs| - 1];
            var from := if pid == child then parent else pid;
            && DirectoryOf(s, inputs, pid) == DirectoryOf(s, before, from)
            && DescriptorOf(s, inputs, pid, fd) == DescriptorOf(s, before, from, fd)
            && Remembered(s, inputs, vnode) == Remembered(s, before, vnode)
            && MadeBy(s, inputs) == MadeBy(s, before)
            && Unplaced(s, inputs) == Unplaced(s, before)
  {
    hide Last;
  }

  lemma BirthAgrees(t: State, s: State, inputs: seq<Input>, parent: Pid, child: Pid, u: State)
    requires inputs != [] && Last(s, inputs) == Born(parent, child) && Agrees(t, s, inputs[..|inputs| - 1])
    requires parent in t.processes && SameTables(t.(processes := t.processes[child := t.processes[parent]]), u)
    ensures Agrees(u, s, inputs)
  {
    hide Last, DirectoryOf, DescriptorOf, Remembered, MadeBy, Unplaced, HeldAgrees;
    var before := inputs[..|inputs| - 1];
    forall pid | pid in u.processes ensures ProcessAgrees(u.processes[pid], s, inputs, pid) {
      var from := if pid == child then parent else pid;
      assert ProcessAgrees(t.processes[from], s, before, from);
      forall fd ensures Get(u.processes[pid].fds, fd) == DescriptorOf(s, inputs, pid, fd) {
        BirthHappens(s, inputs, parent, child, pid, fd, 0);
      }
      BirthHappens(s, inputs, parent, child, pid, 0, 0);
    }
    forall vnode ensures Get(u.vnodePaths, vnode) == Remembered(s, inputs, vnode) {
      BirthHappens(s, inputs, parent, child, 0, 0, vnode);
    }
    BirthHappens(s, inputs, parent, child, 0, 0, 0);
  }

  lemma ProgramHappens(s: State, inputs: seq<Input>, runner: Pid, pid: Pid, fd: int, vnode: Word)
    requires inputs != [] && Last(s, inputs) == Ran(runner)
    ensures var before := inputs[..|inputs| - 1];
            var held := DescriptorOf(s, before, pid, fd);
            && DirectoryOf(s, inputs, pid) == DirectoryOf(s, before, pid)
            && DescriptorOf(s, inputs, pid, fd)
            == (if runner == pid && held.Some? && held.value.closeOnExec then None else held)
            && Remembered(s, inputs, vnode) == Remembered(s, before, vnode)
            && MadeBy(s, inputs) == MadeBy(s, before)
            && Unplaced(s, inputs) == Unplaced(s, before)
  {
    hide Last;
  }

  lemma KeptIs(fds: map<int, Descriptor>, fd: int)
    ensures Get(KeptOnExec(fds), fd) == if fd in fds && fds[fd].closeOnExec then None else Get(fds, fd)
  {
  }

  lemma ProgramKeeps(process: Process, s: State, inputs: seq<Input>, runner: Pid, pid: Pid)
    requires inputs != [] && Last(s, inputs) == Ran(runner)
    requires ProcessAgrees(process, s, inputs[..|inputs| - 1], pid)
    ensures ProcessAgrees(if pid == runner then process.(fds := KeptOnExec(process.fds)) else process, s, inputs, pid)
  {
    hide Last, DirectoryOf, DescriptorOf, Remembered, MadeBy, Unplaced, KeptOnExec;
    ProgramHappens(s, inputs, runner, pid, 0, 0);
    forall fd
      ensures Get(if pid == runner then KeptOnExec(process.fds) else process.fds, fd)
           == DescriptorOf(s, inputs, pid, fd)
    {
      assert Get(process.fds, fd) == DescriptorOf(s, inputs[..|inputs| - 1], pid, fd);
      KeptIs(process.fds, fd);
      ProgramHappens(s, inputs, runner, pid, fd, 0);
    }
  }

  lemma ProgramAgrees(t: State, s: State, inputs: seq<Input>, runner: Pid, u: State)
    requires inputs != [] && Last(s, inputs) == Ran(runner) && Agrees(t, s, inputs[..|inputs| - 1])
    requires SameTables(CloseOnExec(t, runner), u)
    ensures Agrees(u, s, inputs)
  {
    hide Last, DirectoryOf, DescriptorOf, Remembered, MadeBy, Unplaced, HeldAgrees, KeptOnExec, ProcessAgrees;
    var before := inputs[..|inputs| - 1];
    forall pid | pid in u.processes ensures ProcessAgrees(u.processes[pid], s, inputs, pid) {
      ProgramKeeps(t.processes[pid], s, inputs, runner, pid);
    }
    forall vnode ensures Get(u.vnodePaths, vnode) == Remembered(s, inputs, vnode) {
      ProgramHappens(s, inputs, runner, 0, 0, vnode);
    }
    ProgramHappens(s, inputs, runner, 0, 0, 0);
  }

  lemma LookupHappens(s: State, inputs: seq<Input>, lookup: Lookup, pid: Pid, fd: int, vnode: Word)
    requires inputs != [] && Last(s, inputs) == LookedUp(lookup)
    ensures var before := inputs[..|inputs| - 1];
            && DirectoryOf(s, inputs, pid) == DirectoryOf(s, before, pid)
            && DescriptorOf(s, inputs, pid, fd) == DescriptorOf(s, before, pid, fd)
            && Remembered(s, inputs, vnode)
            == (if lookup.vnode == vnode && IsAbsolute(lookup.path) then Some(Normalized(lookup.path))
                else Remembered(s, before, vnode))
            && MadeBy(s, inputs) == MadeBy(s, before)
            && Unplaced(s, inputs) == Unplaced(s, before)
  {
    hide Last, Normalized, IsAbsolute;
  }

  lemma LookupAgrees(t: State, s: State, inputs: seq<Input>, lookup: Lookup, u: State)
    requires inputs != [] && Last(s, inputs) == LookedUp(lookup) && Agrees(t, s, inputs[..|inputs| - 1])
    requires SameTables(t.(vnodePaths := if IsAbsolute(lookup.path)
                                         then t.vnodePaths[lookup.vnode := Normalized(lookup.path)]
                                         else t.vnodePaths), u)
    ensures Agrees(u, s, inputs)
  {
    hide Last, DirectoryOf, DescriptorOf, Remembered, MadeBy, Unplaced, HeldAgrees, Normalized, IsAbsolute;
    var before := inputs[..|inputs| - 1];
    forall pid | pid in u.processes ensures ProcessAgrees(u.processes[pid], s, inputs, pid) {
      assert ProcessAgrees(t.processes[pid], s, before, pid);
      forall fd ensures Get(u.processes[pid].fds, fd) == DescriptorOf(s, inputs, pid, fd) {
        LookupHappens(s, inputs, lookup, pid, fd, 0);
      }
      LookupHappens(s, inputs, lookup, pid, 0, 0);
    }
    forall vnode ensures Get(u.vnodePaths, vnode) == Remembered(s, inputs, vnode) {
      assert Get(t.vnodePaths, vnode) == Remembered(s, before, vnode);
      LookupHappens(s, inputs, lookup, 0, 0, vnode);
    }
    LookupHappens(s, inputs, lookup, 0, 0, 0);
  }

  // ---- From the record to the tables ----

  /** What a file's messages are, among others. */
  predicate IsOfFiles(m: Message) {
    m.event.Open? || m.event.Rename?
  }

  function OfFiles(ms: seq<Message>): seq<Message> {
    if ms == [] then [] else OfFiles(ms[..|ms| - 1]) + if IsOfFiles(ms[|ms| - 1]) then [ms[|ms| - 1]] else []
  }

  lemma {:induction false} OfFilesConcat(a: seq<Message>, b: seq<Message>)
    ensures OfFiles(a + b) == OfFiles(a) + OfFiles(b)
    decreases |b|
  {
    if b == [] {
      assert a + b == a;
    } else {
      OfFilesConcat(a, b[..|b| - 1]);
      assert (a + b)[..|a + b| - 1] == a + b[..|b| - 1];
    }
  }

  /** What happened, as messages about files. */
  function Worth(s: State, inputs: seq<Input>, h: Happening): seq<Message> {
    match h
    case Ended(d) => if s.fileEvents then FileFact(s, inputs, d) else []
    case _ => []
  }

  lemma CallsAre(code: nat)
    ensures code in CALLS <==> IsFollowed(code)
  {
  }

  lemma HappenedElsewhere(s: State, inputs: seq<Input>, r: Record, present: Text -> bool)
    requires r.Code() == LOST_EVENTS || !IsFollowedThread(Run(s, inputs).state, r.thread)
             || r.Code() == STRING_EXEC || r.Code() == PROC_EXIT
    ensures Happened(s, inputs, r, present).Nothing?
  {
    hide Speaker, Run, IsFollowed, CALLS;
    SpeakerIs(s, inputs, r.thread);
    NotSyscalls(r.Code());
    CallsAre(r.Code());
  }

  lemma EndedCall(s: State, inputs: seq<Input>, r: Record, env: Env)
    requires IsFollowedThread(Run(s, inputs).state, r.thread) && IsFollowed(r.Code())
    ensures var t := Run(s, inputs).state;
            var happened := Happened(s, inputs, r, env.present);
            if r.IsEnd() && !r.IsStart() && r.args[0] == 0 && r.thread in t.calls && t.calls[r.thread].code == r.Code()
            then happened == Ended(Done(t.threads[r.thread], r.timestamp, r.Code(), t.calls[r.thread].args,
                                        t.calls[r.thread].lookups, r.args[1], env.present))
            else happened.Nothing?
  {
    hide Speaker, Run, IsFollowed, ViewAt, CALLS;
    SpeakerIs(s, inputs, r.thread);
    RunViews(s, inputs, r.thread);
    NotSyscalls(r.Code());
    CallsAre(r.Code());
  }

  /** A call's record: `u` is any state with the tables of the run before it. */
  lemma SyscallAgrees(s: State, inputs: seq<Input>, u: State, r: Record, env: Env)
    requires inputs != [] && inputs[|inputs| - 1] == Seen(r, env) && IsFollowed(r.Code())
    requires var t := Run(s, inputs[..|inputs| - 1]).state;
             && Agrees(t, s, inputs[..|inputs| - 1]) && SameTables(t, u) && u.calls == t.calls && u.threads == t.threads
             && IsFollowedThread(t, r.thread)
    ensures var step := SyscallStep(u, u.threads[r.thread], r, env);
            && Agrees(step.state, s, inputs)
            && step.out == Worth(s, inputs[..|inputs| - 1], Last(s, inputs))
  {
    hide Run, Agrees, FinishCall, IsFollowed, FileFact, Happened;
    var before := inputs[..|inputs| - 1];
    var t := Run(s, before).state;
    var pid := u.threads[r.thread];
    EndedCall(s, before, r, env);
    SameAgrees(t, u, s, before);
    var v := u.(calls := u.calls - {r.thread});
    SameAgrees(u, v, s, before);
    if Last(s, inputs).Nothing? {
      NothingAgrees(t, s, inputs, SyscallStep(u, pid, r, env).state);
    } else {
      CallEnds(v, s, inputs, Last(s, inputs).call, u.calls[r.thread], env);
    }
  }

  lemma FinishLookupTables(u: State, thread: Tid, vnode: Word, path: Text)
    ensures SameTables(u.(vnodePaths := if IsAbsolute(path) then u.vnodePaths[vnode := Normalized(path)]
                                        else u.vnodePaths), FinishLookup(u, thread, vnode, path))
  {
    hide Normalized, IsAbsolute;
  }

  lemma LookupRecord(s: State, inputs: seq<Input>, r: Record, present: Text -> bool)
    requires IsFollowedThread(Run(s, inputs).state, r.thread) && r.Code() == VFS_LOOKUP
    ensures var words := Gather(LookupOf(Run(s, inputs).state, r.thread), r);
            Happened(s, inputs, r, present)
            == if r.IsEnd() then LookedUp(Lookup(words.vnode, Decoded(words.words))) else Nothing
  {
    hide Run, IsFollowed, Speaker, ViewAt, Decoded, Gather;
    SpeakerIs(s, inputs, r.thread);
    RunViews(s, inputs, r.thread);
  }

  lemma GatheringTables(u: State, r: Record)
    requires !r.IsEnd()
    ensures Forgets(u, LookupStep(u, r))
  {
    hide Gather;
  }

  lemma LookupStepAgrees(s: State, inputs: seq<Input>, u: State, r: Record, env: Env)
    requires inputs != [] && inputs[|inputs| - 1] == Seen(r, env) && r.Code() == VFS_LOOKUP
    requires var t := Run(s, inputs[..|inputs| - 1]).state;
             && Agrees(t, s, inputs[..|inputs| - 1]) && SameTables(t, u) && u.lookups == t.lookups
             && IsFollowedThread(t, r.thread)
    ensures Agrees(LookupStep(u, r), s, inputs) && Worth(s, inputs[..|inputs| - 1], Last(s, inputs)) == []
  {
    hide Run, Agrees, Happened, Decoded, Normalized, IsAbsolute, Gather, FinishLookup, Forgets, SameTables, FileFact;
    var before := inputs[..|inputs| - 1];
    var t := Run(s, before).state;
    LookupRecord(s, before, r, env.present);
    assert LookupOf(u, r.thread) == LookupOf(t, r.thread);
    SameAgrees(t, u, s, before);
    if r.IsEnd() {
      var words := Gather(LookupOf(t, r.thread), r);
      FinishLookupTables(u, r.thread, words.vnode, Decoded(words.words));
      LookupAgrees(u, s, inputs, Lookup(words.vnode, Decoded(words.words)), LookupStep(u, r));
    } else {
      GatheringTables(u, r);
      NothingAgrees(u, s, inputs, LookupStep(u, r));
    }
  }

  lemma NewThreadTables(u: State, r: Record)
    ensures var v := NewThread(u, r).state;
            var child := AsI32(r.args[1]);
            && v.vnodePaths == u.vnodePaths && v.created == u.created
            && v.heldOpens == u.heldOpens && v.fileEvents == u.fileEvents
            && if r.thread in u.threads && u.threads[r.thread] != child && u.threads[r.thread] in u.processes
               then v.processes == u.processes[child := u.processes[u.threads[r.thread]]]
               else Fewer(u.processes, v.processes)
  {
    hide AsI32, WithoutPid;
  }

  lemma NewThreadAgrees(s: State, inputs: seq<Input>, u: State, r: Record, env: Env)
    requires inputs != [] && inputs[|inputs| - 1] == Seen(r, env) && r.Code() == NEWTHREAD
    requires var t := Run(s, inputs[..|inputs| - 1]).state;
             Agrees(t, s, inputs[..|inputs| - 1]) && SameTables(t, u) && u.threads == t.threads
    ensures Agrees(NewThread(u, r).state, s, inputs) && Worth(s, inputs[..|inputs| - 1], Last(s, inputs)) == []
  {
    hide Run, Agrees, Speaker, AsI32, NewThread, Fewer;
    var before := inputs[..|inputs| - 1];
    var t := Run(s, before).state;
    SpeakerIs(s, before, r.thread);
    NewThreadTables(u, r);
    if Last(s, inputs).Nothing? {
      NothingAgrees(t, s, inputs, NewThread(u, r).state);
    } else {
      BirthAgrees(t, s, inputs, t.threads[r.thread], AsI32(r.args[1]), NewThread(u, r).state);
    }
  }

  lemma ExecAgrees(s: State, inputs: seq<Input>, u: State, r: Record, env: Env)
    requires inputs != [] && inputs[|inputs| - 1] == Seen(r, env) && r.Code() == DATA_EXEC
    requires var t := Run(s, inputs[..|inputs| - 1]).state;
             && Agrees(t, s, inputs[..|inputs| - 1]) && SameTables(t, u) && u.threads == t.threads
             && IsFollowedThread(t, r.thread)
    ensures Agrees(ExecStep(ReplaceAsker(u, r.thread), u.threads[r.thread], r.timestamp, r.args[2], env).state, s,
                   inputs)
    ensures Worth(s, inputs[..|inputs| - 1], Last(s, inputs)) == []
  {
    hide Run, Agrees, Speaker, SettleEarlier, StartProgram, KeptOnExec;
    var before := inputs[..|inputs| - 1];
    var t := Run(s, before).state;
    SpeakerIs(s, before, r.thread);
    ProgramAgrees(t, s, inputs, u.threads[r.thread],
                  ExecStep(ReplaceAsker(u, r.thread), u.threads[r.thread], r.timestamp, r.args[2], env).state);
  }

  lemma BelieveForgets(u: State)
    ensures Forgets(u, BelieveExits(u).state)
  {
    hide Believable, Waiting, PidsOf;
  }

  lemma ExitForgets(u: State, pid: Pid, r: Record)
    ensures Forgets(u, ProcExit(u, pid, r).state)
  {
    hide BelieveExits, AsI32, Fewer;
    FewerOrAll(u.processes);
    if r.thread !in u.replaced && r.thread !in u.newTasks {
      BelieveForgets(u.(heldExits := u.heldExits + [HeldExit(pid, r.timestamp, AsI32(r.args[1]))]));
    }
  }

  lemma FewerOrAll(all: map<Pid, Process>)
    ensures Fewer(all, all)
  {
  }

  lemma ProcessStepAgrees(s: State, inputs: seq<Input>, u: State, r: Record, env: Env)
    requires inputs != [] && inputs[|inputs| - 1] == Seen(r, env)
    requires r.Code() != NEWTHREAD && r.Code() != LOST_EVENTS
    requires var t := Run(s, inputs[..|inputs| - 1]).state;
             && Agrees(t, s, inputs[..|inputs| - 1]) && SameTables(t, u)
             && u.calls == t.calls && u.threads == t.threads && u.lookups == t.lookups && IsFollowedThread(t, r.thread)
    ensures Agrees(ProcessStep(u, u.threads[r.thread], r, env).state, s, inputs)
    ensures Worth(s, inputs[..|inputs| - 1], Last(s, inputs))
         == if IsFollowed(r.Code()) then SyscallStep(u, u.threads[r.thread], r, env).out else []
  {
    hide Run, Agrees, SyscallStep, LookupStep, ExecStep, ReplaceAsker, ProcExit, NameProgram, IsFollowed, Worth,
         Happened, FileFact;
    var before := inputs[..|inputs| - 1];
    var t := Run(s, before).state;
    var pid := u.threads[r.thread];
    var v := ProcessStep(u, pid, r, env).state;
    NotSyscalls(r.Code());
    if r.Code() == DATA_EXEC {
      ExecAgrees(s, inputs, u, r, env);
    } else if r.Code() == VFS_LOOKUP {
      LookupStepAgrees(s, inputs, u, r, env);
    } else if IsFollowed(r.Code()) {
      SyscallAgrees(s, inputs, u, r, env);
    } else {
      QuietRecord(s, before, r, env);
      if r.Code() == PROC_EXIT && r.IsEnd() {
        ExitForgets(u, pid, r);
      }
      NothingAgrees(t, s, inputs, v);
    }
  }

  /** A record that says nothing of files. */
  lemma QuietRecord(s: State, before: seq<Input>, r: Record, env: Env)
    requires r.Code() != NEWTHREAD && r.Code() != DATA_EXEC && r.Code() != VFS_LOOKUP && !IsFollowed(r.Code())
    ensures Happened(s, before, r, env.present).Nothing? && Worth(s, before, Happened(s, before, r, env.present)) == []
  {
    hide Speaker, IsFollowed, ViewAt, CALLS;
    CallsAre(r.Code());
  }

  lemma InterpretAgrees(s: State, inputs: seq<Input>, u: State, r: Record, env: Env)
    requires inputs != [] && inputs[|inputs| - 1] == Seen(r, env)
    requires var t := Run(s, inputs[..|inputs| - 1]).state;
             Agrees(t, s, inputs[..|inputs| - 1]) && u == Noticed(Dequeued(t), r)
    ensures Agrees(Interpret(Dequeued(Run(s, inputs[..|inputs| - 1]).state), r, env).state, s, inputs)
    ensures OfFiles(Facts(u, r, env)) == Worth(s, inputs[..|inputs| - 1], Last(s, inputs))
  {
    hide Run, Agrees, ProcessStep, NewThread, Facts, Worth, Last, IsFollowed, OfFiles;
    var before := inputs[..|inputs| - 1];
    var t := Run(s, before).state;
    FilesOfFacts(u, r, env);
    if r.Code() == NEWTHREAD {
      NewThreadAgrees(s, inputs, u, r, env);
      NotSyscalls(r.Code());
    } else if r.Code() == LOST_EVENTS || !IsFollowedThread(t, r.thread) {
      Unheard(s, inputs, r, env);
      NotSyscalls(r.Code());
      NothingAgrees(t, s, inputs, Interpret(Dequeued(t), r, env).state);
    } else {
      ProcessStepAgrees(s, inputs, u, r, env);
    }
  }

  lemma ObserveAgrees(s: State, inputs: seq<Input>, r: Record, env: Env)
    requires inputs != [] && inputs[|inputs| - 1] == Seen(r, env)
    requires Agrees(Run(s, inputs[..|inputs| - 1]).state, s, inputs[..|inputs| - 1])
    ensures var t := Run(s, inputs[..|inputs| - 1]).state;
            && Agrees(Observe(t, r, env).state, s, inputs)
            && OfFiles(Facts(t, r, env)) == Worth(s, inputs[..|inputs| - 1], Last(s, inputs))
  {
    hide Run, Agrees, Interpret, Release, Facts, Worth, Last, OfFiles;
    var t := Run(s, inputs[..|inputs| - 1]).state;
    FactsIgnoreQueue(t, r, env);
    InterpretAgrees(s, inputs, Noticed(Dequeued(t), r), r, env);
    SameAgrees(Interpret(Dequeued(t), r, env).state, Observe(t, r, env).state, s, inputs);
  }

  lemma Unheard(s: State, inputs: seq<Input>, r: Record, env: Env)
    requires inputs != [] && inputs[|inputs| - 1] == Seen(r, env)
    requires r.Code() == LOST_EVENTS || !IsFollowedThread(Run(s, inputs[..|inputs| - 1]).state, r.thread)
    ensures Last(s, inputs).Nothing? && Worth(s, inputs[..|inputs| - 1], Last(s, inputs)) == []
  {
    hide Run, Happened;
    HappenedElsewhere(s, inputs[..|inputs| - 1], r, env.present);
  }

  /** Of what a record says happened, the calls of a followed thread are what is about files. */
  lemma FilesOfFacts(u: State, r: Record, env: Env)
    ensures OfFiles(Facts(u, r, env))
         == if IsFollowedThread(u, r.thread) && IsFollowed(r.Code())
            then SyscallStep(u, u.threads[r.thread], r, env).out else []
  {
    hide SyscallStep, IsFollowed, AsI32;
    NotSyscalls(r.Code());
    var facts := Facts(u, r, env);
    assert OfFiles([]) == [];
    if facts != [] {
      assert |facts| == 1;
      assert facts[..0] == [];
      assert facts == [facts[0]];
    }
  }

  lemma TickAgrees(t: State, s: State, inputs: seq<Input>, env: Env)
    requires inputs != [] && inputs[|inputs| - 1] == Ticked(env) && Agrees(t, s, inputs[..|inputs| - 1])
    ensures Agrees(Tick(t, env).state, s, inputs)
  {
    hide Agrees, RetryList, BelieveExits, Release, Fewer;
    BelieveForgets(RetryCommandLines(Dequeued(t), env, false).state);
    NothingAgrees(t, s, inputs, Tick(t, env).state);
  }

  /** At the start, the tables are all there is to go by. */
  lemma NothingYet(s: State)
    requires s.heldOpens == []
    ensures Agrees(s, s, [])
  {
  }

  /** In every state a run reaches, each table answers as the records do, and what happened to files is theirs. */
  lemma {:induction false} RunAgrees(s: State, inputs: seq<Input>)
    requires s.heldOpens == []
    ensures Agrees(Run(s, inputs).state, s, inputs)
    ensures OfFiles(AllFacts(s, inputs)) == FileFacts(s, inputs)
  {
    hide Agrees, Observe, Tick, Facts, FileFact, Last, Worth;
    if inputs == [] {
      NothingYet(s);
    } else {
      var n := |inputs| - 1;
      RunAgrees(s, inputs[..n]);
      var t := Run(s, inputs[..n]).state;
      OfFilesConcat(AllFacts(s, inputs[..n]), InputFacts(t, inputs[n]));
      FileFactsStep(s, inputs);
      match inputs[n] {
        case Seen(r, env) => ObserveAgrees(s, inputs, r, env);
        case Ticked(env) => TickAgrees(t, s, inputs, env); TickedNothing(s, inputs);
      }
    }
  }

  lemma TickedNothing(s: State, inputs: seq<Input>)
    requires inputs != [] && inputs[|inputs| - 1].Ticked?
    ensures Worth(s, inputs[..|inputs| - 1], Last(s, inputs)) == [] && OfFiles([]) == []
  {
  }

  lemma FileFactsStep(s: State, inputs: seq<Input>)
    requires inputs != []
    ensures FileFacts(s, inputs)
         == FileFacts(s, inputs[..|inputs| - 1]) + Worth(s, inputs[..|inputs| - 1], Last(s, inputs))
  {
    hide Last, FileFact;
    var none: seq<Message> := [];
    assert none + none == none;
  }

  // ---- What the collector knows ----

  /** A followed process is where its records put it, and has just the descriptors they gave it. */
  lemma ProcessIsAsRecorded(s: State, inputs: seq<Input>, pid: Pid, fd: int)
    requires s.heldOpens == [] && Follows(s, inputs, pid)
    ensures var process := Run(s, inputs).state.processes[pid];
            process.cwd == DirectoryOf(s, inputs, pid) && Get(process.fds, fd) == DescriptorOf(s, inputs, pid, fd)
  {
    hide Run, DirectoryOf, DescriptorOf, VnodesAgree, FilesAgree;
    RunAgrees(s, inputs);
    assert ProcessAgrees(Run(s, inputs).state.processes[pid], s, inputs, pid);
  }

  /** Every vnode is known where it was last looked up absolutely, and the files made are those opened to be. */
  lemma PathsAreAsRecorded(s: State, inputs: seq<Input>, vnode: Word)
    requires s.heldOpens == []
    ensures var t := Run(s, inputs).state;
            Get(t.vnodePaths, vnode) == Remembered(s, inputs, vnode) && t.created == MadeBy(s, inputs)
  {
    hide Run, Remembered, MadeBy, ProcessesAgree, HeldAgrees;
    RunAgrees(s, inputs);
  }

  // ---- What the recording tells ----

  lemma FlushOpensAre(s: State, inputs: seq<Input>)
    requires s.heldOpens == []
    ensures FlushOpens(s, inputs) == LateOpens(s, inputs, Unplaced(s, inputs))
  {
    hide Run, ProcessesAgree, KnownPath, KnownAs, VnodesAgree, Unplaced, MadeBy, LinuxOpenFlags, FlagsPassed, AsI32;
    RunAgrees(s, inputs);
    var t := Run(s, inputs).state;
    var opens := Unplaced(s, inputs);
    forall i | 0 <= i < |opens| ensures FlushOpens(s, inputs)[i] == LateOpens(s, inputs, opens)[i] {
      assert t.heldOpens[i] == HeldAs(opens[i]);
      KnownIs(t, s, inputs, opens[i].lookups[0]);
    }
  }

  lemma {:induction false} FilesCounted(ms: seq<Message>, x: Message)
    ensures multiset(OfFiles(ms))[x] == if IsOfFiles(x) then Count(ms, x) else 0
  {
    if ms != [] {
      var n := |ms| - 1;
      FilesCounted(ms[..n], x);
      assert ms == ms[..n] + [ms[n]];
      CountConcat(ms[..n], [ms[n]], x);
      CountOne(ms[n], x);
    }
  }

  lemma {:induction false} AllOfFiles(ms: seq<Message>)
    requires forall i | 0 <= i < |ms| :: IsOfFiles(ms[i])
    ensures OfFiles(ms) == ms
  {
    if ms != [] {
      AllOfFiles(ms[..|ms| - 1]);
    }
  }

  lemma {:induction false} OnlyFiles(ms: seq<Message>)
    ensures forall i | 0 <= i < |OfFiles(ms)| :: IsOfFiles(OfFiles(ms)[i])
  {
    if ms != [] {
      OnlyFiles(ms[..|ms| - 1]);
    }
  }

  /**
   What a recording says of files is just the opens and renames its records tell of, each once, and the
   opens that nothing had placed, as they are told at the end.
   */
  lemma RecordingTellsFiles(s: State, inputs: seq<Input>, env: Env)
    requires IsNew(s)
    ensures multiset(OfFiles(Recording(s, inputs, env)))
         == multiset(FileFacts(s, inputs) + LateOpens(s, inputs, Unplaced(s, inputs)))
  {
    hide Recording, AllFacts, AllCancelled, FlushOpens, FileFacts, LateOpens, Unplaced, OfFiles, LateOpen, Count;
    var facts, late := FileFacts(s, inputs), LateOpens(s, inputs, Unplaced(s, inputs));
    RunAgrees(s, inputs);
    FlushOpensAre(s, inputs);
    LateAreFiles(s, inputs, Unplaced(s, inputs));
    forall x ensures multiset(OfFiles(Recording(s, inputs, env)))[x] == multiset(facts + late)[x] {
      RecordingBalances(s, inputs, env, x);
      FilesCounted(Recording(s, inputs, env), x);
      FilesCounted(AllFacts(s, inputs), x);
      FilesCounted(late, x);
      if IsOfFiles(x) {
        NoExecAmong(AllCancelled(s, inputs), x);
      }
    }
  }

  lemma LateAreFiles(s: State, inputs: seq<Input>, opens: seq<Done>)
    requires forall i | 0 <= i < |opens| :: opens[i].lookups != []
    ensures OfFiles(LateOpens(s, inputs, opens)) == LateOpens(s, inputs, opens)
  {
    hide OfFiles, KnownAs, LinuxOpenFlags;
    AllOfFiles(LateOpens(s, inputs, opens));
  }

  lemma {:induction false} FactsGoOn(s: State, inputs: seq<Input>, k: nat, m: Message)
    requires k < |inputs| && s.fileEvents && Last(s, inputs[..k + 1]).Ended?
    requires m in FileFact(s, inputs[..k], Last(s, inputs[..k + 1]).call)
    ensures m in FileFacts(s, inputs)
    decreases |inputs|
  {
    hide Last, FileFact;
    var n := |inputs| - 1;
    if k == n {
      assert inputs[..k + 1] == inputs;
    } else {
      assert inputs[..n][..k + 1] == inputs[..k + 1] && inputs[..n][..k] == inputs[..k];
      FactsGoOn(s, inputs[..n], k, m);
    }
  }

  /** What a call that ends is worth is in the recording, whatever comes before or after. */
  lemma FactIsRecorded(s: State, inputs: seq<Input>, env: Env, k: nat, m: Message)
    requires IsNew(s) && k < |inputs| && s.fileEvents && Last(s, inputs[..k + 1]).Ended?
    requires m in FileFact(s, inputs[..k], Last(s, inputs[..k + 1]).call)
    ensures m in Recording(s, inputs, env)
  {
    hide Recording, FileFacts, LateOpens, Unplaced, Last, FileFact, OfFiles;
    FactsGoOn(s, inputs, k, m);
    RecordingTellsFiles(s, inputs, env);
    assert m in multiset(OfFiles(Recording(s, inputs, env)));
    FileIsThere(Recording(s, inputs, env), m);
  }

  lemma {:induction false} FileIsThere(ms: seq<Message>, m: Message)
    requires m in OfFiles(ms)
    ensures m in ms
  {
    if m in OfFiles(ms[..|ms| - 1]) {
      FileIsThere(ms[..|ms| - 1], m);
    }
  }

  /**
   A rename whose last two lookups are absolute is recorded as moving the first of them to the second,
   whatever else the collector knows.
   */
  lemma AbsoluteRenameIsRecorded(s: State, inputs: seq<Input>, env: Env, k: nat)
    requires IsNew(s) && k < |inputs| && s.fileEvents
    requires Last(s, inputs[..k + 1]).Ended? && IsMove(Last(s, inputs[..k + 1]).call)
    requires var d := Last(s, inputs[..k + 1]).call;
             IsAbsolute(d.lookups[|d.lookups| - 2].path) && IsAbsolute(d.lookups[|d.lookups| - 1].path)
    ensures var d := Last(s, inputs[..k + 1]).call;
            var from, to := d.lookups[|d.lookups| - 2].path, d.lookups[|d.lookups| - 1].path;
            Message(d.time, d.pid, 0, Rename(Normalized(from), Normalized(to))) in Recording(s, inputs, env)
  {
    hide Recording, Last, Normalized, IsAbsolute, DirectoryPassed, DirectoryOf, OpenOn, KnownAs, MadeBy;
    var d := Last(s, inputs[..k + 1]).call;
    KindsDiffer(d.code);
    var from, to := d.lookups[|d.lookups| - 2].path, d.lookups[|d.lookups| - 1].path;
    var m := Message(d.time, d.pid, 0, Rename(Normalized(from), Normalized(to)));
    assert FileFact(s, inputs[..k], d) == [m];
    FactIsRecorded(s, inputs, env, k, m);
  }
}
