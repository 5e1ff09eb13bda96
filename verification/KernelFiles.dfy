/**
 Where files are, told from the kernel's records alone. Each question is answered by looking back
 through the records for the last that says something of it: which directory a process is in, what a
 descriptor is open on, where a vnode was looked up absolutely. Of the collector, this uses only which
 processes it follows. The answers say which opens and renames a recording reports, and as what.
 */
module KernelFiles {
  import opened Basics
  import opened Messages
  import opened Paths
  import opened Fragments
  import opened CollectorModel
  import opened Reassembly

  // ---- Calls ----

  const OPENS: set<nat> := {
    OPEN, OPEN_NOCANCEL, OPEN_EXTENDED, OPEN_DPROTECTED, GUARDED_OPEN, GUARDED_OPEN_DPROTECTED,
    OPENAT, OPENAT_NOCANCEL, OPENAT_DPROTECTED }

  const RENAMES: set<nat> := { RENAME, RENAMEAT, RENAMEATX }

  const CLOSES: set<nat> := { CLOSE, CLOSE_NOCANCEL, GUARDED_CLOSE }

  const FCNTLS: set<nat> := { FCNTL, FCNTL_NOCANCEL }

  /** The calls that say something of files. */
  const CALLS: set<nat> := OPENS + RENAMES + CLOSES + FCNTLS + { CHDIR, FCHDIR, DUP, DUP2 }

  // ---- Whose record it is, and what it ends ----

  /** The process the kernel last said a thread is of. */
  function ProcessOf(s: State, inputs: seq<Input>, thread: Tid): Option<Pid> {
    if inputs == [] then Get(s.threads, thread) else
      var n := |inputs| - 1;
      match inputs[n]
      case Seen(r, _) =>
        if r.Code() == NEWTHREAD && r.args[0] == thread then Some(AsI32(r.args[1]))
        else ProcessOf(s, inputs[..n], thread)
      case Ticked(_) => ProcessOf(s, inputs[..n], thread)
  }

  predicate Follows(s: State, inputs: seq<Input>, pid: Pid) {
    pid in Run(s, inputs).state.processes
  }

  /** The followed process whose thread this is, after these records. */
  function Speaker(s: State, inputs: seq<Input>, thread: Tid): Option<Pid> {
    var process := ProcessOf(s, inputs, thread);
    if process.Some? && Follows(s, inputs, process.value) then process else None
  }

  /** The call a thread is in and the words of its lookup, by its own records. */
  function ViewAt(s: State, inputs: seq<Input>, thread: Tid): View {
    if inputs == [] then ViewOf(s, thread) else
      var n := |inputs| - 1;
      var before := ViewAt(s, inputs[..n], thread);
      match inputs[n]
      case Seen(r, _) =>
        if r.thread == thread && Speaker(s, inputs[..n], thread).Some? then OwnStep(before, r) else before
      case Ticked(_) => before
  }

  /** A system call that ended without error, with what was passed to it and which paths there are then. */
  datatype Done = Done(
    pid: Pid,
    time: nat,
    code: nat,
    args: Args,
    lookups: seq<Lookup>,
    returned: Word,
    present: Text -> bool)

  datatype Happening =
    | Nothing
    | Born(parent: Pid, child: Pid)
    | Ran(pid: Pid)
    | LookedUp(lookup: Lookup)
    | Ended(call: Done)

  /** What a record says happened, after the records before it. */
  function Happened(s: State, inputs: seq<Input>, r: Record, present: Text -> bool): Happening {
    var speaker := Speaker(s, inputs, r.thread);
    if speaker.None? then Nothing
    else if r.Code() == NEWTHREAD then
      if speaker.value != AsI32(r.args[1]) then Born(speaker.value, AsI32(r.args[1])) else Nothing
    else if r.Code() == DATA_EXEC then Ran(speaker.value)
    else
      var view := ViewAt(s, inputs, r.thread);
      if r.Code() == VFS_LOOKUP then
        if r.IsEnd() then
          var words := Gather(view.gathered, r);
          LookedUp(Lookup(words.vnode, Decoded(words.words)))
        else Nothing
      else if r.Code() in CALLS && r.IsEnd() && !r.IsStart() && r.args[0] == 0
              && view.call.Some? && view.call.value.code == r.Code() then
        Ended(Done(speaker.value, r.timestamp, r.Code(), view.call.value.args, view.call.value.lookups,
                   r.args[1], present))
      else Nothing
  }

  /** What the last input says happened. */
  function Last(s: State, inputs: seq<Input>): Happening
    requires inputs != []
  {
    var n := |inputs| - 1;
    match inputs[n]
    case Seen(r, env) => Happened(s, inputs[..n], r, env.present)
    case Ticked(_) => Nothing
  }

  // ---- What is passed to a call ----

  /** The calls that are given a directory before each path. */
  const WITH_DIRECTORY: set<nat> := { OPENAT, OPENAT_NOCANCEL, OPENAT_DPROTECTED, RENAMEAT, RENAMEATX }

  /** The flags of an open: after its path, or after its path, guard and guard's flags. */
  function FlagsPassed(d: Done): Word {
    if d.code in { GUARDED_OPEN, GUARDED_OPEN_DPROTECTED } then d.args[3]
    else if d.code in WITH_DIRECTORY then d.args[2]
    else d.args[1]
  }

  /** The descriptor of the directory passed as this argument, unless that is the working directory. */
  function DirectoryPassed(d: Done, i: nat): Option<int>
    requires i < 4
  {
    if d.code in WITH_DIRECTORY && AsI32(d.args[i]) != AT_FDCWD then Some(AsI32(d.args[i])) else None
  }

  predicate IsDup(d: Done) {
    d.code == DUP || d.code == DUP2 || (d.code in FCNTLS && d.args[1] in { F_DUPFD, F_DUPFD_CLOEXEC })
  }

  /** The descriptor that a dup or its kind makes. */
  function DupMade(d: Done): int {
    if d.code == DUP2 then AsI32(d.args[1]) else AsI32(d.returned)
  }

  // ---- Which file a lookup is of ----

  function FirstName(path: Text): Text {
    if path == [] || path[0] == SLASH then [] else [path[0]] + FirstName(path[1..])
  }

  function FinalName(path: Text): (name: Text)
    ensures |name| <= |path|
  {
    var n := |path| - 1;
    if path == [] || path[n] == SLASH then [] else FinalName(path[..n]) + [path[n]]
  }

  /** The directory a path's final name is in. */
  function Holder(path: Text): Text {
    var front := path[..|path| - |FinalName(path)|];
    if |front| <= 1 then ROOT else front[..|front| - 1]
  }

  /** The build made the file, or it is there; for a file that is created, the directory it goes in is. */
  predicate IsThere(path: Text, creating: bool, made: set<Text>, present: Text -> bool) {
    path in made || present(if creating then Holder(path) else path)
  }

  /** The lookup went on from the root: its first name is not in the directory, and is in the root. */
  predicate WentOnFromRoot(directory: Text, raw: Text, present: Text -> bool) {
    SLASH in raw && !present(directory + [SLASH] + FirstName(raw)) && present([SLASH] + FirstName(raw))
  }

  /**
   The path of a file that was looked up as `raw`, in a directory if that is known, when `known` is
   where its vnode was looked up absolutely under the same name. `certain` asks for a path that
   something confirms.
   */
  function Located(directory: Option<Text>, known: Option<Text>, raw: Text, creating: bool, certain: bool,
                   made: set<Text>, present: Text -> bool): Option<Text> {
    if IsAbsolute(raw) then Some(Normalized(raw))
    else if directory.None? then known
    else if WentOnFromRoot(directory.value, raw, present) then Some(Normalized([SLASH] + raw))
    else
      var joined := Normalized(directory.value + [SLASH] + raw);
      if IsThere(joined, creating, made, present) then Some(joined)
      else if known.Some? || certain then known
      else Some(joined)
  }

  // ---- Looking back ----

  /** Where a vnode was last looked up absolutely. */
  function Remembered(s: State, inputs: seq<Input>, vnode: Word): Option<Text> {
    if inputs == [] then Get(s.vnodePaths, vnode) else
      var before := inputs[..|inputs| - 1];
      match Last(s, inputs)
      case LookedUp(lookup) =>
        if lookup.vnode == vnode && IsAbsolute(lookup.path) then Some(Normalized(lookup.path))
        else Remembered(s, before, vnode)
      case _ => Remembered(s, before, vnode)
  }

  /** The same, if it can be the file that this lookup ended at. */
  function KnownAs(s: State, inputs: seq<Input>, lookup: Lookup): Option<Text> {
    var path := Remembered(s, inputs, lookup.vnode);
    if path.Some? && FinalName(path.value) == FinalName(lookup.path) then path else None
  }

  /** The working directory of a process: its last chdir or fchdir, or its parent's when it was born. */
  function DirectoryOf(s: State, inputs: seq<Input>, pid: Pid): Option<Text>
    decreases |inputs|, 0
  {
    if inputs == [] then (if pid in s.processes then s.processes[pid].cwd else None) else
      var before := inputs[..|inputs| - 1];
      match Last(s, inputs)
      case Born(parent, child) => DirectoryOf(s, before, if pid == child then parent else pid)
      case Ended(d) =>
        if d.pid == pid && d.code == CHDIR && d.lookups != [] then LocatedAt(s, before, d, 0, None, false, false)
        else if d.pid == pid && d.code == FCHDIR then OpenOn(s, before, pid, AsI32(d.args[0]))
        else DirectoryOf(s, before, pid)
      case _ => DirectoryOf(s, before, pid)
  }

  /** A process's descriptor: the last open or dup that made it, or its parent's, unless closed since. */
  function DescriptorOf(s: State, inputs: seq<Input>, pid: Pid, fd: int): Option<Descriptor>
    decreases |inputs|, 0
  {
    if inputs == [] then (if pid in s.processes then Get(s.processes[pid].fds, fd) else None) else
      var before := inputs[..|inputs| - 1];
      match Last(s, inputs)
      case Born(parent, child) => DescriptorOf(s, before, if pid == child then parent else pid, fd)
      case Ran(runner) =>
        var held := DescriptorOf(s, before, pid, fd);
        if runner == pid && held.Some? && held.value.closeOnExec then None else held
      case Ended(d) =>
        if d.pid != pid then DescriptorOf(s, before, pid, fd)
        else if IsOpening(d) && AsI32(d.returned) == fd then
          Some(Descriptor(OpenedAt(s, before, d), HasFlag(FlagsPassed(d), O_CLOEXEC)))
        else if d.code in CLOSES && AsI32(d.args[0]) == fd then None
        else if IsDup(d) && DupMade(d) == fd then
          Some(Descriptor(OpenOn(s, before, pid, AsI32(d.args[0])),
                          d.code in FCNTLS && d.args[1] == F_DUPFD_CLOEXEC))
        else if d.code in FCNTLS && d.args[1] == F_SETFD && AsI32(d.args[0]) == fd then
          var held := DescriptorOf(s, before, pid, fd);
          if held.Some? then Some(held.value.(closeOnExec := d.args[2] % 2 == 1)) else None
        else DescriptorOf(s, before, pid, fd)
      case _ => DescriptorOf(s, before, pid, fd)
  }

  /** The path that a descriptor is open on. */
  function OpenOn(s: State, inputs: seq<Input>, pid: Pid, fd: int): Option<Text>
    decreases |inputs|, 1
  {
    var descriptor := DescriptorOf(s, inputs, pid, fd);
    if descriptor.Some? then descriptor.value.path else None
  }

  /** The paths of the files that were opened to be created. */
  function MadeBy(s: State, inputs: seq<Input>): set<Text>
    decreases |inputs|, 0
  {
    if inputs == [] then s.created else
      var before := inputs[..|inputs| - 1];
      match Last(s, inputs)
      case Ended(d) =>
        if IsOpening(d) && HasFlag(FlagsPassed(d), O_CREAT) then
          var path := OpenedAt(s, before, d);
          MadeBy(s, before) + if path.Some? then {path.value} else {}
        else MadeBy(s, before)
      case _ => MadeBy(s, before)
  }

  /** Where a call's lookup ended, relative to the descriptor `at` or to the working directory. */
  function LocatedAt(s: State, inputs: seq<Input>, d: Done, i: nat, at: Option<int>, creating: bool, certain: bool)
      : Option<Text>
    requires i < |d.lookups|
    decreases |inputs|, 2
  {
    var directory := if at.Some? then OpenOn(s, inputs, d.pid, at.value) else DirectoryOf(s, inputs, d.pid);
    Located(directory, KnownAs(s, inputs, d.lookups[i]), d.lookups[i].path, creating, certain,
            MadeBy(s, inputs), d.present)
  }

  /** An open that looked a path up. Only the root is opened without, as a directory. */
  predicate IsOpening(d: Done) {
    d.code in OPENS && (d.lookups != [] || HasFlag(FlagsPassed(d), O_DIRECTORY))
  }

  /** Where an open's file is: its first lookup, and only if something confirms it. */
  function OpenedAt(s: State, inputs: seq<Input>, d: Done): Option<Text>
    decreases |inputs|, 3
  {
    if d.lookups == [] then Some(ROOT)
    else LocatedAt(s, inputs, d, 0, DirectoryPassed(d, 0), HasFlag(FlagsPassed(d), O_CREAT), true)
  }

  /** A rename looks its source up and then its destination, each under its own directory. */
  predicate IsMove(d: Done) {
    d.code in RENAMES && |d.lookups| >= 2
  }

  function MovedFrom(s: State, inputs: seq<Input>, d: Done): Option<Text>
    requires IsMove(d)
  {
    LocatedAt(s, inputs, d, |d.lookups| - 2, DirectoryPassed(d, 0), false, false)
  }

  function MovedTo(s: State, inputs: seq<Input>, d: Done): Option<Text>
    requires IsMove(d)
  {
    LocatedAt(s, inputs, d, |d.lookups| - 1, DirectoryPassed(d, 2), true, false)
  }

  // ---- What is reported ----

  /** The message an ended call is worth: an open whose file is known, or a rename with both its files. */
  function FileFact(s: State, inputs: seq<Input>, d: Done): seq<Message> {
    if IsOpening(d) && OpenedAt(s, inputs, d).Some? then
      [Message(d.time, d.pid, 0,
               Open(OpenedAt(s, inputs, d).value, LinuxOpenFlags(FlagsPassed(d)), AsI32(d.returned), false))]
    else if IsMove(d) && MovedFrom(s, inputs, d).Some? && MovedTo(s, inputs, d).Some? then
      [Message(d.time, d.pid, 0, Rename(MovedFrom(s, inputs, d).value, MovedTo(s, inputs, d).value))]
    else []
  }

  /** The opens and renames of a run, in order. */
  function FileFacts(s: State, inputs: seq<Input>): seq<Message> {
    if inputs == [] || !s.fileEvents then [] else
      var before := inputs[..|inputs| - 1];
      FileFacts(s, before) + match Last(s, inputs)
                             case Ended(d) => FileFact(s, before, d)
                             case _ => []
  }

  /** The opens whose file nothing said when they ended. */
  function Unplaced(s: State, inputs: seq<Input>): (opens: seq<Done>)
    ensures forall i | 0 <= i < |opens| :: opens[i].lookups != []
  {
    if inputs == [] || !s.fileEvents then [] else
      var before := inputs[..|inputs| - 1];
      Unplaced(s, before) + match Last(s, inputs)
                            case Ended(d) => if IsOpening(d) && OpenedAt(s, before, d).None? then [d] else []
                            case _ => []
  }

  /** Such an open is reported at the end: where its vnode was looked up by then, or as it was looked up. */
  function LateOpen(s: State, inputs: seq<Input>, d: Done): Message
    requires d.lookups != []
  {
    var known := KnownAs(s, inputs, d.lookups[0]);
    Message(d.time, d.pid, 0,
            Open(if known.Some? then known.value else d.lookups[0].path,
                 LinuxOpenFlags(FlagsPassed(d)), AsI32(d.returned), known.None?))
  }

  function LateOpens(s: State, inputs: seq<Input>, opens: seq<Done>): seq<Message>
    requires forall i | 0 <= i < |opens| :: opens[i].lookups != []
  {
    seq(|opens|, i requires 0 <= i < |opens| => LateOpen(s, inputs, opens[i]))
  }
}
