/** The tracker: what it makes of the collector's messages. */
module TrackerModel {
  import opened Basics
  import opened Messages

  const MAX_NS: nat := TWO_TO_64 - 1
  const MINIMUM_SEGMENT_DURATION_NS: nat := 1
  const SIGNAL_EXIT_STATUS_OFFSET: nat := 128
  /** The raw status of a child that was spawned but could not exec. */
  const FAILED_SPAWN_STAT: int := 1

  function Min(a: int, b: int): int {
    if a < b then a else b
  }

  // ---- Time ----

  /** From ticks to nanoseconds past `origin`, by two factors that are at least one. */
  datatype Clock = Clock(origin: nat, numer: nat, denom: nat) {
    predicate Valid() {
      numer >= 1 && denom >= 1
    }

    function Ns(time: nat): (ns: nat)
      requires Valid()
      ensures ns <= MAX_NS
    {
      var ticks := if time < origin then 0 else time - origin;
      Min(ticks * numer / denom, MAX_NS)
    }
  }

  // ---- Processes and segments ----

  datatype Process = Process(pid: Pid, parentPid: Pid, buildParentPid: Pid, execed: bool)

  datatype Segment = Segment(
    start: nat,
    end: nat,
    name: Text,
    command: Text,
    cwd: Text,
    exitCode: Option<nat>,
    compilerWrapper: bool)

  /** The process a child of `parentPid` is attributed to. */
  function BuildParentOf(parent: Option<Process>, parentPid: Pid): Pid {
    if parent.Some? && !parent.value.execed then parent.value.buildParentPid else parentPid
  }

  /** The end of a segment that is to end at `end`: later, if that would leave it shorter than the minimum. */
  function EndAt(start: nat, end: nat): nat {
    Max(end, Min(start + MINIMUM_SEGMENT_DURATION_NS, MAX_NS))
  }

  /** A segment ends when it is to, or as soon after its start as there is, but not past what 64 bits hold. */
  lemma EndAtTells(start: nat, end: nat)
    requires start <= MAX_NS && end <= MAX_NS
    ensures EndAt(start, end) == if start < end then end else if start < MAX_NS then start + 1 else MAX_NS
  {
  }

  /** The exit byte of a raw wait status, or 128 more than the signal that ended it. */
  function ExitCode(stat: int): (code: nat)
    ensures code < 256
  {
    var signal := stat % 128;
    if signal == 0 then stat / 256 % 256 else SIGNAL_EXIT_STATUS_OFFSET + signal
  }

  /**
   Of a status that says how a process exited, its code; of one that says which signal ended it, 128 and the
   signal, whether or not it left a core. What is above the low 16 bits does not matter.
   */
  lemma ExitCodeTells(high: int, code: nat, core: nat, signal: nat)
    requires code < 256 && core < 2 && signal < 128
    ensures ExitCode(high * 0x1_0000 + code * 256 + core * 128 + signal)
         == if signal == 0 then code else SIGNAL_EXIT_STATUS_OFFSET + signal
  {
    Remainder(128, 512 * high + 2 * code + core, signal);
    Remainder(256, 256 * high + code, core * 128 + signal);
    Remainder(256, high, code);
  }

  lemma Remainder(d: nat, q: int, r: nat)
    requires r < d
    ensures (d * q + r) / d == q && (d * q + r) % d == r
  {
    var a := d * q + r;
    assert a == d * (a / d) + a % d;
    assert d * (q - a / d) == a % d - r;
    if q > a / d {
      Times(1, q - a / d, d);
    } else if q < a / d {
      Times(1, a / d - q, d);
    }
  }

  /** The last whole nanosecond the ticks since `origin` reach, or the greatest there is if that is past it. */
  lemma NsTells(clock: Clock, time: nat)
    requires clock.Valid()
    ensures time <= clock.origin ==> clock.Ns(time) == 0
    ensures time > clock.origin ==>
              var ns, scaled := clock.Ns(time), (time - clock.origin) * clock.numer;
              if scaled >= (MAX_NS + 1) * clock.denom then ns == MAX_NS
              else ns * clock.denom <= scaled < (ns + 1) * clock.denom
  {
    if time > clock.origin {
      var scaled := (time - clock.origin) * clock.numer;
      Quotient(scaled, clock.denom);
      var q := scaled / clock.denom;
      if q > MAX_NS {
        Times(MAX_NS + 1, q, clock.denom);
      } else if scaled >= (MAX_NS + 1) * clock.denom {
        Times(q + 1, MAX_NS + 1, clock.denom);
      }
    } else {
      assert 0 * clock.numer / clock.denom == 0;
    }
  }

  lemma Quotient(a: nat, d: nat)
    requires d >= 1
    ensures a / d * d <= a < (a / d + 1) * d
  {
    var q, r := a / d, a % d;
    assert a == d * q + r;
    assert (q + 1) * d == d * q + d;
  }

  lemma Times(a: nat, b: nat, d: nat)
    requires a <= b
    ensures a * d <= b * d
  {
  }

  /** What a sink is told, in order. */
  datatype Written =
    | ProcessStarted(pid: Pid)
    | SegmentEnded(process: Process, segment: Segment)
    | FileOpened(pid: Pid, time: nat, path: Text, flags: nat, fd: int, unresolved: bool)
    | FileRenamed(pid: Pid, time: nat, from: Text, to: Text)
    | ProcessExited(pid: Pid, segmentStart: nat)

  function About(w: Written): Pid {
    match w
    case SegmentEnded(process, _) => process.pid
    case ProcessStarted(pid) => pid
    case FileOpened(pid, _, _, _, _, _) => pid
    case FileRenamed(pid, _, _, _) => pid
    case ProcessExited(pid, _) => pid
  }

  datatype ProcessState = ProcessState(process: Process, segment: Segment)

  datatype Tracker = Tracker(
    clock: Clock,
    rootPid: Pid,
    rootExitCode: Option<nat>,
    processes: map<Pid, ProcessState>,
    announced: set<Pid>,
    sink: seq<Written>)

  /** What a program is called, and whether it stands in for a compiler. */
  datatype Title = Title(name: Text, compilerWrapper: bool)
  type Titles = (Pid, seq<Text>, Text) -> Title

  /** Starts following the root, already started running `command`. */
  function New(clock: Clock, rootPid: Pid, name: Text, command: Text, cwd: Text): Tracker {
    Tracker(clock, rootPid, None,
            map[rootPid := ProcessState(Process(rootPid, 0, 0, false), Segment(0, 0, name, command, cwd, None, false))],
            {}, [])
  }

  // ---- Messages ----

  function Announce(t: Tracker, pid: Pid): (t': Tracker)
    ensures t' == t.(announced := t'.announced, sink := t'.sink)
  {
    if pid in t.announced then t
    else t.(announced := t.announced + {pid}, sink := t.sink + [ProcessStarted(pid)])
  }

  function Write(t: Tracker, w: Written): (t': Tracker)
    ensures t' == t.(sink := t'.sink)
  {
    t.(sink := t.sink + [w])
  }

  /** "fork:" */
  const FORK_PREFIX: Text := [102, 111, 114, 107, 58]
  /** "fork" */
  const FORK_NAME: Text := [102, 111, 114, 107]

  function StartProcess(t: Tracker, pid: Pid, parentPid: Pid, ns: nat): (t': Tracker)
    ensures t' == t.(processes := t'.processes)
  {
    var parent := Get(t.processes, parentPid);
    var buildParent := BuildParentOf(if parent.Some? then Some(parent.value.process) else None, parentPid);
    var segment := if parent.Some?
                   then Segment(ns, 0, FORK_PREFIX + parent.value.segment.name, parent.value.segment.command,
                                parent.value.segment.cwd, None, false)
                   else Segment(ns, 0, FORK_NAME, [], [], None, false);
    t.(processes := t.processes[pid := ProcessState(Process(pid, parentPid, buildParent, false), segment)])
  }

  function Ended(segment: Segment, ns: nat): Segment {
    segment.(end := EndAt(segment.start, ns))
  }

  function Join(argv: seq<Text>): Text {
    if argv == [] then [] else if |argv| == 1 then argv[0] else argv[0] + [32] + Join(argv[1..])
  }

  /** A first program names the process's segment; a later one ends it and starts another. */
  function RunProgram(t: Tracker, pid: Pid, ns: nat, argv: seq<Text>, cwd: Text, executable: Text,
                      titles: Titles): Tracker {
    if pid !in t.processes then t else
      var argv' := if argv == [] then [executable] else argv;
      var title := titles(pid, argv', executable);
      var state := t.processes[pid];
      if state.process.execed then
        var next := Segment(ns, 0, title.name, Join(argv'), cwd, None, title.compilerWrapper);
        Write(Announce(t.(processes := t.processes[pid := state.(segment := next)]), pid),
              SegmentEnded(state.process, Ended(state.segment, ns)))
      else
        var named := state.segment.(name := title.name, command := Join(argv'), cwd := cwd,
                                    compilerWrapper := title.compilerWrapper);
        t.(processes := t.processes[pid := ProcessState(state.process.(execed := true), named)])
  }

  /** A child that was spawned but ran nothing, and has nothing written about it, leaves nothing. */
  predicate IsFailedSpawn(t: Tracker, pid: Pid, stat: int)
    requires pid in t.processes
  {
    stat == FAILED_SPAWN_STAT && !t.processes[pid].process.execed && pid !in t.announced
  }

  function CloseProcess(t: Tracker, pid: Pid, ns: nat, stat: int): Tracker
    requires pid in t.processes
  {
    var state := t.processes[pid];
    var closed := Ended(state.segment, ns).(exitCode := Some(ExitCode(stat)));
    var t1 := t.(processes := t.processes - {pid},
                 rootExitCode := if pid == t.rootPid then Some(Min(ExitCode(stat), 255)) else t.rootExitCode);
    Write(Write(Announce(t1, pid), SegmentEnded(state.process, closed)), ProcessExited(pid, state.segment.start))
  }

  function ExitStep(t: Tracker, pid: Pid, ns: nat, stat: int): Tracker {
    if pid !in t.processes then t
    else if IsFailedSpawn(t, pid, stat) then t.(processes := t.processes - {pid})
    else CloseProcess(t, pid, ns, stat)
  }

  /** A process first heard of through its program is claimed through its parent. */
  function Claim(t: Tracker, m: Message): Tracker
    requires t.clock.Valid()
  {
    if m.pid !in t.processes && m.event.Exec? && m.ppid in t.processes
    then StartProcess(t, m.pid, m.ppid, t.clock.Ns(m.time)) else t
  }

  /** An open of a process that has exited still belongs on its track. */
  predicate IsLateOpen(t: Tracker, m: Message) {
    m.event.Open? && m.pid in t.announced
  }

  function Handle(t: Tracker, m: Message, titles: Titles): Tracker
    requires t.clock.Valid()
  {
    var t1 := Claim(t, m);
    if m.pid !in t1.processes && !IsLateOpen(t, m) then t else
      var ns := t.clock.Ns(m.time);
      match m.event
      case Fork(child) => if child in t1.processes then t1 else StartProcess(t1, child, m.pid, ns)
      case Exec(argv, cwd, executable) => RunProgram(t1, m.pid, ns, argv, cwd, executable, titles)
      case Exit(stat) => ExitStep(t1, m.pid, ns, stat)
      case Open(path, flags, fd, unresolved) =>
        Write(Announce(t1, m.pid), FileOpened(m.pid, ns, path, flags, fd, unresolved))
      case Rename(from, to) => Write(Announce(t1, m.pid), FileRenamed(m.pid, ns, from, to))
  }

  function HandleAll(t: Tracker, ms: seq<Message>, titles: Titles): (t': Tracker)
    requires t.clock.Valid()
    ensures t'.clock == t.clock
  {
    if ms == [] then t else
      var before := HandleAll(t, ms[..|ms| - 1], titles);
      HandleKeepsClock(before, ms[|ms| - 1], titles);
      Handle(before, ms[|ms| - 1], titles)
  }

  lemma HandleKeepsClock(t: Tracker, m: Message, titles: Titles)
    requires t.clock.Valid()
    ensures Handle(t, m, titles).clock == t.clock
  {
  }

  /** Writes the last segment of one open process. */
  function FinishOne(t: Tracker, pid: Pid, now: nat): Tracker
    requires pid in t.processes
  {
    var state := t.processes[pid];
    Write(Announce(t, pid), SegmentEnded(state.process, state.segment.(end := Max(now, state.segment.start))))
  }

  /** Ends every process of `order`, in that order. */
  function FinishAll(t: Tracker, order: seq<Pid>, now: nat): (t': Tracker)
    requires forall i | 0 <= i < |order| :: order[i] in t.processes
    ensures t'.processes == t.processes
  {
    if order == [] then t
    else FinishOne(FinishAll(t, order[..|order| - 1], now), order[|order| - 1], now)
  }
}
