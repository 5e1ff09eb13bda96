/** The tracker itself: its table of processes and its sink, updated in place. */
module TrackerObject {
  import opened Basics
  import opened Messages
  import opened TrackerModel

  class LiveTracker {
    const clock: Clock
    const rootPid: Pid
    var rootExitCode: Option<nat>
    var processes: map<Pid, ProcessState>
    var announced: set<Pid>
    var sink: seq<Written>

    function Now(): Tracker
      reads this
    {
      Tracker(clock, rootPid, rootExitCode, processes, announced, sink)
    }

    constructor (clock: Clock, rootPid: Pid, name: Text, command: Text, cwd: Text)
      ensures Now() == New(clock, rootPid, name, command, cwd)
    {
      this.clock, this.rootPid := clock, rootPid;
      rootExitCode, announced, sink := None, {}, [];
      processes := map[rootPid := ProcessState(Process(rootPid, 0, 0, false),
                                               Segment(0, 0, name, command, cwd, None, false))];
    }

    method HandleMessage(m: Message, titles: Titles)
      requires clock.Valid()
      modifies this
      ensures Now() == Handle(old(Now()), m, titles)
    {
      var ns := clock.Ns(m.time);
      var lateOpen := m.event.Open? && m.pid in announced;
      if m.pid !in processes && !lateOpen {
        if !m.event.Exec? || m.ppid !in processes {
          return;
        }
        Start(m.pid, m.ppid, ns);
      }
      match m.event {
        case Fork(child) =>
          if child !in processes {
            Start(child, m.pid, ns);
          }
        case Exec(argv, cwd, executable) =>
          RunProgram(m.pid, ns, argv, cwd, executable, titles);
        case Exit(stat) =>
          EndProcess(m.pid, ns, stat);
        case Open(path, flags, fd, unresolved) =>
          AnnouncePid(m.pid);
          sink := sink + [FileOpened(m.pid, ns, path, flags, fd, unresolved)];
        case Rename(from, to) =>
          AnnouncePid(m.pid);
          sink := sink + [FileRenamed(m.pid, ns, from, to)];
      }
    }

    method AnnouncePid(pid: Pid)
      modifies `announced, `sink
      ensures Now() == Announce(old(Now()), pid)
    {
      if pid !in announced {
        announced := announced + {pid};
        sink := sink + [ProcessStarted(pid)];
      }
    }

    method Start(pid: Pid, parentPid: Pid, ns: nat)
      modifies `processes
      ensures Now() == StartProcess(old(Now()), pid, parentPid, ns)
    {
      var process := Process(pid, parentPid, parentPid, false);
      var segment := Segment(ns, 0, FORK_NAME, [], [], None, false);
      if parentPid in processes {
        var parent := processes[parentPid];
        process := process.(buildParentPid := BuildParentOf(Some(parent.process), parentPid));
        segment := Segment(ns, 0, FORK_PREFIX + parent.segment.name, parent.segment.command, parent.segment.cwd, None,
                           false);
      }
      processes := processes[pid := ProcessState(process, segment)];
    }

    method RunProgram(pid: Pid, ns: nat, argv: seq<Text>, cwd: Text, executable: Text, titles: Titles)
      modifies `processes, `announced, `sink
      ensures Now() == TrackerModel.RunProgram(old(Now()), pid, ns, argv, cwd, executable, titles)
    {
      if pid !in processes {
        return;
      }
      var args := if argv == [] then [executable] else argv;
      var title := titles(pid, args, executable);
      var state := processes[pid];
      if state.process.execed {
        var next := Segment(ns, 0, title.name, Join(args), cwd, None, title.compilerWrapper);
        processes := processes[pid := state.(segment := next)];
        var previous := Ended(state.segment, ns);
        AnnouncePid(pid);
        sink := sink + [SegmentEnded(state.process, previous)];
      } else {
        var named := state.segment.(name := title.name, command := Join(args), cwd := cwd,
                                    compilerWrapper := title.compilerWrapper);
        processes := processes[pid := ProcessState(state.process.(execed := true), named)];
      }
    }

    method EndProcess(pid: Pid, ns: nat, stat: int)
      modifies this
      ensures Now() == ExitStep(old(Now()), pid, ns, stat)
    {
      if pid !in processes {
        return;
      }
      var state := processes[pid];
      processes := processes - {pid};
      if stat == FAILED_SPAWN_STAT && !state.process.execed && pid !in announced {
        return;
      }
      var exitCode := ExitCode(stat);
      if pid == rootPid {
        rootExitCode := Some(Min(exitCode, 255));
      }
      var closed := Ended(state.segment, ns).(exitCode := Some(exitCode));
      AnnouncePid(pid);
      sink := sink + [SegmentEnded(state.process, closed)];
      sink := sink + [ProcessExited(pid, state.segment.start)];
    }

    /** Ends every process still open: `order` is the whole table, in the order a hash map is walked. */
    method Finish(now: nat, order: seq<Pid>)
      requires forall i | 0 <= i < |order| :: order[i] in processes
      requires forall pid | pid in processes :: pid in order
      requires forall i, j | 0 <= i < j < |order| :: order[i] != order[j]
      modifies `announced, `sink
      ensures Now() == FinishAll(old(Now()), order, now)
    {
      var i := 0;
      while i < |order|
        invariant 0 <= i <= |order|
        invariant processes == old(processes) && rootExitCode == old(rootExitCode)
        invariant Now() == FinishAll(old(Now()), order[..i], now)
      {
        assert order[..i + 1][..i] == order[..i];
        var state := processes[order[i]];
        AnnouncePid(order[i]);
        sink := sink + [SegmentEnded(state.process, state.segment.(end := Max(now, state.segment.start)))];
        i := i + 1;
      }
      assert order[..|order|] == order;
    }
  }
}
