/** What the tracker writes is exactly what the lives it is told of call for. */
module TrackerProofs {
  import opened Basics
  import opened Messages
  import opened TrackerModel
  import opened Lives

  // ---- Introductions ----

  function Subjects(sink: seq<Written>): set<Pid> {
    set i | 0 <= i < |sink| :: About(sink[i])
  }

  /** A process's start is written exactly where its first record is. */
  predicate Introduced(sink: seq<Written>) {
    forall i | 0 <= i < |sink| :: sink[i].ProcessStarted? <==> About(sink[i]) !in Subjects(sink[..i])
  }

  /** `announced` is who has been written of, and each was introduced first, once. */
  ghost predicate Introduces(t: Tracker) {
    && Introduced(t.sink) && t.announced == Subjects(t.sink)
    && forall p | p in t.processes :: t.processes[p].process.pid == p
  }

  lemma SubjectsGrow(sink: seq<Written>, w: Written)
    ensures Subjects(sink + [w]) == Subjects(sink) + {About(w)}
  {
    var more := sink + [w];
    assert more[|sink|] == w;
    forall p | p in Subjects(sink) ensures p in Subjects(more) {
      var i :| 0 <= i < |sink| && About(sink[i]) == p;
      assert more[i] == sink[i];
    }
  }

  lemma WriteIntroduces(t: Tracker, w: Written)
    requires Introduces(t) && !w.ProcessStarted?
    ensures Introduces(Write(Announce(t, About(w)), w))
  {
    var started := Announce(t, About(w));
    if About(w) !in t.announced {
      SubjectsGrow(t.sink, ProcessStarted(About(w)));
      AppendIntroduced(t.sink, ProcessStarted(About(w)));
    }
    SubjectsGrow(started.sink, w);
    AppendIntroduced(started.sink, w);
  }

  lemma AppendIntroduced(sink: seq<Written>, w: Written)
    requires Introduced(sink) && (w.ProcessStarted? <==> About(w) !in Subjects(sink))
    ensures Introduced(sink + [w])
  {
    hide Subjects;
    var more := sink + [w];
    forall i | 0 <= i < |more| ensures more[i].ProcessStarted? <==> About(more[i]) !in Subjects(more[..i]) {
      if i < |sink| {
        assert more[..i] == sink[..i];
      } else {
        assert more[..i] == sink;
      }
    }
  }

  lemma HandleIntroduces(t: Tracker, m: Message, titles: Titles)
    requires t.clock.Valid() && Introduces(t)
    ensures Introduces(Handle(t, m, titles))
  {
    hide Introduced, Subjects, Announce, Write, RunProgram, ExitStep;
    var t1 := Claim(t, m);
    var ns := t.clock.Ns(m.time);
    if m.pid in t1.processes || IsLateOpen(t, m) {
      match m.event {
        case Fork(_) =>
        case Exec(argv, cwd, executable) =>
          ProgramIntroduces(t1, m.pid, ns, argv, cwd, executable, titles);
        case Exit(stat) =>
          ExitIntroduces(t1, m.pid, ns, stat);
        case Open(path, flags, fd, unresolved) =>
          WriteIntroduces(t1, FileOpened(m.pid, ns, path, flags, fd, unresolved));
        case Rename(from, to) =>
          WriteIntroduces(t1, FileRenamed(m.pid, ns, from, to));
      }
    }
  }

  lemma ProgramIntroduces(t: Tracker, pid: Pid, ns: nat, argv: seq<Text>, cwd: Text, executable: Text, titles: Titles)
    requires Introduces(t)
    ensures Introduces(RunProgram(t, pid, ns, argv, cwd, executable, titles))
  {
    hide Introduced, Subjects, Join, Ended;
    if pid in t.processes && t.processes[pid].process.execed {
      WriteIntroduces(t, SegmentEnded(t.processes[pid].process, Ended(t.processes[pid].segment, ns)));
    }
  }

  lemma ExitIntroduces(t: Tracker, pid: Pid, ns: nat, stat: int)
    requires Introduces(t)
    ensures Introduces(ExitStep(t, pid, ns, stat))
  {
    hide Introduced, Subjects, Ended, ExitCode;
    if pid in t.processes && !IsFailedSpawn(t, pid, stat) {
      var state := t.processes[pid];
      var closed := Ended(state.segment, ns).(exitCode := Some(ExitCode(stat)));
      WriteIntroduces(t, SegmentEnded(state.process, closed));
      var t1 := Write(Announce(t, pid), SegmentEnded(state.process, closed));
      WriteIntroduces(t1, ProcessExited(pid, state.segment.start));
      AnnouncedByWriting(t, SegmentEnded(state.process, closed));
    }
  }

  lemma AnnouncedByWriting(t: Tracker, w: Written)
    ensures About(w) in Announce(t, About(w)).announced
  {
  }

  lemma FinishIntroduces(t: Tracker, order: seq<Pid>, now: nat)
    requires Introduces(t) && forall i | 0 <= i < |order| :: order[i] in t.processes
    ensures Introduces(FinishAll(t, order, now))
  {
    hide Introduced, Subjects, Announce, Write;
    if order != [] {
      var n := |order| - 1;
      FinishIntroduces(t, order[..n], now);
      var before := FinishAll(t, order[..n], now);
      var state := before.processes[order[n]];
      WriteIntroduces(before, SegmentEnded(state.process, state.segment.(end := Max(now, state.segment.start))));
    }
  }

  lemma {:induction false} AllIntroduces(t: Tracker, ms: seq<Message>, titles: Titles)
    requires t.clock.Valid() && Introduces(t)
    ensures Introduces(HandleAll(t, ms, titles))
  {
    hide Introduces, Handle;
    if ms != [] {
      AllIntroduces(t, ms[..|ms| - 1], titles);
      HandleIntroduces(HandleAll(t, ms[..|ms| - 1], titles), ms[|ms| - 1], titles);
    }
  }

  /** The whole trace: everything handled, then every process still open ended. */
  function Trace(t: Tracker, ms: seq<Message>, titles: Titles, order: seq<Pid>, now: nat): seq<Written>
    requires t.clock.Valid()
    requires forall i | 0 <= i < |order| :: order[i] in HandleAll(t, ms, titles).processes
  {
    FinishAll(HandleAll(t, ms, titles), order, now).sink
  }

  /** A process's start is written once, before anything else of it, and only if there is anything else. */
  lemma StartsComeFirst(t: Tracker, ms: seq<Message>, titles: Titles, order: seq<Pid>, now: nat, i: nat)
    requires t.clock.Valid() && t.sink == [] && t.announced == {}
    requires forall p | p in t.processes :: t.processes[p].process.pid == p
    requires forall i | 0 <= i < |order| :: order[i] in HandleAll(t, ms, titles).processes
    requires i < |Trace(t, ms, titles, order, now)|
    ensures var trace := Trace(t, ms, titles, order, now);
            trace[i].ProcessStarted? <==> forall j | 0 <= j < i :: About(trace[j]) != About(trace[i])
  {
    hide HandleAll, FinishAll;
    AllIntroduces(t, ms, titles);
    FinishIntroduces(HandleAll(t, ms, titles), order, now);
    var trace := Trace(t, ms, titles, order, now);
    assert forall j | 0 <= j < i :: trace[..i][j] == trace[j];
  }

  // ---- Segments ----

  /** The segments written of `pid`, in the order they were written. */
  function Segments(sink: seq<Written>, pid: Pid): seq<Outline> {
    if sink == [] then [] else
      var w := sink[|sink| - 1];
      Segments(sink[..|sink| - 1], pid)
      + if w.SegmentEnded? && w.process.pid == pid then [OutlineOf(w.process, w.segment)] else []
  }

  function Says(segment: Segment): Caption {
    Caption(segment.name, segment.command, segment.cwd, segment.compilerWrapper)
  }

  function OutlineOf(process: Process, segment: Segment): Outline {
    Outline(process, Says(segment), segment.start, segment.end, segment.exitCode)
  }

  lemma WriteSegments(t: Tracker, w: Written, pid: Pid)
    ensures Segments(Write(t, w).sink, pid)
         == Segments(t.sink, pid)
            + (if w.SegmentEnded? && w.process.pid == pid then [OutlineOf(w.process, w.segment)] else [])
    ensures Segments(Announce(t, About(w)).sink, pid) == Segments(t.sink, pid)
  {
    assert (t.sink + [w])[..|t.sink|] == t.sink;
    assert (t.sink + [ProcessStarted(About(w))])[..|t.sink|] == t.sink;
  }

  /** The tracker's table and what it has written, as the lives so far call for. */
  ghost predicate Follows(t: Tracker, h: History) {
    && t.clock.Valid() && Genealogy(h) && t.processes.Keys == h.alive.Keys
    && (forall p | p in h.alive :: Reflects(t.clock, t.processes[p], h.births, h.alive[p]))
    && (forall p :: Segments(t.sink, p) == SegmentsOf(t.clock, h, p))
  }

  predicate Reflects(clock: Clock, state: ProcessState, births: seq<Birth>, life: Life)
    requires clock.Valid() && life.birth < |births|
  {
    && state.process == ProcessOf(births, life)
    && Says(state.segment) == CaptionOf(life)
    && state.segment.start == SegmentStart(clock, life) && state.segment.exitCode == None
  }

  lemma BornFollows(t: Tracker, h: History, pid: Pid, parent: Pid, time: nat)
    requires Follows(t, h) && pid !in h.alive
    ensures Follows(StartProcess(t, pid, parent, t.clock.Ns(time)), Born(h, pid, parent, time))
  {
    hide AllTiles, Segments, SegmentsOf, Reflects;
    var t1, h1 := StartProcess(t, pid, parent, t.clock.Ns(time)), Born(h, pid, parent, time);
    forall p | p in h.alive ensures Reflects(t.clock, t.processes[p], h1.births, h.alive[p]) {
      StillReflects(t.clock, t.processes[p], h.births, h1.births, h.alive[p]);
    }
    BornReflects(t, h, pid, parent, time);
    forall p ensures SegmentsOf(t.clock, h1, p) == SegmentsOf(t.clock, h, p) {
      BornSegments(t.clock, h, pid, parent, time,
                   if parent in h.alive then ForkOf(CaptionOf(h.alive[parent])) else ORPHAN, p);
    }
  }

  lemma StillReflects(clock: Clock, state: ProcessState, births: seq<Birth>, more: seq<Birth>, life: Life)
    requires clock.Valid() && births <= more && life.birth < |births| && Reflects(clock, state, births, life)
    ensures Reflects(clock, state, more, life)
  {
    ReplacedStays(clock, births, more, life);
  }

  lemma BornReflects(t: Tracker, h: History, pid: Pid, parent: Pid, time: nat)
    requires Follows(t, h) && pid !in h.alive
    ensures var h1 := Born(h, pid, parent, time);
            Reflects(t.clock, StartProcess(t, pid, parent, t.clock.Ns(time)).processes[pid], h1.births, h1.alive[pid])
  {
    hide Segments, SegmentsOf;
    if parent in h.alive {
      WalkUpStays(h.births, Born(h, pid, parent, time).births, h.alive[parent].birth);
    }
  }

  lemma BornSegments(clock: Clock, h: History, pid: Pid, parent: Pid, time: nat, caption: Caption, p: Pid)
    requires clock.Valid() && Genealogy(h) && pid !in h.alive
    ensures SegmentsOf(clock, BornAs(h, pid, parent, time, caption), p) == SegmentsOf(clock, h, p)
  {
    hide AllTiles;
    var h1 := BornAs(h, pid, parent, time, caption);
    AllTilesStay(clock, h.births, h1.births, h.ended, p);
    if p in h.alive {
      ReplacedStays(clock, h.births, h1.births, h.alive[p]);
    }
  }

  lemma {:induction false} JoinMore(words: seq<Text>, last: Text)
    requires words != []
    ensures Join(words + [last]) == Join(words) + [SPACE] + last
  {
    if |words| == 1 {
      assert (words + [last])[1..] == [last];
    } else {
      JoinMore(words[1..], last);
      assert (words + [last])[1..] == words[1..] + [last];
      assert words[0] + [SPACE] + (Join(words[1..]) + [SPACE] + last)
          == words[0] + [SPACE] + Join(words[1..]) + [SPACE] + last;
    }
  }

  lemma {:induction false} JoinIs(words: seq<Text>)
    ensures Join(words) == Spaced(words)
  {
    if |words| > 1 {
      var n := |words| - 1;
      JoinIs(words[..n]);
      JoinMore(words[..n], words[n]);
      assert words == words[..n] + [words[n]];
    }
  }

  lemma RanFollows(t: Tracker, h: History, pid: Pid, time: nat, argv: seq<Text>, cwd: Text, executable: Text,
                   titles: Titles)
    requires Follows(t, h) && pid in h.alive
    ensures Follows(RunProgram(t, pid, t.clock.Ns(time), argv, cwd, executable, titles),
                    Ran(h, pid, time, Captioned(pid, argv, cwd, executable, titles)))
  {
    hide Segments, SegmentsOf, Announce, Write, Join, Spaced, WalkUp, Ended;
    var caption := Captioned(pid, argv, cwd, executable, titles);
    JoinIs(if argv == [] then [executable] else argv);
    var t1, h1 := RunProgram(t, pid, t.clock.Ns(time), argv, cwd, executable, titles), Ran(h, pid, time, caption);
    forall p ensures Segments(t1.sink, p) == SegmentsOf(t.clock, h1, p) {
      RanWrites(t, pid, t.clock.Ns(time), argv, cwd, executable, titles, p);
      RanSegments(t.clock, h, pid, time, caption, p);
      RanOutline(t, h, pid, time);
    }
  }

  lemma RanOutline(t: Tracker, h: History, pid: Pid, time: nat)
    requires Follows(t, h) && pid in h.alive
    ensures OutlineOf(t.processes[pid].process, Ended(t.processes[pid].segment, t.clock.Ns(time)))
         == EndedBy(t.clock, h.births, h.alive[pid], time, None)
  {
    hide Segments, SegmentsOf, WalkUp;
  }

  /** The segment a life is in, ended at `time`. */
  function EndedBy(clock: Clock, births: seq<Birth>, life: Life, time: nat, exitCode: Option<nat>): Outline
    requires clock.Valid() && life.birth < |births|
  {
    var start := SegmentStart(clock, life);
    Outline(ProcessOf(births, life), CaptionOf(life), start, EndAt(start, clock.Ns(time)), exitCode)
  }

  lemma RanWrites(t: Tracker, pid: Pid, ns: nat, argv: seq<Text>, cwd: Text, executable: Text, titles: Titles, p: Pid)
    requires pid in t.processes && t.processes[pid].process.pid == pid
    ensures Segments(RunProgram(t, pid, ns, argv, cwd, executable, titles).sink, p)
         == if t.processes[pid].process.execed && p == pid
            then Segments(t.sink, p) + [OutlineOf(t.processes[pid].process, Ended(t.processes[pid].segment, ns))]
            else Segments(t.sink, p)
  {
    hide Segments, Join, Ended;
    var state := t.processes[pid];
    var w := SegmentEnded(state.process, Ended(state.segment, ns));
    WriteSegments(t, w, p);
    WriteSegments(Announce(t, pid), w, p);
  }

  lemma RanSegments(clock: Clock, h: History, pid: Pid, time: nat, caption: Caption, p: Pid)
    requires clock.Valid() && Genealogy(h) && pid in h.alive && Genealogy(Ran(h, pid, time, caption))
    ensures SegmentsOf(clock, Ran(h, pid, time, caption), p)
         == if h.alive[pid].execs != [] && p == pid
            then SegmentsOf(clock, h, p) + [EndedBy(clock, h.births, h.alive[pid], time, None)]
            else SegmentsOf(clock, h, p)
  {
    hide AllTiles, WalkUp, SegmentStart;
    var life, ran := h.alive[pid], Ran(h, pid, time, caption).alive[pid];
    assert ran.(execs := ran.execs[..|ran.execs| - 1]) == life;
  }

  lemma CloseFollows(t: Tracker, h: History, pid: Pid, time: nat, stat: int)
    requires Follows(t, h) && pid in h.alive
    ensures Follows(CloseProcess(t, pid, t.clock.Ns(time), stat), Died(h, pid, time, stat))
  {
    hide Segments, SegmentsOf, ExitCode, WalkUp, Ended, CloseProcess;
    var t1, h1 := CloseProcess(t, pid, t.clock.Ns(time), stat), Died(h, pid, time, stat);
    CloseKeeps(t, pid, t.clock.Ns(time), stat);
    forall p ensures Segments(t1.sink, p) == SegmentsOf(t.clock, h1, p) {
      DiedSegments(t.clock, h, pid, time, stat, p);
      DiedOutline(t, h, pid, time, stat);
      CloseWrites(t, pid, t.clock.Ns(time), stat, p);
    }
  }

  /** A process that is only forgotten never ran a second program, so nothing is owed of it. */
  lemma ForgetFollows(t: Tracker, h: History, pid: Pid)
    requires Follows(t, h) && pid in h.alive && h.alive[pid].execs == []
    ensures Follows(t.(processes := t.processes - {pid}), h.(alive := h.alive - {pid}))
  {
    hide Segments, AllTiles, Reflects;
    var h1 := h.(alive := h.alive - {pid});
    forall p ensures SegmentsOf(t.clock, h1, p) == SegmentsOf(t.clock, h, p) {
      ForgottenSegments(t.clock, h, pid, p);
    }
  }

  lemma ForgottenSegments(clock: Clock, h: History, pid: Pid, p: Pid)
    requires clock.Valid() && Genealogy(h) && pid in h.alive && h.alive[pid].execs == []
    requires Genealogy(h.(alive := h.alive - {pid}))
    ensures SegmentsOf(clock, h.(alive := h.alive - {pid}), p) == SegmentsOf(clock, h, p)
  {
    hide AllTiles;
  }

  lemma DiedOutline(t: Tracker, h: History, pid: Pid, time: nat, stat: int)
    requires Follows(t, h) && pid in h.alive
    ensures OutlineOf(t.processes[pid].process,
                      Ended(t.processes[pid].segment, t.clock.Ns(time)).(exitCode := Some(ExitCode(stat))))
         == EndedBy(t.clock, h.births, h.alive[pid], time, Some(ExitCode(stat)))
  {
    hide Segments, SegmentsOf, WalkUp, ExitCode;
  }

  lemma CloseKeeps(t: Tracker, pid: Pid, ns: nat, stat: int)
    requires pid in t.processes
    ensures var t1 := CloseProcess(t, pid, ns, stat); t1.processes == t.processes - {pid} && t1.clock == t.clock
  {
  }

  lemma CloseWrites(t: Tracker, pid: Pid, ns: nat, stat: int, p: Pid)
    requires pid in t.processes && t.processes[pid].process.pid == pid
    ensures Segments(CloseProcess(t, pid, ns, stat).sink, p)
         == if p == pid
            then Segments(t.sink, p)
                 + [OutlineOf(t.processes[pid].process, Ended(t.processes[pid].segment,
                                                              ns).(exitCode := Some(ExitCode(stat))))]
            else Segments(t.sink, p)
  {
    hide Segments, Ended, ExitCode;
    var state := t.processes[pid];
    var w := SegmentEnded(state.process, Ended(state.segment, ns).(exitCode := Some(ExitCode(stat))));
    WriteSegments(t, w, p);
    WriteSegments(Announce(t, pid), w, p);
    WriteSegments(Write(Announce(t, pid), w), ProcessExited(pid, state.segment.start), p);
  }

  lemma DiedSegments(clock: Clock, h: History, pid: Pid, time: nat, stat: int, p: Pid)
    requires clock.Valid() && Genealogy(h) && pid in h.alive && Genealogy(Died(h, pid, time, stat))
    ensures SegmentsOf(clock, Died(h, pid, time, stat), p)
         == if p == pid then SegmentsOf(clock, h, p) + [EndedBy(clock, h.births, h.alive[pid], time,
                                                                Some(ExitCode(stat)))]
            else SegmentsOf(clock, h, p)
  {
    hide WalkUp, SegmentStart, Replaced, ExitCode;
    var h1 := Died(h, pid, time, stat);
    assert h1.ended[..|h.ended|] == h.ended;
  }

  lemma OtherFollows(t: Tracker, h: History, w: Written)
    requires Follows(t, h) && !w.SegmentEnded?
    ensures Follows(Write(Announce(t, About(w)), w), h)
  {
    hide Segments, SegmentsOf, Reflects;
    forall p ensures Segments(Write(Announce(t, About(w)), w).sink, p) == Segments(t.sink, p) {
      WriteSegments(t, w, p);
      WriteSegments(Announce(t, About(w)), w, p);
    }
  }

  /** The tracker is where the account says, and has announced just who has been written of. */
  ghost predicate Keeps(t: Tracker, a: Account) {
    && |a.silent| == |a.history.ended| && Follows(t, Audible(a)) && t.announced == a.spoken
  }

  lemma WriteAnnounces(t: Tracker, w: Written)
    ensures Write(Announce(t, About(w)), w).announced == t.announced + {About(w)}
  {
  }

  lemma RunAnnounces(t: Tracker, pid: Pid, ns: nat, argv: seq<Text>, cwd: Text, executable: Text, titles: Titles)
    requires pid in t.processes
    ensures RunProgram(t, pid, ns, argv, cwd, executable, titles).announced
         == if t.processes[pid].process.execed then t.announced + {pid} else t.announced
  {
    hide Join, Ended;
  }

  lemma CloseAnnounces(t: Tracker, pid: Pid, ns: nat, stat: int)
    requires pid in t.processes
    ensures CloseProcess(t, pid, ns, stat).announced == t.announced + {pid}
  {
    hide ExitCode, Ended;
  }

  /** What a program does to the account: only its own life, and whether its pid is written of. */
  lemma ExecKeeps(t: Tracker, a: Account, m: Message, titles: Titles)
    requires Keeps(t, a) && m.event.Exec?
    ensures t.clock.Valid() && Keeps(Handle(t, m, titles), Accounted(a, m, titles))
  {
    hide Follows, RunProgram, StartProcess, Born, Ran;
    var h := Audible(a);
    SameKeys(t, h);
    if m.pid !in h.alive && m.ppid in h.alive {
      BornFollows(t, h, m.pid, m.ppid, m.time);
      BornRanNothing(h, m.pid, m.ppid, m.time);
    }
    var t1, h1 := Claim(t, m), Heard(h, m);
    SameKeys(t1, h1);
    HeardAudible(a, m, Captioned(m.pid, m.event.argv, m.event.cwd, m.event.executable, titles));
    if m.pid in h1.alive {
      RanFollows(t1, h1, m.pid, m.time, m.event.argv, m.event.cwd, m.event.executable, titles);
      RunAnnounces(t1, m.pid, t.clock.Ns(m.time), m.event.argv, m.event.cwd, m.event.executable, titles);
      FollowedState(t1, h1, m.pid);
    }
  }

  lemma BornRanNothing(h: History, pid: Pid, parent: Pid, time: nat)
    ensures var h1 := Born(h, pid, parent, time); pid in h1.alive && h1.alive[pid].execs == [] && h1.ended == h.ended
  {
  }

  lemma HeardAudible(a: Account, m: Message, caption: Caption)
    requires |a.silent| == |a.history.ended| && m.event.Exec?
    ensures var h, heard := Audible(a), Heard(a.history, m);
            && Heard(h, m) == heard.(ended := h.ended) && heard.ended == a.history.ended
            && (m.pid in heard.alive ==>
                  Ran(heard, m.pid, m.time, caption).(ended := h.ended) == Ran(Heard(h, m), m.pid, m.time, caption)
                  && Ran(heard, m.pid, m.time, caption).ended == a.history.ended)
  {
    hide Voiced;
  }

  lemma ExitKeeps(t: Tracker, a: Account, m: Message, titles: Titles)
    requires Keeps(t, a) && m.event.Exit?
    ensures t.clock.Valid() && Keeps(Handle(t, m, titles), Accounted(a, m, titles))
  {
    hide Follows, CloseProcess;
    var h, stat := Audible(a), m.event.stat;
    SameKeys(t, h);
    if m.pid in h.alive {
      FollowedState(t, h, m.pid);
      VoicedMore(a.history.ended, a.silent, Ending(h.alive[m.pid], m.time, stat), !Speaks(a, m));
      if Speaks(a, m) {
        CloseFollows(t, h, m.pid, m.time, stat);
        CloseAnnounces(t, m.pid, t.clock.Ns(m.time), stat);
      } else {
        ForgetFollows(t, h, m.pid);
      }
    }
  }

  lemma HandleKeeps(t: Tracker, a: Account, m: Message, titles: Titles)
    requires Keeps(t, a)
    ensures t.clock.Valid() && Keeps(Handle(t, m, titles), Accounted(a, m, titles))
  {
    var h := Audible(a);
    if m.event.Exec? {
      ExecKeeps(t, a, m, titles);
    } else if m.event.Exit? {
      ExitKeeps(t, a, m, titles);
    } else {
      hide Follows, StartProcess, Announce, Write, Born, Voiced;
      SameKeys(t, h);
      var ns := t.clock.Ns(m.time);
      match m.event {
        case Fork(child) =>
          if m.pid in h.alive && child !in h.alive {
            BornFollows(t, h, child, m.pid, m.time);
            BornAudible(a, child, m.pid, m.time);
          }
        case Open(path, flags, fd, unresolved) =>
          OtherFollows(t, h, FileOpened(m.pid, ns, path, flags, fd, unresolved));
          WriteAnnounces(t, FileOpened(m.pid, ns, path, flags, fd, unresolved));
        case Rename(from, to) =>
          OtherFollows(t, h, FileRenamed(m.pid, ns, from, to));
          WriteAnnounces(t, FileRenamed(m.pid, ns, from, to));
      }
    }
  }

  lemma BornAudible(a: Account, pid: Pid, parent: Pid, time: nat)
    requires |a.silent| == |a.history.ended|
    ensures var h := Audible(a);
            Born(a.history, pid, parent, time).(ended := h.ended) == Born(h, pid, parent, time)
            && Born(a.history, pid, parent, time).ended == a.history.ended
  {
    hide Voiced;
  }

  lemma SameKeys(t: Tracker, h: History)
    requires Follows(t, h)
    ensures t.clock.Valid() && t.processes.Keys == h.alive.Keys
  {
  }

  lemma {:induction false} AllKeep(t: Tracker, a: Account, ms: seq<Message>, titles: Titles)
    requires Keeps(t, a)
    ensures t.clock.Valid() && Keeps(HandleAll(t, ms, titles), AccountOf(a, ms, titles))
  {
    hide Follows, Handle, Accounted, Audible;
    KeepsClock(t, a);
    if ms != [] {
      AllKeep(t, a, ms[..|ms| - 1], titles);
      HandleKeeps(HandleAll(t, ms[..|ms| - 1], titles), AccountOf(a, ms[..|ms| - 1], titles), ms[|ms| - 1], titles);
    }
  }

  lemma KeepsClock(t: Tracker, a: Account)
    requires Keeps(t, a)
    ensures t.clock.Valid()
  {
  }

  lemma BeginningKeeps(clock: Clock, root: Pid, name: Text, command: Text, cwd: Text)
    requires clock.Valid()
    ensures Keeps(New(clock, root, name, command, cwd),
                  NoAccount(root, clock.origin, Caption(name, command, cwd, false)))
  {
    var t, h := New(clock, root, name, command, cwd), Beginning(root, clock.origin, Caption(name, command, cwd, false));
    assert clock.Ns(clock.origin) == 0;
    assert Audible(NoAccount(root, clock.origin, Caption(name, command, cwd, false))) == h;
    forall p ensures Segments(t.sink, p) == SegmentsOf(clock, h, p) {
    }
  }

  /** What the messages tell of lives, from the start of a recording. */
  function Story(clock: Clock, root: Pid, name: Text, command: Text, cwd: Text, ms: seq<Message>, titles: Titles)
      : (a: Account)
    ensures |a.silent| == |a.history.ended|
  {
    AccountHistory(NoAccount(root, clock.origin, Caption(name, command, cwd, false)), ms, titles);
    AccountOf(NoAccount(root, clock.origin, Caption(name, command, cwd, false)), ms, titles)
  }

  /**
   Whatever it is told, the tracker writes of each process exactly the segments its lives call for,
   the ends that leave nothing left out.
   */
  lemma SegmentsTellLives(clock: Clock, root: Pid, name: Text, command: Text, cwd: Text, ms: seq<Message>,
                          titles: Titles, p: Pid)
    requires clock.Valid()
    ensures var a := Story(clock, root, name, command, cwd, ms, titles);
            Genealogy(Audible(a))
            && Segments(HandleAll(New(clock, root, name, command, cwd), ms, titles).sink, p)
               == SegmentsOf(clock, Audible(a), p)
  {
    hide New, NoAccount, HandleAll, AccountOf, Audible, Segments, SegmentsOf, Genealogy;
    BeginningKeeps(clock, root, name, command, cwd);
    StartsAtClock(clock, root, name, command, cwd);
    AllKeep(New(clock, root, name, command, cwd), NoAccount(root, clock.origin, Caption(name, command, cwd, false)), ms,
            titles);
  }

  lemma StartsAtClock(clock: Clock, root: Pid, name: Text, command: Text, cwd: Text)
    ensures New(clock, root, name, command, cwd).clock == clock
  {
  }

  // ---- Conservation ----

  function EndingsOf(ended: seq<Ending>, pid: Pid): nat {
    if ended == [] then 0
    else EndingsOf(ended[..|ended| - 1], pid) + if ended[|ended| - 1].life.pid == pid then 1 else 0
  }

  /** Segments of `pid` that say how the process exited. */
  function Closings(outlines: seq<Outline>): nat {
    if outlines == [] then 0
    else Closings(outlines[..|outlines| - 1]) + if outlines[|outlines| - 1].exitCode.Some? then 1 else 0
  }

  function Reports(sink: seq<Written>, pid: Pid): nat {
    if sink == [] then 0
    else Reports(sink[..|sink| - 1], pid)
         + if sink[|sink| - 1].ProcessExited? && sink[|sink| - 1].pid == pid then 1 else 0
  }

  /** Each segment that says how a process exited goes with one exit report. */
  ghost predicate Conserves(t: Tracker, pid: Pid) {
    Reports(t.sink, pid) == Closings(Segments(t.sink, pid))
  }

  lemma WriteCounts(t: Tracker, w: Written, pid: Pid)
    ensures Reports(Write(t, w).sink, pid) == Reports(t.sink, pid) + (if w.ProcessExited? && w.pid == pid then 1 else 0)
    ensures Closings(Segments(Write(t, w).sink, pid))
         == Closings(Segments(t.sink, pid))
            + (if w.SegmentEnded? && w.process.pid == pid && w.segment.exitCode.Some? then 1 else 0)
  {
    WriteSegments(t, w, pid);
    assert (t.sink + [w])[..|t.sink|] == t.sink;
    var outlines := Segments(Write(t, w).sink, pid);
    if w.SegmentEnded? && w.process.pid == pid {
      assert outlines[..|outlines| - 1] == Segments(t.sink, pid);
    } else {
      assert outlines == Segments(t.sink, pid);
    }
  }

  lemma AnnounceCounts(t: Tracker, about: Pid, pid: Pid)
    ensures Reports(Announce(t, about).sink, pid) == Reports(t.sink, pid)
    ensures Segments(Announce(t, about).sink, pid) == Segments(t.sink, pid)
  {
    assert (t.sink + [ProcessStarted(about)])[..|t.sink|] == t.sink;
  }

  lemma CloseCounts(t: Tracker, pid: Pid, ns: nat, stat: int, p: Pid)
    requires pid in t.processes && t.processes[pid].process.pid == pid
    ensures var sink := CloseProcess(t, pid, ns, stat).sink;
            var one := if p == pid then 1 else 0;
            Closings(Segments(sink, p)) == Closings(Segments(t.sink, p)) + one
            && Reports(sink, p) == Reports(t.sink, p) + one
  {
    hide Segments, Closings, Reports, Announce, Ended, ExitCode;
    var state := t.processes[pid];
    var w := SegmentEnded(state.process, Ended(state.segment, ns).(exitCode := Some(ExitCode(stat))));
    var t1 := t.(processes := t.processes - {pid},
                 rootExitCode := if pid == t.rootPid then Some(Min(ExitCode(stat), 255)) else t.rootExitCode);
    AnnounceCounts(t1, pid, p);
    WriteCounts(Announce(t1, pid), w, p);
    WriteCounts(Write(Announce(t1, pid), w), ProcessExited(pid, state.segment.start), p);
  }

  lemma PlainCounts(t: Tracker, w: Written, p: Pid)
    requires !w.ProcessExited? && (w.SegmentEnded? ==> w.segment.exitCode.None?)
    ensures Closings(Segments(Write(Announce(t, About(w)), w).sink, p)) == Closings(Segments(t.sink, p))
    ensures Reports(Write(Announce(t, About(w)), w).sink, p) == Reports(t.sink, p)
  {
    hide Segments, Closings, Reports, Announce, Write;
    AnnounceCounts(t, About(w), p);
    WriteCounts(Announce(t, About(w)), w, p);
  }

  lemma ProgramCounts(t: Tracker, pid: Pid, ns: nat, argv: seq<Text>, cwd: Text, executable: Text, titles: Titles,
                      p: Pid)
    requires pid in t.processes && t.processes[pid].process.pid == pid && t.processes[pid].segment.exitCode.None?
    ensures var sink := RunProgram(t, pid, ns, argv, cwd, executable, titles).sink;
            Closings(Segments(sink, p)) == Closings(Segments(t.sink, p)) && Reports(sink, p) == Reports(t.sink, p)
  {
    hide Segments, Closings, Reports, Join;
    PlainCounts(t, SegmentEnded(t.processes[pid].process, Ended(t.processes[pid].segment, ns)), p);
  }

  lemma HandleConserves(t: Tracker, h: History, m: Message, titles: Titles, p: Pid)
    requires Follows(t, h) && Conserves(t, p)
    ensures Conserves(Handle(t, m, titles), p)
  {
    hide Follows, Closings, Segments, Reports, RunProgram, CloseProcess, StartProcess, Announce, Write;
    SameKeys(t, h);
    var ns := t.clock.Ns(m.time);
    match m.event {
      case Fork(child) =>
      case Exec(argv, cwd, executable) =>
        if m.pid in Claim(t, m).processes {
          ClaimedState(t, h, m);
          ProgramCounts(Claim(t, m), m.pid, ns, argv, cwd, executable, titles, p);
        }
      case Exit(stat) =>
        if m.pid in h.alive {
          FollowedState(t, h, m.pid);
          CloseCounts(t, m.pid, ns, stat, p);
        }
      case Open(path, flags, fd, unresolved) =>
        PlainCounts(t, FileOpened(m.pid, ns, path, flags, fd, unresolved), p);
      case Rename(from, to) =>
        PlainCounts(t, FileRenamed(m.pid, ns, from, to), p);
    }
  }

  lemma FollowedState(t: Tracker, h: History, pid: Pid)
    requires Follows(t, h) && pid in h.alive
    ensures Genealogy(h)
    ensures pid in t.processes && t.processes[pid].process.pid == pid && t.processes[pid].segment.exitCode.None?
    ensures t.processes[pid].process.execed <==> h.alive[pid].execs != []
  {
  }

  lemma ClaimedState(t: Tracker, h: History, m: Message)
    requires Follows(t, h)
    requires m.pid in Claim(t, m).processes
    ensures var state := Claim(t, m).processes[m.pid];
            state.process.pid == m.pid && state.segment.exitCode.None?
    ensures Claim(t, m).sink == t.sink
  {
    SameKeys(t, h);
    if m.pid in h.alive {
      FollowedState(t, h, m.pid);
    }
  }

  lemma {:induction false} AllConserve(t: Tracker, a: Account, ms: seq<Message>, titles: Titles, p: Pid)
    requires Keeps(t, a) && Conserves(t, p)
    ensures t.clock.Valid() && Conserves(HandleAll(t, ms, titles), p)
  {
    hide Keeps, Conserves, Handle, Accounted;
    KeepsClock(t, a);
    if ms != [] {
      var n := |ms| - 1;
      AllKeep(t, a, ms[..n], titles);
      AllConserve(t, a, ms[..n], titles, p);
      KeepsFollows(HandleAll(t, ms[..n], titles), AccountOf(a, ms[..n], titles));
      HandleConserves(HandleAll(t, ms[..n], titles), Audible(AccountOf(a, ms[..n], titles)), ms[n], titles, p);
    }
  }

  lemma KeepsFollows(t: Tracker, a: Account)
    requires Keeps(t, a)
    ensures |a.silent| == |a.history.ended| && Follows(t, Audible(a))
  {
  }

  lemma {:induction false} ClosingsConcat(a: seq<Outline>, b: seq<Outline>)
    ensures Closings(a + b) == Closings(a) + Closings(b)
  {
    if b == [] {
      assert a + b == a;
    } else {
      ClosingsConcat(a, b[..|b| - 1]);
      assert (a + b)[..|a + b| - 1] == a + b[..|b| - 1];
    }
  }

  lemma {:induction false} ReplacedNeverCloses(clock: Clock, births: seq<Birth>, life: Life)
    requires clock.Valid() && life.birth < |births|
    ensures Closings(Replaced(clock, births, life)) == 0
    decreases |life.execs|
  {
    hide WalkUp;
    if |life.execs| > 1 {
      ReplacedNeverCloses(clock, births, life.(execs := life.execs[..|life.execs| - 1]));
    }
  }

  /** Of the tiles of lives, one for each end says how the process exited. */
  lemma {:induction false} TilesClose(clock: Clock, births: seq<Birth>, ended: seq<Ending>, p: Pid)
    requires clock.Valid() && forall i | 0 <= i < |ended| :: ended[i].life.birth < |births|
    ensures Closings(AllTiles(clock, births, ended, p)) == EndingsOf(ended, p)
  {
    hide Replaced, WalkUp, ExitCode, EndAt;
    if ended != [] {
      var n := |ended| - 1;
      TilesClose(clock, births, ended[..n], p);
      var tiles := Tiles(clock, births, ended[n]);
      ClosingsConcat(AllTiles(clock, births, ended[..n], p), tiles);
      ReplacedNeverCloses(clock, births, ended[n].life);
      assert tiles[..|tiles| - 1] == Replaced(clock, births, ended[n].life);
      ClosingsConcat(AllTiles(clock, births, ended[..n], p), []);
    }
  }

  /**
   Over a whole recording, each end of `p` but those that leave nothing has one closing segment and one
   exit report.
   */
  lemma EndsAreConserved(clock: Clock, root: Pid, name: Text, command: Text, cwd: Text, ms: seq<Message>,
                         titles: Titles, p: Pid)
    requires clock.Valid()
    ensures var a := Story(clock, root, name, command, cwd, ms, titles);
            var sink := HandleAll(New(clock, root, name, command, cwd), ms, titles).sink;
            && Closings(Segments(sink, p)) == EndingsOf(Audible(a).ended, p)
            && Reports(sink, p) == EndingsOf(Audible(a).ended, p)
  {
    hide HandleAll, AccountOf, Keeps, Replaced, Segments;
    var a := Story(clock, root, name, command, cwd, ms, titles);
    var h := Audible(a);
    SegmentsTellLives(clock, root, name, command, cwd, ms, titles, p);
    TilesClose(clock, h.births, h.ended, p);
    if p in h.alive {
      ClosingsConcat(AllTiles(clock, h.births, h.ended, p), Replaced(clock, h.births, h.alive[p]));
      ReplacedNeverCloses(clock, h.births, h.alive[p]);
    } else {
      ClosingsConcat(AllTiles(clock, h.births, h.ended, p), []);
    }
    BeginningKeeps(clock, root, name, command, cwd);
    NothingReported(p);
    AllConserve(New(clock, root, name, command, cwd), NoAccount(root, clock.origin, Caption(name, command, cwd, false)),
                ms, titles, p);
  }

  lemma NothingReported(p: Pid)
    ensures Reports([], p) == 0 && Segments([], p) == [] && Closings([]) == 0
  {
  }

  // ---- Failed spawns ----

  lemma {:induction false} SpokenIsWritten(t: Tracker, ms: seq<Message>, titles: Titles, p: Pid)
    requires t.clock.Valid() && Introduces(t)
    ensures p in HandleAll(t, ms, titles).announced
       <==> exists i :: 0 <= i < |HandleAll(t, ms, titles).sink| && About(HandleAll(t, ms, titles).sink[i]) == p
  {
    hide Handle;
    AllIntroduces(t, ms, titles);
  }

  /**
   A child that ran no program and ends with a failed spawn's status leaves no record if and only if
   nothing was written of its pid before, whichever life that was. Otherwise it leaves what any
   process does: one segment, with that exit code, and one report.
   */
  lemma FailedSpawnLeavesNothingJustWhen(clock: Clock, root: Pid, name: Text, command: Text, cwd: Text,
                                         ms: seq<Message>, m: Message, titles: Titles)
    requires clock.Valid() && m.event.Exit? && m.pid in Story(clock, root, name, command, cwd, ms, titles).history.alive
    requires IsFailed(Story(clock, root, name, command, cwd, ms, titles).history.alive[m.pid], m.event.stat)
    ensures var before := HandleAll(New(clock, root, name, command, cwd), ms, titles);
            var after := Handle(before, m, titles);
            && (after.sink == before.sink <==> forall i | 0 <= i < |before.sink| :: About(before.sink[i]) != m.pid)
            && (after.sink != before.sink ==>
                  && |after.sink| == |before.sink| + 2 && before.sink <= after.sink
                  && after.sink[|before.sink|].SegmentEnded? && after.sink[|before.sink|].process.pid == m.pid
                  && !after.sink[|before.sink|].process.execed
                  && after.sink[|before.sink|].segment.exitCode == Some(ExitCode(FAILED_SPAWN_STAT))
                  && after.sink[|before.sink| + 1].ProcessExited?)
  {
    hide HandleAll, AccountOf, Follows, ExitCode, Ended, Introduces, Subjects;
    var start := New(clock, root, name, command, cwd);
    var before, a := HandleAll(start, ms, titles), Story(clock, root, name, command, cwd, ms, titles);
    BeginningKeeps(clock, root, name, command, cwd);
    NewIntroduces(clock, root, name, command, cwd);
    AllKeep(start, NoAccount(root, clock.origin, Caption(name, command, cwd, false)), ms, titles);
    SameKeys(before, Audible(a));
    FollowedState(before, Audible(a), m.pid);
    SpokenIsWritten(start, ms, titles, m.pid);
  }

  lemma NewIntroduces(clock: Clock, root: Pid, name: Text, command: Text, cwd: Text)
    ensures Introduces(New(clock, root, name, command, cwd))
  {
  }

  /** A failed spawn whose pid an earlier child had is written of, as if it had run. */
  lemma FailedSpawnOfAReusedPid(clock: Clock, root: Pid, child: Pid, name: Text, command: Text, cwd: Text,
                                titles: Titles)
    requires clock.Valid() && root != child
    ensures var ms := [Message(1, root, 0, Fork(child)), Message(2, child, 0, Exit(0)),
                       Message(3, root, 0, Fork(child)), Message(4, child, 0, Exit(FAILED_SPAWN_STAT))];
            var sink := HandleAll(New(clock, root, name, command, cwd), ms, titles).sink;
            && |sink| == 5 && sink[3].SegmentEnded? && sink[3].process.pid == child && !sink[3].process.execed
            && sink[3].segment.exitCode == Some(129)
  {
    var fork, exit := Message(1, root, 0, Fork(child)), Message(2, child, 0, Exit(0));
    var again, fail := Message(3, root, 0, Fork(child)), Message(4, child, 0, Exit(FAILED_SPAWN_STAT));
    var t0 := New(clock, root, name, command, cwd);
    var t1 := Handle(t0, fork, titles);
    var t2 := Handle(t1, exit, titles);
    var t3 := Handle(t2, again, titles);
    assert t1.sink == [] && child in t1.processes && root in t1.processes && !t1.processes[child].process.execed;
    assert t2.sink == [ProcessStarted(child), t2.sink[1], t2.sink[2]] && child in t2.announced && root in t2.processes;
    assert t3.sink == t2.sink && child in t3.processes && !t3.processes[child].process.execed;
    FourHandled(t0, fork, exit, again, fail, titles);
  }

  lemma FourHandled(t: Tracker, a: Message, b: Message, c: Message, d: Message, titles: Titles)
    requires t.clock.Valid()
    ensures HandleAll(t, [a, b, c, d], titles)
         == Handle(Handle(Handle(Handle(t, a, titles), b, titles), c, titles), d, titles)
  {
    hide Handle;
    assert [a, b, c, d][..3] == [a, b, c] && [a, b, c][..2] == [a, b] && [a, b][..1] == [a] && [a][..0] == [];
    assert HandleAll(t, [], titles) == t;
    assert HandleAll(t, [a], titles) == Handle(t, a, titles);
    assert HandleAll(t, [a, b], titles) == Handle(HandleAll(t, [a], titles), b, titles);
    assert HandleAll(t, [a, b, c], titles) == Handle(HandleAll(t, [a, b], titles), c, titles);
  }

  // ---- What is still open at the end ----

  predicate Distinct(order: seq<Pid>) {
    forall i, j | 0 <= i < j < |order| :: order[i] != order[j]
  }

  /** Ending what is still open gives each live process one more segment, and no other process any. */
  lemma {:induction false} FinishClosesEach(t: Tracker, order: seq<Pid>, now: nat, pid: Pid)
    requires Distinct(order) && forall i | 0 <= i < |order| :: order[i] in t.processes
    requires forall p | p in t.processes :: t.processes[p].process.pid == p
    ensures Segments(FinishAll(t, order, now).sink, pid)
         == if pid in order
            then Segments(t.sink, pid)
                 + [OutlineOf(t.processes[pid].process,
                              t.processes[pid].segment.(end := Max(now, t.processes[pid].segment.start)))]
            else Segments(t.sink, pid)
  {
    hide Segments, Announce, Write;
    if order != [] {
      var n := |order| - 1;
      FinishClosesEach(t, order[..n], now, pid);
      FinishCloses(FinishAll(t, order[..n], now), order[n], now, pid);
      assert pid in order <==> pid in order[..n] || pid == order[n];
      assert pid == order[n] ==> pid !in order[..n];
    }
  }

  lemma FinishCloses(t: Tracker, pid: Pid, now: nat, p: Pid)
    requires pid in t.processes && t.processes[pid].process.pid == pid
    ensures Segments(FinishOne(t, pid, now).sink, p)
         == if p == pid
            then Segments(t.sink, pid)
                 + [OutlineOf(t.processes[pid].process,
                              t.processes[pid].segment.(end := Max(now, t.processes[pid].segment.start)))]
            else Segments(t.sink, p)
  {
    hide Segments, Announce, Write;
    var state := t.processes[pid];
    var w := SegmentEnded(state.process, state.segment.(end := Max(now, state.segment.start)));
    WriteSegments(t, w, p);
    WriteSegments(Announce(t, pid), w, p);
  }

  /** Every process of the table, each once, in some order. */
  ghost predicate IsWalk<T>(order: seq<Pid>, processes: map<Pid, T>) {
    Distinct(order) && forall p :: p in order <==> p in processes
  }

  lemma WalkIsInTable<T>(order: seq<Pid>, processes: map<Pid, T>)
    requires IsWalk(order, processes)
    ensures forall i | 0 <= i < |order| :: order[i] in processes
  {
    forall i | 0 <= i < |order| ensures order[i] in processes {
      assert order[i] in order;
    }
  }

  /** The segment of a living process, ended as recording ends. */
  function StillOpen(clock: Clock, h: History, p: Pid, now: nat): seq<Outline>
    requires clock.Valid() && Genealogy(h)
  {
    if p in h.alive then
      var start := SegmentStart(clock, h.alive[p]);
      [Outline(ProcessOf(h.births, h.alive[p]), CaptionOf(h.alive[p]), start, Max(now, start), None)]
    else []
  }

  /** The whole of what is written: the segments lives call for, and one more of each process still open. */
  lemma FinishedTellsLives(clock: Clock, root: Pid, name: Text, command: Text, cwd: Text, ms: seq<Message>,
                           titles: Titles, order: seq<Pid>, now: nat, p: Pid)
    requires clock.Valid()
    requires IsWalk(order, HandleAll(New(clock, root, name, command, cwd), ms, titles).processes)
    ensures var h := Audible(Story(clock, root, name, command, cwd, ms, titles));
            && Genealogy(h)
            && (forall i | 0 <= i < |order| ::
                  order[i] in HandleAll(New(clock, root, name, command, cwd), ms, titles).processes)
            && Segments(FinishAll(HandleAll(New(clock, root, name, command, cwd), ms, titles), order, now).sink, p)
               == SegmentsOf(clock, h, p) + StillOpen(clock, h, p, now)
  {
    hide AccountOf, HandleAll, FinishAll, Segments, SegmentsOf, Audible, Keeps;
    var start := New(clock, root, name, command, cwd);
    var t, a := HandleAll(start, ms, titles), Story(clock, root, name, command, cwd, ms, titles);
    BeginningKeeps(clock, root, name, command, cwd);
    AllKeep(start, NoAccount(root, clock.origin, Caption(name, command, cwd, false)), ms, titles);
    KeepsFollows(t, a);
    WalkIsInTable(order, t.processes);
    TableIsOfPids(t, Audible(a));
    FinishClosesEach(t, order, now, p);
    SegmentsTellLives(clock, root, name, command, cwd, ms, titles, p);
    if p in t.processes {
      OpenOutline(t, Audible(a), p, now);
    }
  }

  lemma TableIsOfPids(t: Tracker, h: History)
    requires Follows(t, h)
    ensures t.processes.Keys == h.alive.Keys && forall p | p in t.processes :: t.processes[p].process.pid == p
  {
  }

  lemma OpenOutline(t: Tracker, h: History, p: Pid, now: nat)
    requires Follows(t, h) && p in t.processes
    ensures StillOpen(t.clock, h, p, now)
         == [OutlineOf(t.processes[p].process, t.processes[p].segment.(end := Max(now, t.processes[p].segment.start)))]
  {
    hide Segments, SegmentsOf, WalkUp;
  }

  // ---- Files ----

  predicate IsFileRecord(w: Written) {
    w.FileOpened? || w.FileRenamed?
  }

  function FileRecords(sink: seq<Written>): seq<Written> {
    if sink == [] then [] else
      FileRecords(sink[..|sink| - 1]) + if IsFileRecord(sink[|sink| - 1]) then [sink[|sink| - 1]] else []
  }

  /**
   The records that opens and renames call for: of each that speaks of a process in the account so far,
   one, with what it says and its time in nanoseconds.
   */
  function FilesTold(clock: Clock, a: Account, ms: seq<Message>, titles: Titles): seq<Written>
    requires clock.Valid()
  {
    if ms == [] then [] else
      var n := |ms| - 1;
      FilesTold(clock, a, ms[..n], titles) + FileTold(clock, AccountOf(a, ms[..n], titles), ms[n])
  }

  function FileTold(clock: Clock, a: Account, m: Message): seq<Written>
    requires clock.Valid()
  {
    if !Speaks(a, m) then [] else
      match m.event
      case Open(path, flags, fd, unresolved) =>
        [FileOpened(m.pid, clock.Ns(m.time), path, flags, fd, unresolved)]
      case Rename(from, to) => [FileRenamed(m.pid, clock.Ns(m.time), from, to)]
      case _ => []
  }

  lemma WriteFiles(t: Tracker, w: Written)
    ensures FileRecords(Write(Announce(t, About(w)), w).sink) == FileRecords(Write(t, w).sink)
         == if IsFileRecord(w) then FileRecords(t.sink) + [w] else FileRecords(t.sink)
  {
    assert (t.sink + [w])[..|t.sink|] == t.sink;
    var started := t.sink + [ProcessStarted(About(w))];
    assert started[..|t.sink|] == t.sink;
    assert (started + [w])[..|started|] == started;
  }

  lemma RunFiles(t: Tracker, pid: Pid, ns: nat, argv: seq<Text>, cwd: Text, executable: Text, titles: Titles)
    requires pid in t.processes ==> t.processes[pid].process.pid == pid
    ensures FileRecords(RunProgram(t, pid, ns, argv, cwd, executable, titles).sink) == FileRecords(t.sink)
  {
    hide FileRecords, Join, Ended;
    if pid in t.processes && t.processes[pid].process.execed {
      var w := SegmentEnded(t.processes[pid].process, Ended(t.processes[pid].segment, ns));
      WriteFiles(t.(processes := RunProgram(t, pid, ns, argv, cwd, executable, titles).processes), w);
    }
  }

  lemma ExitFiles(t: Tracker, pid: Pid, ns: nat, stat: int)
    requires pid in t.processes ==> t.processes[pid].process.pid == pid
    ensures FileRecords(ExitStep(t, pid, ns, stat).sink) == FileRecords(t.sink)
  {
    hide FileRecords, ExitCode, Ended;
    if pid in t.processes && !IsFailedSpawn(t, pid, stat) {
      var state := t.processes[pid];
      var w := SegmentEnded(state.process, Ended(state.segment, ns).(exitCode := Some(ExitCode(stat))));
      var t1 := t.(processes := t.processes - {pid},
                   rootExitCode := if pid == t.rootPid then Some(Min(ExitCode(stat), 255)) else t.rootExitCode);
      WriteFiles(t1, w);
      WriteFiles(Write(Announce(t1, pid), w), ProcessExited(pid, state.segment.start));
    }
  }

  lemma HandleFiles(t: Tracker, a: Account, m: Message, titles: Titles)
    requires Keeps(t, a)
    ensures t.clock.Valid()
    ensures FileRecords(Handle(t, m, titles).sink) == FileRecords(t.sink) + FileTold(t.clock, a, m)
  {
    hide Follows, FileRecords, RunProgram, ExitStep, StartProcess, Announce, Write, Voiced;
    var h := Audible(a);
    SameKeys(t, h);
    var ns := t.clock.Ns(m.time);
    match m.event {
      case Fork(_) =>
      case Exec(argv, cwd, executable) =>
        if m.pid in Claim(t, m).processes {
          ClaimedState(t, h, m);
        }
        RunFiles(Claim(t, m), m.pid, ns, argv, cwd, executable, titles);
      case Exit(stat) =>
        if m.pid in h.alive {
          FollowedState(t, h, m.pid);
        }
        ExitFiles(t, m.pid, ns, stat);
      case Open(path, flags, fd, unresolved) => WriteFiles(t, FileOpened(m.pid, ns, path, flags, fd, unresolved));
      case Rename(from, to) => WriteFiles(t, FileRenamed(m.pid, ns, from, to));
    }
  }

  lemma {:induction false} AllFiles(t: Tracker, a: Account, ms: seq<Message>, titles: Titles)
    requires Keeps(t, a)
    ensures t.clock.Valid()
    ensures FileRecords(HandleAll(t, ms, titles).sink) == FileRecords(t.sink) + FilesTold(t.clock, a, ms, titles)
  {
    hide Keeps, Handle, FileRecords, FileTold, Accounted;
    KeepsClock(t, a);
    if ms != [] {
      var n := |ms| - 1;
      AllFiles(t, a, ms[..n], titles);
      AllKeep(t, a, ms[..n], titles);
      HandleFiles(HandleAll(t, ms[..n], titles), AccountOf(a, ms[..n], titles), ms[n], titles);
    }
  }

  lemma {:induction false} FinishFiles(t: Tracker, order: seq<Pid>, now: nat)
    requires forall i | 0 <= i < |order| :: order[i] in t.processes
    requires forall p | p in t.processes :: t.processes[p].process.pid == p
    ensures FileRecords(FinishAll(t, order, now).sink) == FileRecords(t.sink)
  {
    hide FileRecords, Announce, Write;
    if order != [] {
      var n := |order| - 1;
      FinishFiles(t, order[..n], now);
      var before := FinishAll(t, order[..n], now);
      var state := before.processes[order[n]];
      WriteFiles(before, SegmentEnded(state.process, state.segment.(end := Max(now, state.segment.start))));
    }
  }

  /** The whole of what is written of files: just what opens and renames call for, in order. */
  lemma FinishedTellsFiles(clock: Clock, root: Pid, name: Text, command: Text, cwd: Text, ms: seq<Message>,
                           titles: Titles, order: seq<Pid>, now: nat)
    requires clock.Valid()
    requires IsWalk(order, HandleAll(New(clock, root, name, command, cwd), ms, titles).processes)
    ensures forall i | 0 <= i < |order| ::
              order[i] in HandleAll(New(clock, root, name, command, cwd), ms, titles).processes
    ensures FileRecords(FinishAll(HandleAll(New(clock, root, name, command, cwd), ms, titles), order, now).sink)
         == FilesTold(clock, NoAccount(root, clock.origin, Caption(name, command, cwd, false)), ms, titles)
  {
    hide HandleAll, FinishAll, FilesTold, AccountOf, Audible, Keeps, FileRecords;
    var start := New(clock, root, name, command, cwd);
    var a := NoAccount(root, clock.origin, Caption(name, command, cwd, false));
    BeginningKeeps(clock, root, name, command, cwd);
    AllKeep(start, a, ms, titles);
    AllFiles(start, a, ms, titles);
    var t := HandleAll(start, ms, titles);
    KeepsFollows(t, AccountOf(a, ms, titles));
    TableIsOfPids(t, Audible(AccountOf(a, ms, titles)));
    WalkIsInTable(order, t.processes);
    FinishFiles(t, order, now);
    assert FileRecords([]) == [] by { NoFilesYet(); }
    assert [] + FilesTold(clock, a, ms, titles) == FilesTold(clock, a, ms, titles);
  }

  lemma NoFilesYet()
    ensures FileRecords([]) == []
  {
  }

  // ---- How the root ended ----

  /** How `pid` last exited, by its segments. */
  function LastCode(outlines: seq<Outline>): Option<nat> {
    if outlines == [] then None
    else if outlines[|outlines| - 1].exitCode.Some? then outlines[|outlines| - 1].exitCode
    else LastCode(outlines[..|outlines| - 1])
  }

  /** The exit code of the build is the one its root's last closing segment shows. */
  ghost predicate RootTold(t: Tracker) {
    && t.rootExitCode == LastCode(Segments(t.sink, t.rootPid))
    && forall p | p in t.processes :: t.processes[p].process.pid == p && t.processes[p].segment.exitCode.None?
  }

  lemma WriteLast(t: Tracker, w: Written, pid: Pid)
    ensures LastCode(Segments(Write(t, w).sink, pid))
         == if w.SegmentEnded? && w.process.pid == pid && w.segment.exitCode.Some? then w.segment.exitCode
            else LastCode(Segments(t.sink, pid))
  {
    WriteSegments(t, w, pid);
    var outlines := Segments(Write(t, w).sink, pid);
    if w.SegmentEnded? && w.process.pid == pid {
      assert outlines[..|outlines| - 1] == Segments(t.sink, pid);
    } else {
      assert outlines == Segments(t.sink, pid);
    }
  }

  lemma HandleTellsRoot(t: Tracker, m: Message, titles: Titles)
    requires t.clock.Valid() && RootTold(t)
    ensures RootTold(Handle(t, m, titles))
  {
    hide LastCode, Segments, Announce, RunProgram, ExitStep;
    var t1, ns := Claim(t, m), t.clock.Ns(m.time);
    if m.pid in t1.processes || IsLateOpen(t, m) {
      AnnounceCounts(t1, m.pid, t.rootPid);
      match m.event {
        case Fork(_) =>
        case Exec(argv, cwd, executable) =>
          ProgramTellsRoot(t1, m.pid, ns, argv, cwd, executable, titles);
        case Exit(stat) =>
          ExitTellsRoot(t1, m.pid, ns, stat);
        case Open(path, flags, fd, unresolved) =>
          WriteLast(Announce(t1, m.pid), FileOpened(m.pid, ns, path, flags, fd, unresolved), t.rootPid);
        case Rename(from, to) =>
          WriteLast(Announce(t1, m.pid), FileRenamed(m.pid, ns, from, to), t.rootPid);
      }
    }
  }

  lemma ProgramTellsRoot(t: Tracker, pid: Pid, ns: nat, argv: seq<Text>, cwd: Text, executable: Text, titles: Titles)
    requires RootTold(t)
    ensures RootTold(RunProgram(t, pid, ns, argv, cwd, executable, titles))
  {
    hide LastCode, Segments, Join;
    if pid in t.processes && t.processes[pid].process.execed {
      AnnounceCounts(t, pid, t.rootPid);
      WriteLast(Announce(t, pid), SegmentEnded(t.processes[pid].process, Ended(t.processes[pid].segment, ns)),
                t.rootPid);
    }
  }

  lemma ExitTellsRoot(t: Tracker, pid: Pid, ns: nat, stat: int)
    requires RootTold(t)
    ensures RootTold(ExitStep(t, pid, ns, stat))
  {
    hide LastCode, Segments, Ended;
    if pid in t.processes && !IsFailedSpawn(t, pid, stat) {
      var state := t.processes[pid];
      var w := SegmentEnded(state.process, Ended(state.segment, ns).(exitCode := Some(ExitCode(stat))));
      AnnounceCounts(t, pid, t.rootPid);
      WriteLast(Announce(t, pid), w, t.rootPid);
      WriteLast(Write(Announce(t, pid), w), ProcessExited(pid, state.segment.start), t.rootPid);
    }
  }

  /** Whenever it is asked, the tracker gives the exit code of the root that its trace shows. */
  lemma {:induction false} RootExitCodeIsShown(clock: Clock, root: Pid, name: Text, command: Text, cwd: Text,
                                               ms: seq<Message>, titles: Titles)
    requires clock.Valid()
    ensures RootTold(HandleAll(New(clock, root, name, command, cwd), ms, titles))
  {
    hide RootTold, Handle;
    if ms == [] {
      FirstTellsRoot(clock, root, name, command, cwd);
    } else {
      var n := |ms| - 1;
      RootExitCodeIsShown(clock, root, name, command, cwd, ms[..n], titles);
      HandleTellsRoot(HandleAll(New(clock, root, name, command, cwd), ms[..n], titles), ms[n], titles);
    }
  }

  lemma FirstTellsRoot(clock: Clock, root: Pid, name: Text, command: Text, cwd: Text)
    ensures RootTold(New(clock, root, name, command, cwd))
  {
  }
}
