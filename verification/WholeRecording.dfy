/**
 The whole recorder, from the kernel's records to the file's bytes: whoever reads the bytes finds the
 processes the kernel reported, with the bounds, parents and build parents of kernel order.
 */
module WholeRecording {
  import opened Basics
  import opened Messages
  import opened TrackerModel
  import opened Lives
  import opened TraceWriter
  import opened TraceRoundTrip
  import opened EndToEnd
  import opened Refinement
  import opened Ledger
  import opened DeliveryOrder
  import C = CollectorModel
  import TrackerProofs
  import TraceObject

  // ---- Segments, as the file shows them ----

  /** A segment shorter than the shortest there is, written as that. */
  function Lengthened(o: Outline): Outline {
    o.(end := EndAt(o.start, o.end))
  }

  function AllLengthened(outlines: seq<Outline>): (shown: seq<Outline>)
    ensures |shown| == |outlines| && forall i | 0 <= i < |shown| :: shown[i] == Lengthened(outlines[i])
  {
    if outlines == [] then [] else
      AllLengthened(outlines[..|outlines| - 1]) + [Lengthened(outlines[|outlines| - 1])]
  }

  lemma {:induction false} SegmentsAsRead(sink: seq<Written>, p: Pid)
    ensures TrackerProofs.Segments(AllAsRead(sink), p) == AllLengthened(TrackerProofs.Segments(sink, p))
  {
    hide EndAt, TrackerProofs.Segments;
    if sink == [] {
      NothingSegmented(p);
    } else {
      var n := |sink| - 1;
      SegmentsAsRead(sink[..n], p);
      assert sink == sink[..n] + [sink[n]];
      SegmentsMore(sink[..n], sink[n], p);
      match sink[n] {
        case SegmentEnded(process, segment) =>
          var longer := segment.(end := EndAt(segment.start, segment.end));
          SegmentsMore(AllAsRead(sink[..n]), SegmentEnded(process, longer), p);
        case ProcessExited(_, _) =>
          assert AllAsRead(sink) == AllAsRead(sink[..n]);
        case _ =>
          SegmentsMore(AllAsRead(sink[..n]), sink[n], p);
      }
    }
  }

  /** The records of files are read as they were written. */
  lemma {:induction false} FilesAsRead(sink: seq<Written>)
    ensures TrackerProofs.FileRecords(AllAsRead(sink)) == TrackerProofs.FileRecords(sink)
  {
    hide EndAt;
    if sink != [] {
      var n := |sink| - 1;
      FilesAsRead(sink[..n]);
      FilesMore(AllAsRead(sink[..n]), sink[n]);
    }
  }

  lemma FilesMore(sink: seq<Written>, w: Written)
    ensures TrackerProofs.FileRecords(sink + AsRead(w))
         == TrackerProofs.FileRecords(sink) + if TrackerProofs.IsFileRecord(w) then [w] else []
  {
    hide EndAt;
    var read := AsRead(w);
    if |read| == 1 {
      assert (sink + read)[..|sink|] == sink;
    } else {
      assert sink + read == sink;
    }
  }

  lemma NothingSegmented(p: Pid)
    ensures TrackerProofs.Segments([], p) == []
  {
  }

  lemma SegmentsMore(sink: seq<Written>, w: Written, p: Pid)
    ensures TrackerProofs.Segments(sink + [w], p)
         == TrackerProofs.Segments(sink, p)
            + if w.SegmentEnded? && w.process.pid == p then [TrackerProofs.OutlineOf(w.process, w.segment)] else []
  {
    assert (sink + [w])[..|sink|] == sink;
  }

  /** A segment that ended as recording went on is as long as it is written already. */
  predicate LongEnough(o: Outline) {
    Lengthened(o) == o
  }

  lemma {:induction false} ReplacedLongEnough(clock: Clock, births: seq<Birth>, life: Life)
    requires clock.Valid() && life.birth < |births|
    ensures forall o | o in Replaced(clock, births, life) :: LongEnough(o)
    decreases |life.execs|
  {
    hide ProcessOf;
    if |life.execs| > 1 {
      ReplacedLongEnough(clock, births, life.(execs := life.execs[..|life.execs| - 1]));
    }
  }

  lemma {:induction false} TilesLongEnough(clock: Clock, births: seq<Birth>, ended: seq<Ending>, p: Pid)
    requires clock.Valid() && forall i | 0 <= i < |ended| :: ended[i].life.birth < |births|
    ensures forall o | o in AllTiles(clock, births, ended, p) :: LongEnough(o)
  {
    hide ProcessOf, Replaced, ExitCode;
    if ended != [] {
      var n := |ended| - 1;
      TilesLongEnough(clock, births, ended[..n], p);
      ReplacedLongEnough(clock, births, ended[n].life);
    }
  }

  lemma SegmentsLongEnough(clock: Clock, h: History, p: Pid, more: seq<Outline>)
    requires clock.Valid() && Genealogy(h)
    ensures AllLengthened(SegmentsOf(clock, h, p) + more) == SegmentsOf(clock, h, p) + AllLengthened(more)
  {
    hide AllTiles, Replaced, LongEnough;
    TilesLongEnough(clock, h.births, h.ended, p);
    if p in h.alive {
      ReplacedLongEnough(clock, h.births, h.alive[p]);
    }
    var outlines := SegmentsOf(clock, h, p);
    forall i | 0 <= i < |outlines| ensures Lengthened(outlines[i]) == outlines[i] {
      assert outlines[i] in outlines;
      LongEnoughStays(outlines[i]);
    }
  }

  lemma LongEnoughStays(o: Outline)
    requires LongEnough(o)
    ensures Lengthened(o) == o
  {
  }

  // ---- What the tracker writes is readable ----

  predicate NumbersFit(m: Message) {
    && IsI32(m.pid) && IsI32(m.ppid) && (m.event.Fork? ==> IsI32(m.event.child))
    && (m.event.Open? ==> m.event.flags < TWO_TO_64 && IsI32(m.event.fd))
  }

  predicate ProcessFits(p: Process) {
    IsI32(p.pid) && IsI32(p.parentPid) && IsI32(p.buildParentPid)
  }

  ghost predicate Sound(t: Tracker) {
    && t.clock.Valid()
    && (forall p | p in t.processes :: ProcessFits(t.processes[p].process) && t.processes[p].segment.start <= MAX_NS
                                       && t.processes[p].segment.exitCode.None?)
    && (forall i | 0 <= i < |t.sink| :: Readable(t.sink[i]))
  }

  lemma SayingIsSound(t: Tracker, w: Written)
    requires Sound(t) && Readable(w) && IsI32(About(w))
    ensures Sound(Write(Announce(t, About(w)), w)) && Sound(Write(t, w))
  {
    hide Readable, ProcessFits;
    assert Readable(ProcessStarted(About(w))) by { StartIsReadable(About(w), 0); }
  }

  lemma StartIsReadable(pid: Pid, start: nat)
    ensures Readable(ProcessStarted(pid)) <==> IsI32(pid)
    ensures Readable(ProcessExited(pid, start))
  {
  }

  lemma FileIsReadable(m: Message, ns: nat)
    requires NumbersFit(m) && ns <= MAX_NS
    ensures m.event.Open? ==>
              Readable(FileOpened(m.pid, ns, m.event.path, m.event.flags, m.event.fd, m.event.unresolved))
    ensures m.event.Rename? ==> Readable(FileRenamed(m.pid, ns, m.event.from, m.event.to))
  {
  }

  lemma EndedIsReadable(state: ProcessState, ns: nat, exitCode: Option<nat>)
    requires ProcessFits(state.process) && state.segment.start <= MAX_NS && ns <= MAX_NS
    requires exitCode.Some? ==> exitCode.value < 256
    ensures Readable(SegmentEnded(state.process, Ended(state.segment, ns).(exitCode := exitCode)))
  {
  }

  lemma StartIsSound(t: Tracker, pid: Pid, parent: Pid, ns: nat)
    requires Sound(t) && IsI32(pid) && IsI32(parent) && ns <= MAX_NS
    ensures Sound(StartProcess(t, pid, parent, ns))
  {
    hide Readable;
  }

  lemma RunIsSound(t: Tracker, pid: Pid, ns: nat, argv: seq<Text>, cwd: Text, executable: Text, titles: Titles)
    requires Sound(t) && ns <= MAX_NS && forall p | p in t.processes :: t.processes[p].process.pid == p
    ensures Sound(RunProgram(t, pid, ns, argv, cwd, executable, titles))
  {
    hide Readable, Announce, Write, Join, Ended, ProcessFits;
    if pid in t.processes && t.processes[pid].process.execed {
      var state := t.processes[pid];
      EndedIsReadable(state, ns, None);
      KeepsNone(state.segment, ns);
      var argv' := if argv == [] then [executable] else argv;
      var title := titles(pid, argv', executable);
      var next := Segment(ns, 0, title.name, Join(argv'), cwd, None, title.compilerWrapper);
      SayingIsSound(t.(processes := t.processes[pid := state.(segment := next)]),
                    SegmentEnded(state.process, Ended(state.segment, ns)));
    } else if pid in t.processes {
      FitsStill(t.processes[pid].process);
    }
  }

  lemma KeepsNone(segment: Segment, ns: nat)
    requires segment.exitCode.None?
    ensures Ended(segment, ns).(exitCode := None) == Ended(segment, ns)
  {
  }

  lemma FitsStill(p: Process)
    requires ProcessFits(p)
    ensures ProcessFits(p.(execed := true))
  {
  }

  lemma ExitIsSound(t: Tracker, pid: Pid, ns: nat, stat: int)
    requires Sound(t) && ns <= MAX_NS && forall p | p in t.processes :: t.processes[p].process.pid == p
    ensures Sound(ExitStep(t, pid, ns, stat))
  {
    hide Readable, Announce, Write, Ended, ExitCode, ProcessFits;
    if pid in t.processes && !IsFailedSpawn(t, pid, stat) {
      var state := t.processes[pid];
      EndedIsReadable(state, ns, Some(ExitCode(stat)));
      var closed := Ended(state.segment, ns).(exitCode := Some(ExitCode(stat)));
      var t1 := t.(processes := t.processes - {pid},
                   rootExitCode := if pid == t.rootPid then Some(Min(ExitCode(stat), 255)) else t.rootExitCode);
      SayingIsSound(t1, SegmentEnded(state.process, closed));
      StartIsReadable(pid, state.segment.start);
      SayingIsSound(Write(Announce(t1, pid), SegmentEnded(state.process, closed)),
                    ProcessExited(pid, state.segment.start));
    }
  }

  lemma HandleIsSound(t: Tracker, m: Message, titles: Titles)
    requires Sound(t) && NumbersFit(m) && forall p | p in t.processes :: t.processes[p].process.pid == p
    ensures Sound(Handle(t, m, titles))
    ensures forall p | p in Handle(t, m, titles).processes :: Handle(t, m, titles).processes[p].process.pid == p
  {
    hide Sound, RunProgram, ExitStep, Announce, Write;
    assert t.clock.Valid() by { SoundClock(t); }
    KeysStay(t, m, titles);
    var t1, ns := Claim(t, m), t.clock.Ns(m.time);
    if m.event.Exec? && m.pid !in t.processes && m.ppid in t.processes {
      StartIsSound(t, m.pid, m.ppid, ns);
    }
    if m.pid in t1.processes || IsLateOpen(t, m) {
      match m.event {
        case Fork(child) =>
          if child !in t1.processes {
            StartIsSound(t1, child, m.pid, ns);
          }
        case Exec(argv, cwd, executable) =>
          RunIsSound(t1, m.pid, ns, argv, cwd, executable, titles);
        case Exit(stat) =>
          ExitIsSound(t1, m.pid, ns, stat);
        case Open(path, flags, fd, unresolved) =>
          FileIsReadable(m, ns);
          SayingIsSound(t1, FileOpened(m.pid, ns, path, flags, fd, unresolved));
        case Rename(from, to) =>
          FileIsReadable(m, ns);
          SayingIsSound(t1, FileRenamed(m.pid, ns, from, to));
      }
    }
  }

  lemma SoundClock(t: Tracker)
    requires Sound(t)
    ensures t.clock.Valid()
  {
  }

  lemma KeysStay(t: Tracker, m: Message, titles: Titles)
    requires t.clock.Valid() && forall p | p in t.processes :: t.processes[p].process.pid == p
    ensures forall p | p in Handle(t, m, titles).processes :: Handle(t, m, titles).processes[p].process.pid == p
  {
    hide ExitCode, Ended, Join;
  }

  lemma {:induction false} AllIsSound(t: Tracker, ms: seq<Message>, titles: Titles)
    requires Sound(t) && (forall p | p in t.processes :: t.processes[p].process.pid == p)
    requires forall m | m in ms :: NumbersFit(m)
    ensures t.clock.Valid() && Sound(HandleAll(t, ms, titles))
    ensures forall p | p in HandleAll(t, ms, titles).processes :: HandleAll(t, ms, titles).processes[p].process.pid == p
  {
    hide Sound, Handle, NumbersFit;
    SoundClock(t);
    if ms != [] {
      var n := |ms| - 1;
      AllIsSound(t, ms[..n], titles);
      assert ms[n] in ms;
      HandleIsSound(HandleAll(t, ms[..n], titles), ms[n], titles);
    }
  }

  // ---- What the collector reports is readable ----

  /** Every process the collector knows of has a pid of 32 bits, as the kernel gives it, and held opens fit too. */
  ghost predicate KernelNumbers(s: C.State) {
    && (forall thread | thread in s.threads :: IsI32(s.threads[thread]))
    && (forall h | h in s.heldOpens :: IsI32(h.pid) && h.flags < TWO_TO_64 && IsI32(h.fd))
  }

  lemma FactNumbers(s: C.State, r: C.Record, env: C.Env)
    requires KernelNumbers(s)
    ensures forall m | m in Facts(s, r, env) :: NumbersFit(m)
  {
    hide C.SyscallStep;
    if r.thread in s.threads {
      var out := C.SyscallStep(s, s.threads[r.thread], r, env).out;
      forall m | m in out ensures NumbersFit(m) {
        var i :| 0 <= i < |out| && out[i] == m;
      }
    }
  }

  lemma ObserveThreads(s: C.State, r: C.Record, env: C.Env)
    ensures var t := C.Observe(s, r, env).state;
            forall thread | thread in t.threads ::
              t.threads[thread] == AsI32(r.args[1]) || (thread in s.threads && t.threads[thread] == s.threads[thread])
  {
    hide C.Interpret, C.Release, AsI32;
    if r.Code() == C.NEWTHREAD {
      NewThreads(C.Dequeued(s), r, env);
    }
  }

  lemma NewThreads(s: C.State, r: C.Record, env: C.Env)
    requires r.Code() == C.NEWTHREAD
    ensures C.Interpret(s, r, env).state.threads == s.threads[r.args[0] := AsI32(r.args[1])]
  {
    hide C.StartProcess, AsI32;
  }

  lemma ObserveNumbers(s: C.State, r: C.Record, env: C.Env)
    requires KernelNumbers(s)
    ensures KernelNumbers(C.Observe(s, r, env).state)
  {
    hide C.Observe, Facts, AsI32;
    ObserveThreads(s, r, env);
    ObserveHolds(s, r, env);
    assert IsI32(AsI32(r.args[1])) by { CastFits(r.args[1]); }
    var t := C.Observe(s, r, env).state;
    forall h | h in t.heldOpens ensures IsI32(h.pid) && h.flags < TWO_TO_64 && IsI32(h.fd) {
      if h !in s.heldOpens {
        assert t.heldOpens == s.heldOpens + [t.heldOpens[|s.heldOpens|]];
        assert r.thread in s.threads || IsI32(0);
      }
    }
  }

  lemma CastFits(word: Word)
    ensures IsI32(AsI32(word))
  {
  }

  lemma TickNumbers(s: C.State, env: C.Env)
    requires KernelNumbers(s)
    ensures KernelNumbers(C.Tick(s, env).state)
  {
    hide C.RetryCommandLines, C.BelieveExits, C.Release;
    TickHolds(s, env);
  }

  lemma {:induction false} RunNumbers(s: C.State, inputs: seq<C.Input>)
    requires KernelNumbers(s)
    ensures KernelNumbers(C.Run(s, inputs).state)
    ensures forall m | m in AllFacts(s, inputs) :: NumbersFit(m)
  {
    hide C.Observe, C.Tick, Facts, KernelNumbers, NumbersFit;
    if inputs != [] {
      var n := |inputs| - 1;
      RunNumbers(s, inputs[..n]);
      match inputs[n] {
        case Seen(r, env) =>
          ObserveNumbers(C.Run(s, inputs[..n]).state, r, env);
          FactNumbers(C.Run(s, inputs[..n]).state, r, env);
        case Ticked(env) =>
          TickNumbers(C.Run(s, inputs[..n]).state, env);
      }
    }
  }

  lemma OpenNumbers(s: C.State)
    requires KernelNumbers(s)
    ensures forall m | m in C.OpenMessages(s, s.heldOpens) :: NumbersFit(m)
  {
    forall m | m in C.OpenMessages(s, s.heldOpens) ensures NumbersFit(m) {
      var i :| 0 <= i < |s.heldOpens| && C.OpenMessages(s, s.heldOpens)[i] == m;
      assert s.heldOpens[i] in s.heldOpens;
    }
  }

  lemma ErasedNumbers(m: Message, x: Message)
    requires Erased(m) == Erased(x) && NumbersFit(x)
    ensures NumbersFit(m)
  {
  }

  /** Everything a recording reports happened or is a held open, so its pids fit. */
  lemma RecordingNumbers(s: C.State, inputs: seq<C.Input>, env: C.Env)
    requires IsNew(s) && KernelNumbers(s)
    ensures forall m | m in Recording(s, inputs, env) :: NumbersFit(m)
  {
    hide Recording, AllFacts, C.Run, C.OpenMessages, KernelNumbers, NumbersFit, Count, Erased, ExitCount;
    RunNumbers(s, inputs);
    OpenNumbers(C.Run(s, inputs).state);
    forall m | m in Recording(s, inputs, env) ensures NumbersFit(m) {
      var x := Erased(m);
      CountMember(Recording(s, inputs, env), m);
      RecordingBalances(s, inputs, env, x);
      if Count(AllFacts(s, inputs), x) > 0 {
        CountedIsThere(AllFacts(s, inputs), x);
        var fact :| fact in AllFacts(s, inputs) && Erased(fact) == x;
        ErasedNumbers(m, fact);
      } else {
        CountedIsThere(FlushOpens(s, inputs), x);
        var open :| open in FlushOpens(s, inputs) && Erased(open) == x;
        ErasedNumbers(m, open);
      }
    }
  }

  // ---- The whole ----

  lemma NewIsSound(clock: Clock, root: Pid, name: Text, command: Text, cwd: Text)
    requires clock.Valid() && IsI32(root)
    ensures Sound(New(clock, root, name, command, cwd))
    ensures forall p | p in New(clock, root, name, command, cwd).processes ::
              New(clock, root, name, command, cwd).processes[p].process.pid == p
  {
  }

  /** The bytes the trace writer writes of what a recording tracked. */
  function FileBytes(sink: seq<Written>): Text {
    TraceBytes(WriteItems(NEW_TRACE, AllItems(sink)).packets)
  }

  lemma {:induction false} FinishIsSound(t: Tracker, order: seq<Pid>, now: nat)
    requires Sound(t) && now <= MAX_NS && (forall p | p in t.processes :: t.processes[p].process.pid == p)
    requires forall i | 0 <= i < |order| :: order[i] in t.processes
    ensures Sound(FinishAll(t, order, now))
  {
    hide Sound, Announce, Write;
    if order != [] {
      var n := |order| - 1;
      FinishIsSound(t, order[..n], now);
      OneMoreIsSound(FinishAll(t, order[..n], now), order[n], now);
    }
  }

  lemma OneMoreIsSound(t: Tracker, pid: Pid, now: nat)
    requires Sound(t) && now <= MAX_NS && pid in t.processes && t.processes[pid].process.pid == pid
    ensures Sound(FinishOne(t, pid, now))
  {
    hide Announce, Write;
    var state := t.processes[pid];
    SayingIsSound(t, SegmentEnded(state.process, state.segment.(end := Max(now, state.segment.start))));
  }

  lemma SinkIsReadable(clock: Clock, s: C.State, inputs: seq<C.Input>, env: C.Env, name: Text, command: Text,
                       cwd: Text, titles: Titles, order: seq<Pid>, now: nat)
    requires clock.Valid() && IsNew(s) && KernelNumbers(s) && IsI32(s.root) && now <= MAX_NS
    requires TrackerProofs.IsWalk(order, Tracked(clock, s, inputs, env, name, command, cwd, titles).processes)
    ensures var sink := Sink(clock, s, inputs, env, name, command, cwd, titles, order, now);
            forall i | 0 <= i < |sink| :: Readable(sink[i])
  {
    hide Recording, KernelNumbers, HandleAll, FinishAll, New, Sound, NumbersFit, Readable;
    var t := Tracked(clock, s, inputs, env, name, command, cwd, titles);
    RecordingNumbers(s, inputs, env);
    NewIsSound(clock, s.root, name, command, cwd);
    AllIsSound(New(clock, s.root, name, command, cwd), Recording(s, inputs, env), titles);
    TrackerProofs.WalkIsInTable(order, t.processes);
    FinishIsSound(t, order, now);
    SoundSink(FinishAll(t, order, now));
  }

  /**
   From the kernel to the file the recorder leaves. Reading its bytes gives back every record, and the
   segments found there for a pid are those of its lives as the kernel reported them: started at the
   fork, split at each program, ended at the exit, or as recording ended, under the build parent of
   kernel order, with the text of each program's report. The files found there are those the recording
   tells of. None of it depends on when messages were delivered, or on how strings were interned.
   */
  lemma FileTellsKernelHistory(clock: Clock, s: C.State, inputs: seq<C.Input>, env: C.Env,
                               name: Text, command: Text, cwd: Text, titles: Titles,
                               order: seq<Pid>, now: nat, p: Pid)
    requires clock.Valid() && IsNew(s) && QuietRun(s, inputs) && KernelNumbers(s) && IsI32(s.root) && now <= MAX_NS
    requires TrackerProofs.IsWalk(order, Tracked(clock, s, inputs, env, name, command, cwd, titles).processes)
    requires var sink := Sink(clock, s, inputs, env, name, command, cwd, titles, order, now);
             4 * |sink| < TWO_TO_64 - 4 && TraceObject.Fits(WriteItems(NEW_TRACE, AllItems(sink)).packets)
    ensures var sink := Sink(clock, s, inputs, env, name, command, cwd, titles, order, now);
            var read, a := ReadTrace(FileBytes(sink)), Told(clock, s, inputs, env, name, command, cwd, titles);
            && read.Some? && RecordsRead(read.value) == AllAsRead(sink)
            && a.history == KernelHistory(clock, s, inputs, env, name, command, cwd, titles) && Genealogy(Audible(a))
            && TrackerProofs.Segments(RecordsRead(read.value), p)
               == SegmentsOf(clock, Audible(a), p)
                  + AllLengthened(TrackerProofs.StillOpen(clock, Audible(a), p, now))
            && TrackerProofs.FileRecords(RecordsRead(read.value))
               == TrackerProofs.FilesTold(clock, NoAccount(s.root, clock.origin, Caption(name, command, cwd, false)),
                                          Recording(s, inputs, env), titles)
  {
    hide QuietRun, KernelNumbers, KernelHistory, WriteItems, TraceBytes, ReadTrace, AllItems, AllAsRead, RecordsRead,
         TrackerProofs.Segments, TrackerProofs.StillOpen, TrackerProofs.IsWalk, SegmentsOf, Genealogy, TraceObject.Fits,
         Readable, Sink, Tracked, Told, Audible, TrackerProofs.FileRecords, TrackerProofs.FilesTold, Recording;
    var sink := Sink(clock, s, inputs, env, name, command, cwd, titles, order, now);
    SinkIsReadable(clock, s, inputs, env, name, command, cwd, titles, order, now);
    BytesTellRecords(sink);
    SegmentsAsRead(sink, p);
    SegmentsTellKernelHistory(clock, s, inputs, env, name, command, cwd, titles, order, now, p);
    var h := Audible(Told(clock, s, inputs, env, name, command, cwd, titles));
    SegmentsLongEnough(clock, h, p, TrackerProofs.StillOpen(clock, h, p, now));
    FilesAsRead(sink);
    SinkTellsFiles(clock, s, inputs, env, name, command, cwd, titles, order, now);
  }

  lemma SinkTellsFiles(clock: Clock, s: C.State, inputs: seq<C.Input>, env: C.Env, name: Text, command: Text,
                       cwd: Text, titles: Titles, order: seq<Pid>, now: nat)
    requires clock.Valid()
    requires TrackerProofs.IsWalk(order, Tracked(clock, s, inputs, env, name, command, cwd, titles).processes)
    ensures TrackerProofs.FileRecords(Sink(clock, s, inputs, env, name, command, cwd, titles, order, now))
         == TrackerProofs.FilesTold(clock, NoAccount(s.root, clock.origin, Caption(name, command, cwd, false)),
                                    Recording(s, inputs, env), titles)
  {
    hide Recording, HandleAll, FinishAll, New, TrackerProofs.FileRecords, TrackerProofs.FilesTold, TrackerProofs.IsWalk;
    TrackerProofs.FinishedTellsFiles(clock, s.root, name, command, cwd, Recording(s, inputs, env), titles, order, now);
  }

  lemma SoundSink(t: Tracker)
    requires Sound(t)
    ensures forall i | 0 <= i < |t.sink| :: Readable(t.sink[i])
  {
  }
}
