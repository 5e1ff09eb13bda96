/**
 The collector and the tracker together. However late command lines are read, the segments written
 are those of the processes as the kernel reported them, in the order it reported them, and each says what
 the records and the answers to reading its process say of its program.
 */
module EndToEnd {
  import opened Basics
  import opened Messages
  import opened CollectorModel
  import T = TrackerModel
  import opened DeliveryOrder
  import opened Ledger
  import opened Refinement
  import KernelFiles
  import opened KernelFilesProofs
  import opened ExecTexts
  import opened ExecTextsProofs
  import opened Lives
  import TrackerProofs

  // ---- What happened, in full ----

  /** What the first so many records say happened, each program as the recording reports it. */
  ghost function Happenings(s: State, inputs: seq<Input>, last: Env, k: nat): seq<Message>
    requires k <= |inputs|
  {
    if k == 0 then [] else
      Happenings(s, inputs, last, k - 1)
      + if IsProgram(s, inputs, k - 1) then [Recorded(s, inputs, last, k - 1)]
        else InputFacts(Run(s, inputs[..k - 1]).state, inputs[k - 1])
  }

  ghost function AllHappenings(s: State, inputs: seq<Input>, last: Env): seq<Message> {
    Happenings(s, inputs, last, |inputs|)
  }

  /** A program's report is its start, but for what it says. */
  lemma RecordedAsFact(s: State, inputs: seq<Input>, last: Env, k: nat)
    requires IsProgram(s, inputs, k)
    ensures inputs[k].Seen? && Recorded(s, inputs, last, k).time == inputs[k].record.timestamp
    ensures ErasedAll([Recorded(s, inputs, last, k)]) == InputFacts(Run(s, inputs[..k]).state, inputs[k])
  {
    hide Run, LastReportOf, ReportBy, TellsOf, IsUnread, SaidOf, NameAt, HomeOf, IsGiven, SyscallStep,
         KernelFiles.Speaker, AsI32;
    SpeakerIs(s, inputs[..k], inputs[k].record.thread);
    RecordedSays(s, inputs, last, k);
  }

  lemma RecordedSays(s: State, inputs: seq<Input>, last: Env, k: nat)
    requires IsProgram(s, inputs, k)
    ensures var p, m := ProgramAt(s, inputs, k).value, Recorded(s, inputs, last, k);
            m.time == p.time && m.pid == p.pid && m.ppid == 0 && m.event.Exec?
  {
    hide LastReportOf, ReportBy, TellsOf, ReportOf, IsUnread, ProgramAt;
    if ReportBy(s, inputs, k).Some? {
      var n := ReportIsTelling(s, inputs, k);
      SameProgram(s, inputs, k, n);
      ReportSays(s, inputs[..n], k);
    } else {
      LastReportIs(s, inputs, last, k);
      var longer := inputs + [Ticked(last)];
      assert longer[..|inputs|] == inputs;
      SameProgram(s, longer, k, |inputs|);
      ReportSays(s, longer, k);
    }
  }

  lemma ReportSays(s: State, inputs: seq<Input>, k: nat)
    requires IsProgram(s, inputs, k)
    ensures var p, m := ProgramAt(s, inputs, k).value, ReportOf(s, inputs, k);
            m.time == p.time && m.pid == p.pid && m.ppid == 0 && m.event.Exec?
  {
    hide ProgramAt, SaidOf, HomeOf, NameAt, IsGiven;
  }

  lemma SameProgram(s: State, inputs: seq<Input>, k: nat, n: nat)
    requires k < n <= |inputs|
    ensures ProgramAt(s, inputs[..n], k) == ProgramAt(s, inputs, k)
  {
    hide KernelFiles.Speaker;
    assert inputs[..n][..k] == inputs[..k];
  }

  /** Erased, that is what `Ledger` takes the records to say. */
  lemma {:induction false} HappeningsAreFacts(s: State, inputs: seq<Input>, last: Env, k: nat)
    requires k <= |inputs|
    ensures ErasedAll(Happenings(s, inputs, last, k)) == AllFacts(s, inputs[..k])
  {
    hide Run, InputFacts, Recorded, IsProgram, AllFacts, ErasedAll;
    if k == 0 {
      NothingHappened(s, inputs);
    } else {
      HappeningsAreFacts(s, inputs, last, k - 1);
      FactsMore(s, inputs, k);
      var t := Run(s, inputs[..k - 1]).state;
      var before := Happenings(s, inputs, last, k - 1);
      if IsProgram(s, inputs, k - 1) {
        RecordedAsFact(s, inputs, last, k - 1);
        ErasedConcat(before, [Recorded(s, inputs, last, k - 1)]);
      } else {
        InputFactsErased(t, inputs[k - 1]);
        ErasedConcat(before, InputFacts(t, inputs[k - 1]));
      }
    }
  }

  lemma NothingHappened(s: State, inputs: seq<Input>)
    ensures ErasedAll([]) == AllFacts(s, inputs[..0])
  {
  }

  lemma FactsMore(s: State, inputs: seq<Input>, k: nat)
    requires 0 < k <= |inputs|
    ensures AllFacts(s, inputs[..k])
         == AllFacts(s, inputs[..k - 1]) + InputFacts(Run(s, inputs[..k - 1]).state, inputs[k - 1])
  {
    hide Run, InputFacts;
    assert inputs[..k][..k - 1] == inputs[..k - 1];
  }

  lemma InputFactsErased(t: State, input: Input)
    ensures ErasedAll(InputFacts(t, input)) == InputFacts(t, input)
  {
    hide Facts;
    if input.Seen? {
      FactsErased(t, input.record, input.env);
    }
  }

  /** An exec among what happened is the report of the program that started then. */
  lemma {:induction false} HappenedExec(s: State, inputs: seq<Input>, last: Env, k: nat, m: Message) returns (j: nat)
    requires k <= |inputs| && m in Happenings(s, inputs, last, k) && m.event.Exec?
    ensures IsProgram(s, inputs, j) && m == Recorded(s, inputs, last, j)
  {
    hide Run, Facts, Recorded, ProgramAt;
    if m in Happenings(s, inputs, last, k - 1) {
      j := HappenedExec(s, inputs, last, k - 1, m);
    } else {
      j := k - 1;
      if !IsProgram(s, inputs, j) {
        OthersRunNothing(s, inputs, j, m);
      }
    }
  }

  lemma OthersRunNothing(s: State, inputs: seq<Input>, j: nat, m: Message)
    requires j < |inputs| && !IsProgram(s, inputs, j) && m in InputFacts(Run(s, inputs[..j]).state, inputs[j])
    ensures !m.event.Exec?
  {
    hide Run, SyscallStep, KernelFiles.Speaker, AsI32;
    if inputs[j].Seen? {
      SpeakerIs(s, inputs[..j], inputs[j].record.thread);
      var t := Run(s, inputs[..j]).state;
      if IsFollowedThread(t, inputs[j].record.thread) {
        var out := SyscallStep(t, t.threads[inputs[j].record.thread], inputs[j].record, inputs[j].env).out;
        if m in out {
          var i :| 0 <= i < |out| && out[i] == m;
        }
      }
    }
  }

  /** In a quiet run no two records have one time. */
  lemma {:induction false} TimesDiffer(s: State, inputs: seq<Input>, j: nat, k: nat)
    requires QuietRun(s, inputs) && j < k < |inputs| && inputs[j].Seen? && inputs[k].Seen?
    ensures inputs[j].record.timestamp < inputs[k].record.timestamp
  {
    hide Quiet, Run;
    var n := |inputs| - 1;
    if k == n {
      SeenByThen(s, inputs[..n], j);
      LatestIs(s, inputs[..n]);
    } else {
      TimesDiffer(s, inputs[..n], j, k);
    }
  }

  lemma {:induction false} SeenByThen(s: State, inputs: seq<Input>, j: nat)
    requires j < |inputs| && inputs[j].Seen?
    ensures inputs[j].record.timestamp <= LatestOf(s, inputs)
  {
    if j < |inputs| - 1 {
      SeenByThen(s, inputs[..|inputs| - 1], j);
    }
  }

  lemma {:induction false} OthersErased(ms: seq<Message>, times: set<nat>)
    ensures ErasedAll(Others(ms, times)) == Others(ErasedAll(ms), times)
    ensures forall m | m in Others(ms, times) :: m in ms
  {
    if ms != [] {
      OthersErased(ms[1..], times);
      assert ErasedAll(ms) == [Erased(ms[0])] + ErasedAll(ms[1..]);
      OthersStep(Erased(ms[0]), ErasedAll(ms[1..]), times);
    }
  }

  /**
   But for the opens the flush places, a quiet recording is exactly what happened, in the order it did, and
   each program as what `ExecTexts` says of it.
   */
  lemma RecordingIsInFull(s: State, inputs: seq<Input>, last: Env)
    requires IsNew(s) && QuietRun(s, inputs)
    ensures var times := HeldTimes(Run(s, inputs).state.heldOpens);
            Others(Recording(s, inputs, last), times) == AllHappenings(s, inputs, last)
  {
    hide Run, Recording, AllFacts, HeldTimes, Others, QuietRun, Happenings, Recorded, IsProgram;
    var times := HeldTimes(Run(s, inputs).state.heldOpens);
    var told, happened := Others(Recording(s, inputs, last), times), AllHappenings(s, inputs, last);
    RecordingIsWhatHappened(s, inputs, last);
    OthersErased(Recording(s, inputs, last), times);
    HappeningsAreFacts(s, inputs, last, |inputs|);
    assert inputs[..|inputs|] == inputs;
    assert ErasedAll(told) == ErasedAll(happened);
    forall i | 0 <= i < |told| ensures told[i] == happened[i] {
      assert Erased(told[i]) == ErasedAll(told)[i] == ErasedAll(happened)[i] == Erased(happened[i]);
      assert told[i] in told && happened[i] in happened;
      if told[i].event.Exec? {
        SameReport(s, inputs, last, told[i], happened[i]);
      }
    }
  }

  lemma SameReport(s: State, inputs: seq<Input>, last: Env, told: Message, happened: Message)
    requires IsNew(s) && QuietRun(s, inputs) && told in Recording(s, inputs, last)
    requires happened in AllHappenings(s, inputs, last) && told.time == happened.time
    requires told.event.Exec? && happened.event.Exec?
    ensures told == happened
  {
    hide Recording, QuietRun, Happenings, Recorded, IsProgram;
    ExecsAreReports(s, inputs, last, told);
    var k: nat :| IsProgram(s, inputs, k) && told == Recorded(s, inputs, last, k);
    var j := HappenedExec(s, inputs, last, |inputs|, happened);
    RecordedAsFact(s, inputs, last, k);
    RecordedAsFact(s, inputs, last, j);
    assert k < |inputs| && j < |inputs| by { ProgramsAreInputs(s, inputs, k, j); }
    if j < k {
      TimesDiffer(s, inputs, j, k);
    } else if k < j {
      TimesDiffer(s, inputs, k, j);
    }
  }

  lemma ProgramsAreInputs(s: State, inputs: seq<Input>, j: nat, k: nat)
    requires IsProgram(s, inputs, j) && IsProgram(s, inputs, k)
    ensures j < |inputs| && k < |inputs|
  {
  }

  // ---- What it tells of lives ----

  /** What the kernel reported of lives, in the order it did, with no collector between. */
  ghost function KernelHistory(clock: T.Clock, s: State, inputs: seq<Input>, last: Env, name: Text, command: Text,
                               cwd: Text, titles: T.Titles): History {
    AfterAll(Beginning(s.root, clock.origin, Caption(name, command, cwd, false)), AllHappenings(s, inputs, last),
             titles)
  }

  function Tracked(clock: T.Clock, s: State, inputs: seq<Input>, env: Env, name: Text, command: Text, cwd: Text,
                   titles: T.Titles): T.Tracker
    requires clock.Valid()
  {
    T.HandleAll(T.New(clock, s.root, name, command, cwd), Recording(s, inputs, env), titles)
  }

  lemma {:induction false} LifeConcat(a: seq<Message>, b: seq<Message>)
    ensures LifeEvents(a + b) == LifeEvents(a) + LifeEvents(b)
  {
    if b == [] {
      assert a + b == a;
    } else {
      LifeConcat(a, b[..|b| - 1]);
      assert (a + b)[..|a + b| - 1] == a + b[..|b| - 1];
    }
  }

  lemma LifeOfOne(m: Message)
    ensures LifeEvents([]) == []
    ensures LifeEvents([m]) == if IsLifeEvent(m.event) then [m] else []
  {
  }

  /** Setting aside other times than lives' events tells the same lives. */
  lemma {:induction false} OthersLive(ms: seq<Message>, times: set<nat>)
    requires forall m | m in ms && m.time in times :: !IsLifeEvent(m.event)
    ensures LifeEvents(Others(ms, times)) == LifeEvents(ms)
  {
    hide LifeEvents, Others;
    if ms == [] {
      assert Others([], times) == [] by { NoOthers(times); }
    } else {
      var n := |ms| - 1;
      var m := ms[n];
      OthersLive(ms[..n], times);
      assert ms == ms[..n] + [m];
      OthersConcat(ms[..n], [m], times);
      LifeConcat(ms[..n], [m]);
      LifeConcat(Others(ms[..n], times), Others([m], times));
      LifeOfOne(m);
      OthersOne(m, times);
      assert m in ms;
    }
  }

  lemma NoOthers(times: set<nat>)
    ensures Others([], times) == []
  {
  }

  lemma OthersOne(m: Message, times: set<nat>)
    ensures Others([m], times) == if m.time in times then [] else [m]
  {
    assert Others([], times) == [];
  }

  /** At a time the flush places opens, a recording has nothing but opens. */
  lemma FlushTimesAreOpens(s: State, inputs: seq<Input>, env: Env, m: Message)
    requires IsNew(s) && QuietRun(s, inputs)
    requires m in Recording(s, inputs, env) && m.time in HeldTimes(Run(s, inputs).state.heldOpens)
    ensures m.event.Open?
  {
    hide Run, Recording, AllFacts, HeldTimes, OpenMessages, QuietRun, Count;
    var x := Erased(m);
    CountMember(Recording(s, inputs, env), m);
    RecordingBalances(s, inputs, env, x);
    RunApart(s, inputs);
    FactsApart(s, inputs, x);
    var t := Run(s, inputs).state;
    if !m.event.Open? {
      OnlyOpens(t, t.heldOpens, x);
    }
  }

  lemma SameLives(s: State, inputs: seq<Input>, env: Env)
    requires IsNew(s) && QuietRun(s, inputs)
    ensures LifeEvents(Recording(s, inputs, env)) == LifeEvents(AllHappenings(s, inputs, env))
  {
    hide Run, Recording, AllHappenings, HeldTimes, QuietRun, LifeEvents, Others;
    var times := HeldTimes(Run(s, inputs).state.heldOpens);
    RecordingIsInFull(s, inputs, env);
    forall m | m in Recording(s, inputs, env) && m.time in times ensures !IsLifeEvent(m.event) {
      FlushTimesAreOpens(s, inputs, env, m);
    }
    OthersLive(Recording(s, inputs, env), times);
  }

  /**
   What a recording tells of lives: who lived when and ran what is what the kernel reported, in its order;
   which ends leave nothing is decided by the recording, where the flush's opens come last.
   */
  function Told(clock: T.Clock, s: State, inputs: seq<Input>, env: Env, name: Text, command: Text, cwd: Text,
                titles: T.Titles): (a: Account)
    ensures |a.silent| == |a.history.ended|
  {
    TrackerProofs.Story(clock, s.root, name, command, cwd, Recording(s, inputs, env), titles)
  }

  lemma ToldIsKernelHistory(clock: T.Clock, s: State, inputs: seq<Input>, env: Env, name: Text, command: Text,
                            cwd: Text, titles: T.Titles)
    requires IsNew(s) && QuietRun(s, inputs)
    ensures Told(clock, s, inputs, env, name, command, cwd, titles).history
         == KernelHistory(clock, s, inputs, env, name, command, cwd, titles)
  {
    hide AllHappenings, Recording, QuietRun, LifeEvents, AfterAll, AccountOf;
    var caption := Caption(name, command, cwd, false);
    SameLives(s, inputs, env);
    OnlyLifeEvents(Beginning(s.root, clock.origin, caption), Recording(s, inputs, env), AllHappenings(s, inputs, env),
                   titles);
    AccountHistory(NoAccount(s.root, clock.origin, caption), Recording(s, inputs, env), titles);
  }

  /** `a` has heard what `b` has, and opens of `held` processes besides. */
  ghost predicate HeardMore(a: Account, b: Account, held: set<Pid>) {
    && a.history == b.history && |a.silent| == |b.silent| == |a.history.ended|
    && b.spoken <= a.spoken <= b.spoken + held
    && (forall i | 0 <= i < |a.silent| :: a.silent[i] ==> b.silent[i])
    && (forall i | 0 <= i < |a.silent| :: b.silent[i] && !a.silent[i] ==> a.history.ended[i].life.pid in held)
  }

  lemma SameHeard(a: Account, b: Account, held: set<Pid>, m: Message, titles: T.Titles)
    requires HeardMore(a, b, held) && Genealogy(a.history)
    ensures HeardMore(Accounted(a, m, titles), Accounted(b, m, titles), held)
  {
    hide Heard, Ran, Born, Captioned;
    AfterEnds(a.history, m, titles);
    EndedMore(a.history, m, titles);
  }

  lemma EndedMore(h: History, m: Message, titles: T.Titles)
    ensures After(h, m, titles).ended == h.ended + if m.event.Exit? && m.pid in h.alive
                                                   then [Ending(h.alive[m.pid], m.time, m.event.stat)] else []
  {
  }

  lemma OpenHeard(a: Account, b: Account, held: set<Pid>, m: Message, titles: T.Titles)
    requires HeardMore(a, b, held) && m.event.Open? && m.pid in held
    ensures HeardMore(Accounted(a, m, titles), b, held)
  {
  }

  lemma {:induction false} AllHeard(a: Account, ms: seq<Message>, times: set<nat>, held: set<Pid>, titles: T.Titles)
    requires |a.silent| == |a.history.ended| && Genealogy(a.history)
    requires forall m | m in ms && m.time in times :: m.event.Open? && m.pid in held
    ensures HeardMore(AccountOf(a, ms, titles), AccountOf(a, Others(ms, times), titles), held)
  {
    hide HeardMore, Accounted, Genealogy, Others;
    if ms == [] {
      NoOthers(times);
      NothingMore(a, held);
    } else {
      var n := |ms| - 1;
      var m := ms[n];
      AllHeard(a, ms[..n], times, held, titles);
      AccountHistory(a, ms[..n], titles);
      AfterAllGenealogy(a.history, ms[..n], titles);
      assert ms == ms[..n] + [m] && m in ms;
      OthersConcat(ms[..n], [m], times);
      OthersOne(m, times);
      var before, fewer := AccountOf(a, ms[..n], titles), Others(ms[..n], times);
      if m.time in times {
        assert Others(ms, times) == fewer;
        OpenHeard(before, AccountOf(a, fewer, titles), held, m, titles);
      } else {
        assert Others(ms, times)[..|fewer|] == fewer;
        SameHeard(before, AccountOf(a, fewer, titles), held, m, titles);
      }
    }
  }

  lemma NothingMore(a: Account, held: set<Pid>)
    requires |a.silent| == |a.history.ended|
    ensures HeardMore(a, a, held)
  {
  }

  function HeldPids(held: seq<HeldOpen>): set<Pid> {
    set h | h in held :: h.pid
  }

  lemma FlushTimesAreHeld(s: State, inputs: seq<Input>, env: Env, m: Message)
    requires IsNew(s) && QuietRun(s, inputs)
    requires m in Recording(s, inputs, env) && m.time in HeldTimes(Run(s, inputs).state.heldOpens)
    ensures m.pid in HeldPids(Run(s, inputs).state.heldOpens)
  {
    hide Run, Recording, AllFacts, HeldTimes, OpenMessages, QuietRun, Count;
    var x := Erased(m);
    CountMember(Recording(s, inputs, env), m);
    RecordingBalances(s, inputs, env, x);
    RunApart(s, inputs);
    FactsApart(s, inputs, x);
    CountedIsThere(FlushOpens(s, inputs), x);
    var open :| open in FlushOpens(s, inputs) && Erased(open) == x;
    var t := Run(s, inputs).state;
    var i :| 0 <= i < |t.heldOpens| && OpenMessages(t, t.heldOpens)[i] == open;
    assert t.heldOpens[i] in t.heldOpens;
  }

  /**
   An end that leaves nothing in the recording leaves nothing in kernel order either; one that does only
   in kernel order is of a process with an open the flush had to place.
   */
  lemma SilenceIsKernelOrder(clock: T.Clock, s: State, inputs: seq<Input>, env: Env, name: Text, command: Text,
                             cwd: Text, titles: T.Titles)
    requires IsNew(s) && QuietRun(s, inputs)
    ensures HeardMore(Told(clock, s, inputs, env, name, command, cwd, titles),
                      TrackerProofs.Story(clock, s.root, name, command, cwd, AllHappenings(s, inputs, env), titles),
                      HeldPids(Run(s, inputs).state.heldOpens))
  {
    hide Run, Recording, AllHappenings, HeldTimes, QuietRun, Others, HeardMore, HeldPids, AccountOf;
    var times := HeldTimes(Run(s, inputs).state.heldOpens);
    RecordingIsInFull(s, inputs, env);
    forall m | m in Recording(s, inputs, env) && m.time in times
      ensures m.event.Open? && m.pid in HeldPids(Run(s, inputs).state.heldOpens) {
      FlushTimesAreOpens(s, inputs, env, m);
      FlushTimesAreHeld(s, inputs, env, m);
    }
    var caption := Caption(name, command, cwd, false);
    BeginningInOrder(s.root, clock.origin, caption);
    AllHeard(NoAccount(s.root, clock.origin, caption), Recording(s, inputs, env), times,
             HeldPids(Run(s, inputs).state.heldOpens), titles);
  }

  /** The whole sink: what was tracked, and every process still open ended. */
  ghost function Sink(clock: T.Clock, s: State, inputs: seq<Input>, env: Env, name: Text, command: Text, cwd: Text,
                titles: T.Titles, order: seq<Pid>, now: nat): seq<T.Written>
    requires clock.Valid()
    requires TrackerProofs.IsWalk(order, Tracked(clock, s, inputs, env, name, command, cwd, titles).processes)
  {
    TrackerProofs.WalkIsInTable(order, Tracked(clock, s, inputs, env, name, command, cwd, titles).processes);
    T.FinishAll(Tracked(clock, s, inputs, env, name, command, cwd, titles), order, now).sink
  }

  /**
   End to end: for every pid, the segments written are those of its lives in kernel order, and one more
   if it is still open. Their parents and build parents are those of kernel order too, however late
   programs were announced.
   */
  lemma SegmentsTellKernelHistory(clock: T.Clock, s: State, inputs: seq<Input>, env: Env,
                                  name: Text, command: Text, cwd: Text, titles: T.Titles,
                                  order: seq<Pid>, now: nat, p: Pid)
    requires clock.Valid() && IsNew(s) && QuietRun(s, inputs)
    requires TrackerProofs.IsWalk(order, Tracked(clock, s, inputs, env, name, command, cwd, titles).processes)
    ensures var a := Told(clock, s, inputs, env, name, command, cwd, titles);
            && a.history == KernelHistory(clock, s, inputs, env, name, command, cwd, titles) && Genealogy(Audible(a))
            && TrackerProofs.Segments(Sink(clock, s, inputs, env, name, command, cwd, titles, order, now), p)
               == SegmentsOf(clock, Audible(a), p) + TrackerProofs.StillOpen(clock, Audible(a), p, now)
  {
    hide AllHappenings, Recording, QuietRun, T.HandleAll, T.FinishAll, AccountOf, T.New, Beginning, SegmentsOf,
         Genealogy, Audible, TrackerProofs.StillOpen, TrackerProofs.Segments, TrackerProofs.IsWalk;
    ToldIsKernelHistory(clock, s, inputs, env, name, command, cwd, titles);
    TrackerProofs.FinishedTellsLives(clock, s.root, name, command, cwd, Recording(s, inputs, env), titles, order, now,
                                     p);
  }

  // ---- Tiling ----

  /** The recording starts after the clock's origin, and ends before the clock runs out. */
  predicate Fits(clock: T.Clock, inputs: seq<Input>) {
    && clock.Valid() && clock.numer >= clock.denom
    && forall i | 0 <= i < |inputs| && inputs[i].Seen? ::
         clock.origin < inputs[i].record.timestamp
         && (inputs[i].record.timestamp - clock.origin) * clock.numer / clock.denom <= T.MAX_NS
  }

  predicate FitsTime(clock: T.Clock, time: nat) {
    clock.Valid() && clock.origin < time && (time - clock.origin) * clock.numer / clock.denom <= T.MAX_NS
  }

  lemma {:induction false} FactsFit(clock: T.Clock, s: State, inputs: seq<Input>)
    requires Fits(clock, inputs)
    ensures forall m | m in AllFacts(s, inputs) :: FitsTime(clock, m.time)
  {
    hide Run, Facts;
    if inputs != [] {
      var n := |inputs| - 1;
      FactsFit(clock, s, inputs[..n]);
      if inputs[n].Seen? {
        FactsErased(Run(s, inputs[..n]).state, inputs[n].record, inputs[n].env);
      }
    }
  }

  /** What happened has the times of the facts. */
  lemma HappeningsInTime(s: State, inputs: seq<Input>, last: Env)
    ensures var happened, facts := AllHappenings(s, inputs, last), AllFacts(s, inputs);
            |happened| == |facts| && forall i | 0 <= i < |facts| :: happened[i].time == facts[i].time
  {
    hide Happenings, AllFacts;
    HappeningsAreFacts(s, inputs, last, |inputs|);
    assert inputs[..|inputs|] == inputs;
    var happened := AllHappenings(s, inputs, last);
    forall i | 0 <= i < |happened| ensures happened[i].time == AllFacts(s, inputs)[i].time {
      assert ErasedAll(happened)[i] == Erased(happened[i]);
    }
  }

  lemma BoundsResolve(clock: T.Clock, times: seq<nat>, latest: nat)
    requires clock.Valid() && clock.numer >= clock.denom
    requires Increasing(times) && Within(times, clock.origin, latest)
    requires latest == clock.origin || FitsTime(clock, latest)
    ensures Resolves(clock, times)
  {
    forall i | 0 <= i < |times| ensures (times[i] - clock.origin) * clock.numer / clock.denom <= T.MAX_NS {
      MonotoneTicks(times[i] - clock.origin, latest - clock.origin, clock.numer, clock.denom);
    }
  }

  lemma KernelLivesResolve(clock: T.Clock, s: State, inputs: seq<Input>, last: Env, name: Text, command: Text,
                           cwd: Text, titles: T.Titles, i: nat)
    requires IsNew(s) && QuietRun(s, inputs) && Fits(clock, inputs)
    requires i < |KernelHistory(clock, s, inputs, last, name, command, cwd, titles).ended|
    ensures var h := KernelHistory(clock, s, inputs, last, name, command, cwd, titles);
            Genealogy(h) && Resolves(clock, Bounds(h.ended[i]))
  {
    hide AllFacts, AllHappenings, Run, QuietRun, AfterAll;
    var h := KernelHistory(clock, s, inputs, last, name, command, cwd, titles);
    var ms, caption := AllHappenings(s, inputs, last), Caption(name, command, cwd, false);
    RunApart(s, inputs);
    FactsFit(clock, s, inputs);
    HappeningsInTime(s, inputs, last);
    forall j | 0 <= j < |ms| ensures FitsTime(clock, ms[j].time) {
      assert AllFacts(s, inputs)[j] in AllFacts(s, inputs);
    }
    BeginningInOrder(s.root, clock.origin, caption);
    AfterAllInOrder(Beginning(s.root, clock.origin, caption), ms, titles, clock.origin);
    AfterAllGenealogy(Beginning(s.root, clock.origin, caption), ms, titles);
    BoundsResolve(clock, Bounds(h.ended[i]), if ms == [] then clock.origin else ms[|ms| - 1].time);
  }

  /**
   Each process that ended, and left anything, is written as one segment for each program it ran, or one
   in all: they stand together among its pid's segments, start at its fork, end at its exit and meet
   exactly.
   */
  lemma KernelLivesAreTiled(clock: T.Clock, s: State, inputs: seq<Input>, env: Env,
                            name: Text, command: Text, cwd: Text, titles: T.Titles, order: seq<Pid>, now: nat, i: nat)
    returns (k: nat)
    requires IsNew(s) && QuietRun(s, inputs) && Fits(clock, inputs)
    requires TrackerProofs.IsWalk(order, Tracked(clock, s, inputs, env, name, command, cwd, titles).processes)
    requires var a := Told(clock, s, inputs, env, name, command, cwd, titles); i < |a.silent| && !a.silent[i]
    ensures var h := KernelHistory(clock, s, inputs, env, name, command, cwd, titles);
            && Genealogy(h) && i < |h.ended|
            && var e, sink := h.ended[i], Sink(clock, s, inputs, env, name, command, cwd, titles, order, now);
               var written := TrackerProofs.Segments(sink, e.life.pid);
               var n := Max(1, |e.life.execs|);
               && k + n <= |written| && written[k..k + n] == Tiles(clock, h.births, e)
               && Contiguous(written[k..k + n], clock.Ns(e.life.start), clock.Ns(e.end))
  {
    hide QuietRun, KernelHistory, Told, Sink, Tracked, Tiles, Contiguous, AllTiles, Voiced, TrackerProofs.Segments,
         TrackerProofs.StillOpen, TrackerProofs.IsWalk, Resolves, Bounds;
    var a, h := Told(clock, s, inputs, env, name, command, cwd, titles),
                KernelHistory(clock, s, inputs, env, name, command, cwd, titles);
    ToldIsKernelHistory(clock, s, inputs, env, name, command, cwd, titles);
    KernelLivesResolve(clock, s, inputs, env, name, command, cwd, titles, i);
    LifeIsTiled(clock, h.births, h.ended[i]);
    SegmentsTellKernelHistory(clock, s, inputs, env, name, command, cwd, titles, order, now, h.ended[i].life.pid);
    var j := VoicedHas(h.ended, a.silent, i);
    k := TilesStand(clock, h.births, Audible(a).ended, j);
  }

  lemma BeginningInOrder(root: Pid, origin: nat, caption: Caption)
    ensures ToldInOrder(Beginning(root, origin, caption), origin, origin) && Genealogy(Beginning(root, origin, caption))
  {
  }

  // ---- Build parents ----

  /** A record's process is this life's, and its build parent is the walk up from the life's own birth. */
  predicate IsOfLife(births: seq<Birth>, life: Life, process: T.Process) {
    && IsLifeOf(births, life) && process.pid == life.pid && process.parentPid == life.parent
    && process.buildParentPid == WalkUp(births, life.birth)
  }

  /** `o` is a segment of one life of `p`, and tells that life's parent and build parent. */
  ghost predicate IsBorn(clock: T.Clock, h: History, p: Pid, o: Outline)
    requires clock.Valid() && Genealogy(h)
  {
    || (exists i :: 0 <= i < |h.ended| && h.ended[i].life.pid == p && o in Tiles(clock, h.births, h.ended[i])
                    && IsOfLife(h.births, h.ended[i].life, o.process))
    || (p in h.alive && IsOfLife(h.births, h.alive[p], o.process)
        && (o in Replaced(clock, h.births, h.alive[p]) || o.start == SegmentStart(clock, h.alive[p])))
  }

  lemma {:induction false} ReplacedBorn(clock: T.Clock, births: seq<Birth>, life: Life)
    requires clock.Valid() && IsLifeOf(births, life)
    ensures IsOfLife(births, life, ProcessOf(births, life))
    ensures forall o | o in Replaced(clock, births, life) :: IsOfLife(births, life, o.process)
    decreases |life.execs|
  {
    hide WalkUp;
    if |life.execs| > 1 {
      ReplacedBorn(clock, births, life.(execs := life.execs[..|life.execs| - 1]));
    }
  }

  lemma {:induction false} AllTilesBorn(clock: T.Clock, births: seq<Birth>, ended: seq<Ending>, p: Pid, o: Outline)
    requires clock.Valid() && forall i | 0 <= i < |ended| :: IsLifeOf(births, ended[i].life)
    requires (forall i | 0 <= i < |ended| :: ended[i].life.birth < |births|) && o in AllTiles(clock, births, ended, p)
    ensures exists e :: e in ended && e.life.pid == p && e.life.birth < |births| && o in Tiles(clock, births, e)
                        && IsOfLife(births, e.life, o.process)
  {
    hide WalkUp, Replaced, IsOfLife;
    var n := |ended| - 1;
    if o in AllTiles(clock, births, ended[..n], p) {
      AllTilesBorn(clock, births, ended[..n], p, o);
      var e :| e in ended[..n] && e.life.pid == p && e.life.birth < |births| && o in Tiles(clock, births, e)
               && IsOfLife(births, e.life, o.process);
      assert e in ended;
    } else {
      ReplacedBorn(clock, births, ended[n].life);
      assert ended[n] in ended;
    }
  }

  /** The segment a living process is in, whenever it is ended. */
  predicate IsOpenOf(clock: T.Clock, h: History, p: Pid, o: Outline)
    requires clock.Valid() && Genealogy(h)
  {
    p in h.alive && o.process == ProcessOf(h.births, h.alive[p]) && o.start == SegmentStart(clock, h.alive[p])
  }

  /** Every segment of a history's is of one of its lives, and so is one of a process still open. */
  lemma SegmentsBorn(clock: T.Clock, h: History, p: Pid, o: Outline)
    requires clock.Valid() && Genealogy(h)
    requires o in SegmentsOf(clock, h, p) || IsOpenOf(clock, h, p, o)
    ensures IsBorn(clock, h, p, o)
  {
    hide AllTiles, Replaced, Tiles, IsOfLife;
    if o in AllTiles(clock, h.births, h.ended, p) {
      AllTilesBorn(clock, h.births, h.ended, p, o);
      var e :| e in h.ended && e.life.pid == p && e.life.birth < |h.births| && o in Tiles(clock, h.births, e)
               && IsOfLife(h.births, e.life, o.process);
      var i :| 0 <= i < |h.ended| && h.ended[i] == e;
    } else {
      ReplacedBorn(clock, h.births, h.alive[p]);
    }
  }

  /**
   Every segment written of a pid is of one of its lives, and its build parent is the walk up the
   kernel's fork tree from that life's own birth, past each ancestor that had run no program when it
   forked the next one down.
   */
  lemma BuildParentsAreKernelOrder(clock: T.Clock, s: State, inputs: seq<Input>, env: Env,
                                   name: Text, command: Text, cwd: Text, titles: T.Titles,
                                   order: seq<Pid>, now: nat, p: Pid, o: Outline)
    requires clock.Valid() && IsNew(s) && QuietRun(s, inputs)
    requires TrackerProofs.IsWalk(order, Tracked(clock, s, inputs, env, name, command, cwd, titles).processes)
    requires o in TrackerProofs.Segments(Sink(clock, s, inputs, env, name, command, cwd, titles, order, now), p)
    ensures var h := KernelHistory(clock, s, inputs, env, name, command, cwd, titles);
            Genealogy(h) && IsBorn(clock, h, p, o)
  {
    hide Tracked, KernelHistory, Told, QuietRun, SegmentsOf, TrackerProofs.StillOpen, TrackerProofs.Segments, Sink,
         Voiced, IsOfLife, Tiles, Replaced;
    SegmentsTellKernelHistory(clock, s, inputs, env, name, command, cwd, titles, order, now, p);
    var a, h := Told(clock, s, inputs, env, name, command, cwd, titles),
                KernelHistory(clock, s, inputs, env, name, command, cwd, titles);
    if o in TrackerProofs.StillOpen(clock, Audible(a), p, now) {
      OpenIsOpen(clock, Audible(a), p, now, o);
    }
    SegmentsBorn(clock, Audible(a), p, o);
    KernelGenealogy(clock, s, inputs, env, name, command, cwd, titles);
    AudibleBorn(clock, a, p, o);
  }

  lemma OpenIsOpen(clock: T.Clock, h: History, p: Pid, now: nat, o: Outline)
    requires clock.Valid() && Genealogy(h) && o in TrackerProofs.StillOpen(clock, h, p, now)
    ensures IsOpenOf(clock, h, p, o)
  {
  }

  lemma KernelGenealogy(clock: T.Clock, s: State, inputs: seq<Input>, last: Env, name: Text, command: Text, cwd: Text,
                        titles: T.Titles)
    ensures Genealogy(KernelHistory(clock, s, inputs, last, name, command, cwd, titles))
  {
    hide AllHappenings, AfterAll;
    var caption := Caption(name, command, cwd, false);
    BeginningInOrder(s.root, clock.origin, caption);
    AfterAllGenealogy(Beginning(s.root, clock.origin, caption), AllHappenings(s, inputs, last), titles);
  }

  lemma AudibleBorn(clock: T.Clock, a: Account, p: Pid, o: Outline)
    requires clock.Valid() && |a.silent| == |a.history.ended| && Genealogy(a.history) && Genealogy(Audible(a))
    requires IsBorn(clock, Audible(a), p, o)
    ensures IsBorn(clock, a.history, p, o)
  {
    hide Tiles, Replaced, IsOfLife, Voiced;
    var h := Audible(a);
    if i :| 0 <= i < |h.ended| && h.ended[i].life.pid == p && o in Tiles(clock, h.births, h.ended[i])
            && IsOfLife(h.births, h.ended[i].life, o.process) {
      VoicedFrom(a.history.ended, a.silent);
      assert h.ended[i] in a.history.ended;
      var j :| 0 <= j < |a.history.ended| && a.history.ended[j] == h.ended[i];
    }
  }
}
