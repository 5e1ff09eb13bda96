/** The exec messages of a recording are just what `ExecTexts` says is told of its programs. */
module ExecTextsProofs {
  import opened Basics
  import opened Messages
  import opened Ordering
  import opened Paths
  import opened Fragments
  import opened CollectorModel
  import opened DeliveryOrder
  import opened Ledger
  import opened Naming
  import opened KernelFiles
  import opened KernelFilesProofs
  import opened ExecTexts

  // ---- Looking back from one input further on ----

  lemma ProgramStays(s: State, inputs: seq<Input>, k: nat)
    requires k < |inputs| - 1
    ensures ProgramAt(s, inputs, k) == ProgramAt(s, inputs[..|inputs| - 1], k)
  {
    hide Speaker;
    assert inputs[..|inputs| - 1][..k] == inputs[..k];
  }

  lemma RootRuns(s: State, inputs: seq<Input>)
    requires inputs != []
    ensures RootHasRun(s, inputs)
       <==> RootHasRun(s, inputs[..|inputs| - 1]) || StartsIn(s, inputs, |inputs| - 1, s.root)
  {
    hide ProgramAt;
    var n := |inputs| - 1;
    if RootHasRun(s, inputs) && !StartsIn(s, inputs, n, s.root) {
      var k :| 0 <= k < |inputs| && StartsIn(s, inputs, k, s.root);
      ProgramStays(s, inputs, k);
      assert StartsIn(s, inputs[..n], k, s.root);
    }
    if RootHasRun(s, inputs[..n]) {
      var k :| 0 <= k < n && StartsIn(s, inputs[..n], k, s.root);
      ProgramStays(s, inputs, k);
      assert StartsIn(s, inputs, k, s.root);
    }
  }

  lemma GivenStays(s: State, inputs: seq<Input>, k: nat)
    requires k < |inputs| - 1
    ensures IsGiven(s, inputs, k) <==> IsGiven(s, inputs[..|inputs| - 1], k)
  {
    hide ProgramAt, RootHasRun;
    ProgramStays(s, inputs, k);
    assert inputs[..|inputs| - 1][..k] == inputs[..k];
  }

  lemma {:induction false} UnreadIsNotGiven(s: State, inputs: seq<Input>, k: nat)
    requires IsUnread(s, inputs, k)
    ensures !IsGiven(s, inputs, k)
  {
    hide IsGiven, ProgramAt, IsOf, StartsIn, Decided, NameSince;
    if k < |inputs| - 1 {
      UnreadIsNotGiven(s, inputs[..|inputs| - 1], k);
      GivenStays(s, inputs, k);
    }
  }

  lemma {:induction false} LatestIs(s: State, inputs: seq<Input>)
    ensures Run(s, inputs).state.latest == LatestOf(s, inputs)
  {
    hide Interpret, TickStep, Release;
    if inputs != [] {
      LatestIs(s, inputs[..|inputs| - 1]);
    }
  }

  lemma {:induction false} SetupStays(s: State, inputs: seq<Input>)
    ensures SameSetup(s, Run(s, inputs).state)
  {
    hide Interpret, TickStep, Release;
    if inputs != [] {
      SetupStays(s, inputs[..|inputs| - 1]);
    }
  }

  // ---- The root's command ----

  lemma StartTakesCommand(t: State, pid: Pid, time: nat, image: Word, answer: Answer)
    ensures StartProgram(t, pid, time, image, answer).state.rootCommand == if pid == t.root then None else t.rootCommand
  {
    hide CommandLine, ExecMessage;
  }

  lemma ExecTakesCommand(t: State, pid: Pid, time: nat, image: Word, env: Env)
    ensures ExecStep(t, pid, time, image, env).state.rootCommand == if pid == t.root then None else t.rootCommand
  {
    hide SettleEarlier, CloseOnExec, StartProgram;
    StartTakesCommand(SettleEarlier(CloseOnExec(t, pid), pid).state, pid, time, image, env.inspect(pid));
  }

  lemma CallKeepsCommand(t: State, pid: Pid, r: Record, env: Env)
    ensures SyscallStep(t, pid, r, env).state.rootCommand == t.rootCommand
  {
    hide SyscallStep, HoldsOrSays, IsFileMessage;
  }

  lemma OthersKeepCommand(t: State, pid: Pid, r: Record)
    ensures NameProgram(t, pid, r.args).rootCommand == t.rootCommand
    ensures ProcExit(t, pid, r).state.rootCommand == t.rootCommand
    ensures LookupStep(t, r).rootCommand == t.rootCommand
    ensures ReplaceAsker(t, r.thread).rootCommand == t.rootCommand && ReplaceAsker(t, r.thread).root == t.root
  {
    hide NameProgram, ProcExit, LookupStep, ReplaceAsker;
  }

  lemma ProcessKeepsCommand(t: State, pid: Pid, r: Record, env: Env)
    ensures ProcessStep(t, pid, r, env).state.rootCommand
         == if r.Code() == DATA_EXEC && pid == t.root then None else t.rootCommand
  {
    hide ExecStep, ProcExit, LookupStep, SyscallStep, NameProgram, ReplaceAsker, IsFollowed, FilesOnly, HoldsOrSays,
         IsFileMessage, SameSetup;
    OthersKeepCommand(t, pid, r);
    if r.Code() == DATA_EXEC {
      ExecTakesCommand(ReplaceAsker(t, r.thread), pid, r.timestamp, r.args[2], env);
    } else {
      CallKeepsCommand(t, pid, r, env);
    }
  }

  lemma InterpretKeepsCommand(t: State, r: Record, env: Env)
    ensures var runs := IsFollowedThread(t, r.thread) && r.Code() == DATA_EXEC && t.threads[r.thread] == t.root;
            Interpret(t, r, env).state.rootCommand == if runs then None else t.rootCommand
  {
    hide ProcessStep, NewThread, Max;
    if IsFollowedThread(t, r.thread) {
      ProcessKeepsCommand(Noticed(t, r), t.threads[r.thread], r, env);
    }
  }

  lemma ObserveKeepsCommand(t: State, r: Record, env: Env)
    ensures var runs := IsFollowedThread(t, r.thread) && r.Code() == DATA_EXEC && t.threads[r.thread] == t.root;
            Observe(t, r, env).state.rootCommand == if runs then None else t.rootCommand
  {
    hide Interpret, Release;
    InterpretKeepsCommand(Dequeued(t), r, env);
  }

  /** The command is there until the root runs a program. */
  lemma {:induction false} CommandIs(s: State, inputs: seq<Input>)
    ensures Run(s, inputs).state.rootCommand == if RootHasRun(s, inputs) then None else s.rootCommand
  {
    hide Observe, Tick, Speaker, RootHasRun;
    if inputs == [] {
      NoRootYet(s);
    } else {
      var n := |inputs| - 1;
      CommandIs(s, inputs[..n]);
      RootRuns(s, inputs);
      SetupStays(s, inputs[..n]);
      var t := Run(s, inputs[..n]).state;
      match inputs[n] {
        case Seen(r, env) =>
          SpeakerIs(s, inputs[..n], r.thread);
          ObserveKeepsCommand(t, r, env);
        case Ticked(env) => TickKeepsCommand(t, env);
      }
    }
  }

  lemma NoRootYet(s: State)
    ensures !RootHasRun(s, [])
  {
  }

  lemma TickKeepsCommand(t: State, env: Env)
    ensures Tick(t, env).state.rootCommand == t.rootCommand
  {
    hide RetryList, BelieveExits, Release;
  }

  // ---- Names ----

  lemma {:induction false} DashesGo(word: Text)
    ensures var rest := TrimDashes(word);
            && |rest| <= |word| && word[|word| - |rest|..] == rest
            && (forall i | 0 <= i < |word| - |rest| :: word[i] == DASH)
            && (rest != [] ==> rest[0] != DASH)
  {
    if word != [] && word[0] == DASH {
      DashesGo(word[1..]);
      var rest := TrimDashes(word[1..]);
      assert word[1..][|word| - 1 - |rest|..] == word[|word| - |rest|..];
      forall i | 0 <= i < |word| - |rest| ensures word[i] == DASH {
        if i > 0 { assert word[1..][i - 1] == word[i]; }
      }
    }
  }

  lemma FirstWordIsOne(argv: seq<Text>, a: Text, b: Text)
    requires IsFirstWord(argv, a) && IsFirstWord(argv, b)
    ensures a == b
  {
    hide CalledAs;
    var last := CalledAs(argv);
    if |a| < |b| {
      LongerHasADash(last, a, b);
    } else if |b| < |a| {
      LongerHasADash(last, b, a);
    }
  }

  lemma LongerHasADash(last: Text, short: Text, long: Text)
    requires |short| < |long| <= |last|
    requires forall i | 0 <= i < |last| - |short| :: last[i] == DASH
    requires last[|last| - |long|..] == long
    ensures long[0] == DASH
  {
    assert last[|last| - |long|] == DASH;
  }

  lemma PassedOnIs(t: State, pid: Pid, argv: seq<Text>)
    ensures PassedOn(t, pid, argv) <==> BeginsWith(argv, NameOf(t, pid))
  {
    hide TrimDashes, LastComponent, FinalName, Holder, ParentDirectory, IsFirstWord;
    var first := if argv == [] then [] else TrimDashes(LastComponent(argv[0]));
    FirstWordIs(argv);
    var name := NameOf(t, pid);
    if BeginsWith(argv, name) {
      var word :| IsFirstWord(argv, word) && (word == name || (|name| >= LONG_NAME && name <= word));
      FirstWordIsOne(argv, first, word);
    }
  }

  lemma FirstWordIs(argv: seq<Text>)
    ensures IsFirstWord(argv, if argv == [] then [] else TrimDashes(LastComponent(argv[0])))
  {
    hide TrimDashes, LastComponent, FinalName, Holder, ParentDirectory;
    if argv != [] {
      FinalIs(argv[0]);
      DashesGo(FinalName(argv[0]));
    }
  }

  /** No other program has started in the process since. */
  predicate IsLatest(s: State, inputs: seq<Input>, k: nat, pid: Pid) {
    StartsIn(s, inputs, k, pid) && forall j | k < j < |inputs| :: !StartsIn(s, inputs, j, pid)
  }

  lemma LatestBefore(s: State, inputs: seq<Input>, k: nat, pid: Pid)
    requires IsLatest(s, inputs, k, pid) && k < |inputs| - 1
    ensures IsLatest(s, inputs[..|inputs| - 1], k, pid) && !StartsIn(s, inputs, |inputs| - 1, pid)
  {
    hide ProgramAt;
    var before := inputs[..|inputs| - 1];
    ProgramStays(s, inputs, k);
    forall j | k < j < |before| ensures !StartsIn(s, before, j, pid) {
      ProgramStays(s, inputs, j);
      assert !StartsIn(s, inputs, j, pid);
    }
  }

  lemma {:induction false} UnreadIsLatest(s: State, inputs: seq<Input>, k: nat)
    requires IsUnread(s, inputs, k)
    ensures IsLatest(s, inputs, k, ProgramAt(s, inputs, k).value.pid)
  {
    hide ProgramAt, IsOf, Decided, NameSince, IsGiven;
    var n := |inputs| - 1;
    var pid := ProgramAt(s, inputs, k).value.pid;
    if k < n {
      UnreadIsLatest(s, inputs[..n], k);
      ProgramStays(s, inputs, k);
      forall j | k < j < |inputs| ensures !StartsIn(s, inputs, j, pid) {
        if j < n {
          ProgramStays(s, inputs, j);
          assert !StartsIn(s, inputs[..n], j, pid);
        } else if inputs[n].Ticked? {
          TickStartsNone(s, inputs, pid);
        }
      }
    }
  }

  lemma TickStartsNone(s: State, inputs: seq<Input>, pid: Pid)
    requires inputs != [] && inputs[|inputs| - 1].Ticked?
    ensures !StartsIn(s, inputs, |inputs| - 1, pid)
  {
  }

  /** The names told since the last program are those the collector keeps apart. */
  lemma {:induction false} OwnIs(s: State, inputs: seq<Input>, k: nat, pid: Pid)
    requires IsLatest(s, inputs, k, pid)
    ensures Get(ToldBy(s, inputs), pid) == NameSince(s, inputs, k, pid)
    decreases |inputs|, 1
  {
    hide Run, Speaker, Decoded, IsLatest;
    IsLatestStarts(s, inputs, k, pid);
    var n := |inputs| - 1;
    var before := inputs[..n];
    if k < n {
      OwnIsBefore(s, inputs, k, pid);
      match inputs[n] {
        case Seen(r, _) => SpeakerIs(s, before, r.thread);
        case Ticked(_) =>
      }
    } else {
      SpeakerIs(s, before, inputs[n].record.thread);
    }
  }

  lemma {:induction false} OwnIsBefore(s: State, inputs: seq<Input>, k: nat, pid: Pid)
    requires IsLatest(s, inputs, k, pid) && k < |inputs| - 1
    ensures Get(ToldBy(s, inputs[..|inputs| - 1]), pid) == NameSince(s, inputs[..|inputs| - 1], k, pid)
    ensures !StartsIn(s, inputs, |inputs| - 1, pid)
    decreases |inputs|, 0
  {
    hide ToldBy, NameSince, IsLatest;
    LatestBefore(s, inputs, k, pid);
    OwnIs(s, inputs[..|inputs| - 1], k, pid);
  }

  lemma IsLatestStarts(s: State, inputs: seq<Input>, k: nat, pid: Pid)
    requires IsLatest(s, inputs, k, pid)
    ensures StartsIn(s, inputs, k, pid) && k < |inputs|
  {
  }

  /** Names are only added by the kernel's records, and taken away by exits. */
  predicate NamesLeft(t: State, u: State) {
    forall pid | pid in u.names :: pid in t.names && u.names[pid] == t.names[pid]
  }

  lemma CallNames(t: State, pid: Pid, r: Record, env: Env)
    ensures SyscallStep(t, pid, r, env).state.names == t.names
  {
    hide SyscallStep, HoldsOrSays, IsFileMessage;
  }

  lemma BelieveNames(t: State)
    ensures NamesLeft(t, BelieveExits(t).state)
  {
    hide Believable, Waiting, PidsOf;
  }

  lemma ExitNames(t: State, pid: Pid, r: Record)
    ensures NamesLeft(t, ProcExit(t, pid, r).state)
  {
    hide BelieveExits, AsI32;
    BelieveNames(t.(heldExits := t.heldExits + [HeldExit(pid, r.timestamp, AsI32(r.args[1]))]));
  }

  lemma ProcessNames(t: State, pid: Pid, r: Record, env: Env)
    ensures var u := ProcessStep(t, pid, r, env).state;
            if r.Code() == STRING_EXEC then u.names == t.names[pid := Decoded(r.args)] else NamesLeft(t, u)
  {
    hide ExecStep, LookupStep, SyscallStep, ProcExit, IsFollowed, Decoded, MarkNamed, FilesOnly, HoldsOrSays,
         IsFileMessage, SameSetup, ReplaceAsker;
    CallNames(t, pid, r, env);
    ExitNames(t, pid, r);
  }

  lemma ObserveNames(t: State, r: Record, env: Env)
    ensures var u := Observe(t, r, env).state;
            if r.Code() == STRING_EXEC && IsFollowedThread(t, r.thread)
            then u.names == t.names[t.threads[r.thread] := Decoded(r.args)] else NamesLeft(t, u)
  {
    hide ProcessStep, NewThread, Release, Decoded, Max;
    if IsFollowedThread(t, r.thread) {
      ProcessNames(Noticed(Dequeued(t), r), t.threads[r.thread], r, env);
    }
  }

  lemma TickNames(t: State, env: Env)
    ensures NamesLeft(t, Tick(t, env).state)
  {
    hide RetryList, Release, BelieveExits;
    BelieveNames(RetryCommandLines(Dequeued(t), env, false).state);
  }

  /** What is left of a name is what the kernel last said. */
  lemma {:induction false} NameLeftIs(s: State, inputs: seq<Input>, pid: Pid)
    ensures var name := NameOf(Run(s, inputs).state, pid);
            name == [] || LastNamed(s, inputs, pid) == Some(name)
    ensures pid in Run(s, inputs).state.names ==>
              LastNamed(s, inputs, pid) == Some(Run(s, inputs).state.names[pid])
  {
    hide Observe, Tick, Speaker, Decoded;
    if inputs != [] {
      var n := |inputs| - 1;
      NameLeftIs(s, inputs[..n], pid);
      match inputs[n] {
        case Seen(r, env) =>
          SpeakerIs(s, inputs[..n], r.thread);
          ObserveNames(Run(s, inputs[..n]).state, r, env);
        case Ticked(env) => TickNames(Run(s, inputs[..n]).state, env);
      }
    }
  }

  // ---- The entry of an unread program ----

  function NextOf(p: Program, decided: Option<Answer>): Option<Successor> {
    if decided.Some? && IsOfNext(decided.value, p) then
      Some(Successor(decided.value.inspection.executable, decided.value.inspection.argv))
    else None
  }

  function EntryOf(s: State, inputs: seq<Input>, k: nat): Pending
    requires IsProgram(s, inputs, k)
  {
    var p := ProgramAt(s, inputs, k).value;
    var decided := Decided(inputs, k, p.pid);
    Pending(p.pid, p.time, p.image, decided.Some?, NextOf(p, decided), NameSince(s, inputs, k, p.pid).Some?)
  }

  /** The entries of the unread programs among the first so many inputs. */
  function Entries(s: State, inputs: seq<Input>, k: nat): seq<Pending>
    requires k <= |inputs|
  {
    if k == 0 then [] else
      Entries(s, inputs, k - 1) + if IsUnread(s, inputs, k - 1) then [EntryOf(s, inputs, k - 1)] else []
  }

  /** `u` is, for programs, the state after these inputs. */
  predicate IsAfter(u: State, s: State, inputs: seq<Input>) {
    var t := Run(s, inputs).state;
    && u.processes == t.processes && u.names == t.names && u.root == t.root && u.threads == t.threads
    && u.rootCommand == t.rootCommand && u.argvRetries == t.argvRetries
  }

  /** And its clock is as it was. */
  predicate IsOnTime(u: State, s: State, inputs: seq<Input>) {
    u.latest == LatestOf(s, inputs) && u.window == s.window
  }

  ghost predicate EntriesAgree(s: State, inputs: seq<Input>) {
    Run(s, inputs).state.argvRetries == Entries(s, inputs, |inputs|)
  }

  lemma {:induction false} EntryIsThere(s: State, inputs: seq<Input>, k: nat, m: nat)
    requires k < m <= |inputs| && IsUnread(s, inputs, k)
    ensures EntryOf(s, inputs, k) in Entries(s, inputs, m)
  {
    hide IsUnread, EntryOf;
    if k < m - 1 {
      EntryIsThere(s, inputs, k, m - 1);
    }
  }

  /** An unread program is named as its entry says, and its process is where its messages say. */
  lemma UnreadSays(s: State, inputs: seq<Input>, k: nat, u: State)
    requires IsNew(s) && EntriesAgree(s, inputs) && IsUnread(s, inputs, k) && IsAfter(u, s, inputs)
    ensures var pid := ProgramAt(s, inputs, k).value.pid;
            NameOf(u, pid) == NameAt(s, inputs, k, pid) && CwdOf(u, pid) == HomeOf(s, inputs, pid)
  {
    hide Run, Entries, IsLatest, NameSince, ToldBy, OnePerPid, IsUnread, DirectoryOf, ProgramAt;
    UnreadIsProgram(s, inputs, k);
    var pid := ProgramAt(s, inputs, k).value.pid;
    UnreadIsLatest(s, inputs, k);
    OwnIs(s, inputs, k, pid);
    PendingFindsItsName(s, inputs);
    EntryIsThere(s, inputs, k, |inputs|);
    var e := EntryOf(s, inputs, k);
    assert FindsOwnName(Run(s, inputs).state.names, ToldBy(s, inputs), e);
    HomeIs(s, inputs, pid, u);
  }

  lemma HomeIs(s: State, inputs: seq<Input>, pid: Pid, u: State)
    requires IsNew(s) && IsAfter(u, s, inputs)
    ensures CwdOf(u, pid) == HomeOf(s, inputs, pid)
  {
    hide Run, DirectoryOf;
    if Follows(s, inputs, pid) {
      ProcessIsAsRecorded(s, inputs, pid, 0);
    }
  }

  // ---- One reading ----

  lemma SettledIs(u: State, p: Program, e: Pending, decided: Option<Answer>)
    requires e.pid == p.pid && e.time == p.time && e.movedOn == NextOf(p, decided)
    requires !(decided.Some? && IsOf(decided.value, p))
    ensures var said := SaidOf(p, decided, NameOf(u, p.pid));
            Settled(u, e) == ExecMessage(u, p.pid, p.time, said.executable, said.argv)
  {
    hide PassedOn, BeginsWith, CwdOf;
    if e.movedOn.Some? {
      PassedOnIs(u, p.pid, e.movedOn.value.argv);
    }
  }

  lemma ReadingIs(p: Program, answer: Answer)
    ensures CommandLine(p.time, p.image, answer)
         == if answer.NotReadable? then Unreadable(NotYet)
            else if IsOf(answer, p) then Read(answer.inspection.executable, answer.inspection.argv)
            else if IsOfNext(answer, p) then
              Unreadable(MovedOn(Successor(answer.inspection.executable, answer.inspection.argv)))
            else Unreadable(Gone)
  {
  }

  function DecidedAfter(decided: Option<Answer>, answer: Answer): Option<Answer> {
    if decided.Some? then decided else if answer.NotReadable? then None else Some(answer)
  }

  /** Retrying keeps the program, or says of it what is to be said. */
  lemma RetryIs(u: State, p: Program, e: Pending, decided: Option<Answer>, answer: Answer, lastChance: bool)
    requires e.pid == p.pid && e.time == p.time && e.image == p.image
    requires e.giveUp == decided.Some? && e.movedOn == NextOf(p, decided)
    requires !(decided.Some? && IsOf(decided.value, p))
    ensures var now := DecidedAfter(decided, answer);
            var said := SaidOf(p, now, NameOf(u, p.pid));
            var read := now.Some? && IsOf(now.value, p);
            var waits := !lastChance && u.latest < p.time + u.window && (now.None? || !e.named);
            var tried := Retry(u, e, answer, lastChance);
            if !read && waits then tried == Keep(e.(giveUp := now.Some?, movedOn := NextOf(p, now)))
            else tried.Report? && tried.message == ExecMessage(u, p.pid, p.time, said.executable, said.argv)
  {
    hide Settled, CommandLine, IsOf, IsOfNext, BeginsWith, NameOf, ExecMessage;
    var now := DecidedAfter(decided, answer);
    ReadingIs(p, answer);
    if !(now.Some? && IsOf(now.value, p)) {
      SettledIs(u, p, e.(movedOn := NextOf(p, now)), now);
    }
    IsOneOf(p, answer);
  }

  lemma IsOneOf(p: Program, answer: Answer)
    ensures IsOf(answer, p) ==> !IsOfNext(answer, p) && !answer.NotReadable?
    ensures IsOfNext(answer, p) ==> !answer.NotReadable?
  {
  }

  lemma DecidedAtTick(inputs: seq<Input>, k: nat, pid: Pid)
    requires k < |inputs| - 1 && inputs[|inputs| - 1].Ticked?
    ensures Decided(inputs, k, pid)
         == DecidedAfter(Decided(inputs[..|inputs| - 1], k, pid), inputs[|inputs| - 1].env.inspect(pid))
  {
    var before := Answers(inputs[..|inputs| - 1], k, pid);
    assert Answers(inputs, k, pid)[..|before|] == before;
  }

  lemma DecidedAtRecord(inputs: seq<Input>, k: nat, pid: Pid)
    requires k < |inputs| - 1 && inputs[|inputs| - 1].Seen?
    ensures Decided(inputs, k, pid) == Decided(inputs[..|inputs| - 1], k, pid)
  {
    var before := Answers(inputs[..|inputs| - 1], k, pid);
    assert Answers(inputs, k, pid) == before;
  }

  lemma DecidedAtOnce(inputs: seq<Input>, k: nat, pid: Pid)
    requires k == |inputs| - 1
    ensures Decided(inputs, k, pid) == DecidedAfter(None, inputs[k].env.inspect(pid))
  {
    var answer := inputs[k].env.inspect(pid);
    assert Answers(inputs, k, pid) == [answer];
    assert [answer][..0] == [];
    assert Deciding([]) == None;
  }

  lemma {:induction false} UnreadIsNotRead(s: State, inputs: seq<Input>, k: nat)
    requires IsUnread(s, inputs, k)
    ensures var p := ProgramAt(s, inputs, k).value;
            var decided := Decided(inputs, k, p.pid);
            !(decided.Some? && IsOf(decided.value, p))
  {
  }

  /** At a tick, or at the flush as the last one, an unread program's entry is kept or its report is given. */
  lemma TickRetries(s: State, inputs: seq<Input>, k: nat, u: State, lastChance: bool)
    requires inputs != [] && inputs[|inputs| - 1].Ticked? && k < |inputs| - 1
    requires IsNew(s) && IsAfter(u, s, inputs[..|inputs| - 1]) && EntriesAgree(s, inputs[..|inputs| - 1])
    requires IsUnread(s, inputs[..|inputs| - 1], k) && IsOnTime(u, s, inputs[..|inputs| - 1])
    ensures var before := inputs[..|inputs| - 1];
            var e := EntryOf(s, before, k);
            var tried := Retry(u, e, inputs[|inputs| - 1].env.inspect(e.pid), lastChance);
            && IsProgram(s, inputs, k)
            && if !lastChance && IsUnread(s, inputs, k) then tried == Keep(EntryOf(s, inputs, k))
               else tried.Report? && tried.message == ReportOf(s, inputs, k)
  {
    hide Run, Retry, Entries, IsAfter, NameAt, SaidOf, ExecMessage, Decided, ProgramAt, IsOf, NextOf, DecidedAfter,
         CwdOf, HomeOf, NameOf, EntriesAgree, Answers, IsGiven, LatestOf;
    var n := |inputs| - 1;
    var before := inputs[..n];
    var answer := inputs[n].env.inspect(EntryOf(s, before, k).pid);
    ProgramStays(s, inputs, k);
    UnreadIsNotRead(s, before, k);
    UnreadIsNotGiven(s, before, k);
    GivenStays(s, inputs, k);
    var p := ProgramAt(s, inputs, k).value;
    DecidedAtTick(inputs, k, p.pid);
    RetryIs(u, p, EntryOf(s, before, k), Decided(before, k, p.pid), answer, lastChance);
    UnreadSays(s, before, k, u);
    TickWaits(s, inputs, k, u);
    ExecMessageIs(u, s, before, p, SaidOf(p, Decided(inputs, k, p.pid), NameOf(u, p.pid)));
  }

  lemma ExecMessageIs(u: State, s: State, before: seq<Input>, p: Program, said: Said)
    requires CwdOf(u, p.pid) == HomeOf(s, before, p.pid)
    ensures ExecMessage(u, p.pid, p.time, said.executable, said.argv)
         == Message(p.time, p.pid, 0, Exec(said.argv, HomeOf(s, before, p.pid), said.executable))
  {
    hide CwdOf, HomeOf;
  }

  lemma TickWaits(s: State, inputs: seq<Input>, k: nat, u: State)
    requires inputs != [] && inputs[|inputs| - 1].Ticked? && k < |inputs| - 1
    requires IsOnTime(u, s, inputs[..|inputs| - 1]) && IsUnread(s, inputs[..|inputs| - 1], k)
    ensures var before := inputs[..|inputs| - 1];
            && IsProgram(s, inputs, k)
            && var p := ProgramAt(s, inputs, k).value;
               var decided := Decided(inputs, k, p.pid);
               && p == ProgramAt(s, before, k).value
               && NameSince(s, inputs, k, p.pid) == NameSince(s, before, k, p.pid)
               && (IsUnread(s, inputs, k) <==>
                     && !(decided.Some? && IsOf(decided.value, p))
                     && u.latest < p.time + u.window && (decided.None? || NameSince(s, before, k, p.pid).None?))
  {
    hide Run, ProgramAt, Decided, IsOf, IsGiven, StartsIn;
    var before := inputs[..|inputs| - 1];
    ProgramStays(s, inputs, k);
    assert ProgramAt(s, before, k).Some? by { UnreadIsProgram(s, before, k); }
  }

  lemma UnreadIsProgram(s: State, inputs: seq<Input>, k: nat)
    requires IsUnread(s, inputs, k)
    ensures IsProgram(s, inputs, k)
  {
    hide ProgramAt, Decided, IsOf, IsGiven, StartsIn, NameSince;
  }

  // ---- A tick ----

  lemma UnreadBefore(s: State, inputs: seq<Input>, k: nat)
    requires inputs != [] && k < |inputs| - 1 && !IsUnread(s, inputs[..|inputs| - 1], k)
    ensures !IsUnread(s, inputs, k) && !TellsOf(s, inputs, k)
  {
    hide ProgramAt, Decided, IsOf, IsGiven, StartsIn, NameSince;
  }

  lemma TellsWhen(s: State, inputs: seq<Input>, k: nat)
    requires inputs != [] && k < |inputs| - 1 && IsUnread(s, inputs[..|inputs| - 1], k) && IsProgram(s, inputs, k)
    ensures TellsOf(s, inputs, k) <==> !IsUnread(s, inputs, k)
  {
    hide IsUnread, ProgramAt;
  }

  lemma RetryMore(u: State, list: seq<Pending>, e: Pending, env: Env, lastChance: bool)
    ensures var before, all := RetryList(u, list, env, lastChance), RetryList(u, list + [e], env, lastChance);
            var tried := Retry(u, e, env.inspect(e.pid), lastChance);
            && all.kept == before.kept + (if tried.Keep? then [tried.pending] else [])
            && all.out == before.out + (if tried.Report? then [tried.message] else [])
  {
    hide Retry;
    assert (list + [e])[..|list|] == list;
  }

  /** The retried list: the programs still unread keep their entries, the others are told of, in order. */
  lemma {:induction false} TickList(s: State, inputs: seq<Input>, m: nat, u: State)
    requires inputs != [] && inputs[|inputs| - 1].Ticked? && m <= |inputs| - 1
    requires IsNew(s) && IsAfter(u, s, inputs[..|inputs| - 1]) && EntriesAgree(s, inputs[..|inputs| - 1])
    requires IsOnTime(u, s, inputs[..|inputs| - 1])
    ensures var all := RetryList(u, Entries(s, inputs[..|inputs| - 1], m), inputs[|inputs| - 1].env, false);
            all.kept == Entries(s, inputs, m) && all.out == NewlyReported(s, inputs, m)
  {
    hide Run, Retry, IsAfter, IsOnTime, EntryOf, IsUnread, EntriesAgree, TellsOf, ReportOf;
    if m > 0 {
      hide RetryList;
      var before := inputs[..|inputs| - 1];
      TickList(s, inputs, m - 1, u);
      if IsUnread(s, before, m - 1) {
        UnreadIsProgram(s, before, m - 1);
        RetryMore(u, Entries(s, before, m - 1), EntryOf(s, before, m - 1), inputs[|inputs| - 1].env, false);
        TickRetries(s, inputs, m - 1, u, false);
        TellsWhen(s, inputs, m - 1);
      } else {
        assert Entries(s, before, m) == Entries(s, before, m - 1);
        UnreadBefore(s, inputs, m - 1);
      }
    }
  }

  /** The flush tells of all that are left. */
  lemma {:induction false} FlushList(s: State, inputs: seq<Input>, last: Env, m: nat, u: State)
    requires m <= |inputs| && IsNew(s) && IsAfter(u, s, inputs) && IsOnTime(u, s, inputs) && EntriesAgree(s, inputs)
    ensures RetryList(u, Entries(s, inputs, m), last, true).out == LastReported(s, inputs, last, m)
  {
    hide Run, Retry, IsAfter, IsOnTime, EntryOf, IsUnread, EntriesAgree, LastReportOf;
    if m > 0 {
      hide RetryList;
      FlushList(s, inputs, last, m - 1, u);
      if IsUnread(s, inputs, m - 1) {
        UnreadIsProgram(s, inputs, m - 1);
        RetryMore(u, Entries(s, inputs, m - 1), EntryOf(s, inputs, m - 1), last, true);
        FlushReport(s, inputs, last, m - 1, u);
      } else {
        assert Entries(s, inputs, m) == Entries(s, inputs, m - 1);
      }
    }
  }

  lemma FlushReport(s: State, inputs: seq<Input>, last: Env, k: nat, u: State)
    requires IsNew(s) && IsAfter(u, s, inputs) && IsOnTime(u, s, inputs) && EntriesAgree(s, inputs)
    requires IsUnread(s, inputs, k)
    ensures IsProgram(s, inputs, k)
    ensures var e := EntryOf(s, inputs, k);
            var tried := Retry(u, e, last.inspect(e.pid), true);
            tried.Report? && tried.message == LastReportOf(s, inputs, last, k)
  {
    hide Run, Retry, IsAfter, IsOnTime, EntryOf, IsUnread, EntriesAgree, LastReportOf, ReportOf, ProgramAt;
    UnreadIsProgram(s, inputs, k);
    var longer := inputs + [Ticked(last)];
    assert longer[..|longer| - 1] == inputs;
    TickRetries(s, longer, k, u, true);
    LastReportIs(s, inputs, last, k);
  }

  lemma LastReportIs(s: State, inputs: seq<Input>, last: Env, k: nat)
    requires IsProgram(s, inputs, k)
    ensures IsProgram(s, inputs + [Ticked(last)], k)
    ensures LastReportOf(s, inputs, last, k) == ReportOf(s, inputs + [Ticked(last)], k)
  {
    hide ReportOf, Speaker;
    assert (inputs + [Ticked(last)])[..k] == inputs[..k];
  }

  // ---- A record ----

  /** The record starts no program in the process. */
  lemma {:induction false} RecordKeeps(s: State, inputs: seq<Input>, k: nat)
    requires inputs != [] && inputs[|inputs| - 1].Seen? && k < |inputs| - 1 && IsUnread(s, inputs[..|inputs| - 1], k)
    ensures IsProgram(s, inputs, k)
    ensures var p := ProgramAt(s, inputs, k).value;
            && p == ProgramAt(s, inputs[..|inputs| - 1], k).value
            && Decided(inputs, k, p.pid) == Decided(inputs[..|inputs| - 1], k, p.pid)
            && (IsUnread(s, inputs, k) <==> !StartsIn(s, inputs, |inputs| - 1, p.pid))
  {
    hide ProgramAt, Decided, IsOf, IsGiven, StartsIn, NameSince;
    UnreadIsProgram(s, inputs[..|inputs| - 1], k);
    ProgramStays(s, inputs, k);
    DecidedAtRecord(inputs, k, ProgramAt(s, inputs, k).value.pid);
    UnreadIsNotRead(s, inputs[..|inputs| - 1], k);
  }

  /** The process that the last record names the program of. */
  function NamedBy(s: State, inputs: seq<Input>): Option<Pid>
    requires inputs != [] && inputs[|inputs| - 1].Seen?
  {
    var r := inputs[|inputs| - 1].record;
    if r.Code() == STRING_EXEC then Speaker(s, inputs[..|inputs| - 1], r.thread) else None
  }

  function MarkedBy(entries: seq<Pending>, pid: Option<Pid>): seq<Pending> {
    if pid.Some? then MarkNamed(entries, pid.value) else entries
  }

  lemma MarkConcat(entries: seq<Pending>, e: Pending, pid: Option<Pid>)
    ensures MarkedBy(entries + [e], pid)
         == MarkedBy(entries, pid) + [if pid == Some(e.pid) then e.(named := true) else e]
  {
    hide MarkNamed;
  }

  lemma EntryAtRecord(s: State, inputs: seq<Input>, k: nat)
    requires inputs != [] && inputs[|inputs| - 1].Seen? && k < |inputs| - 1 && IsUnread(s, inputs[..|inputs| - 1], k)
    ensures IsProgram(s, inputs, k) && IsProgram(s, inputs[..|inputs| - 1], k)
    ensures var e := EntryOf(s, inputs[..|inputs| - 1], k);
            EntryOf(s, inputs, k) == if NamedBy(s, inputs) == Some(e.pid) then e.(named := true) else e
  {
    hide ProgramAt, Decided, NextOf, Speaker, IsUnread, Decoded;
    UnreadIsProgram(s, inputs[..|inputs| - 1], k);
    RecordKeeps(s, inputs, k);
  }

  /** A record that starts no program keeps every entry, marking those it names. */
  lemma {:induction false} RecordList(s: State, inputs: seq<Input>, m: nat)
    requires inputs != [] && inputs[|inputs| - 1].Seen? && m <= |inputs| - 1
    requires !IsProgram(s, inputs, |inputs| - 1)
    ensures Entries(s, inputs, m) == MarkedBy(Entries(s, inputs[..|inputs| - 1], m), NamedBy(s, inputs))
    ensures NewlyReported(s, inputs, m) == []
  {
    hide EntryOf, IsUnread, TellsOf, ReportOf, NamedBy, MarkedBy, ProgramAt;
    var before := inputs[..|inputs| - 1];
    if m == 0 {
      MarkNone(NamedBy(s, inputs));
    } else {
      RecordList(s, inputs, m - 1);
      if IsUnread(s, before, m - 1) {
        EntryAtRecord(s, inputs, m - 1);
        RecordKeeps(s, inputs, m - 1);
        TellsWhen(s, inputs, m - 1);
        MarkConcat(Entries(s, before, m - 1), EntryOf(s, before, m - 1), NamedBy(s, inputs));
      } else {
        assert Entries(s, before, m) == Entries(s, before, m - 1);
        UnreadBefore(s, inputs, m - 1);
      }
    }
  }

  lemma MarkNone(pid: Option<Pid>)
    ensures MarkedBy([], pid) == []
  {
  }

  // ---- A program's start ----

  /** The entries of other processes, and what is said of those of this one. */
  function Elsewhere(entries: seq<Pending>, pid: Pid): seq<Pending> {
    if entries == [] then [] else
      var n := |entries| - 1;
      Elsewhere(entries[..n], pid) + if entries[n].pid == pid then [] else [entries[n]]
  }

  function SettledHere(u: State, entries: seq<Pending>, pid: Pid): seq<Message> {
    if entries == [] then [] else
      var n := |entries| - 1;
      SettledHere(u, entries[..n], pid) + if entries[n].pid == pid then [Settled(u, entries[n])] else []
  }

  lemma {:induction false} NoneHere(u: State, entries: seq<Pending>, pid: Pid)
    requires forall i | 0 <= i < |entries| :: entries[i].pid != pid
    ensures Elsewhere(entries, pid) == entries && SettledHere(u, entries, pid) == []
  {
    hide Settled;
    if entries != [] {
      NoneHere(u, entries[..|entries| - 1], pid);
    }
  }

  lemma {:induction false} OneHere(u: State, entries: seq<Pending>, i: nat)
    requires OnePerPid(entries) && i < |entries|
    ensures var pid := entries[i].pid;
            && Elsewhere(entries, pid) == entries[..i] + entries[i + 1..]
            && SettledHere(u, entries, pid) == [Settled(u, entries[i])]
  {
    hide Settled;
    var n := |entries| - 1;
    var pid := entries[i].pid;
    if i == n {
      NoneHere(u, entries[..n], pid);
      assert entries[n + 1..] == [];
    } else {
      assert entries[..n][i] == entries[i];
      OneHere(u, entries[..n], i);
      assert entries[..n][..i] == entries[..i];
      assert entries[..n][i + 1..] + [entries[n]] == entries[i + 1..];
    }
  }

  /** Settling the process's earlier program takes its entry out and says what is to be said. */
  lemma SettleIs(u: State, pid: Pid)
    requires OnePerPid(u.argvRetries)
    ensures var step := SettleEarlier(u, pid);
            step.state.argvRetries == Elsewhere(u.argvRetries, pid) && step.out == SettledHere(u, u.argvRetries, pid)
  {
    hide Settled, OnePerPid;
    if HasPending(u.argvRetries, pid) {
      OneHere(u, u.argvRetries, FirstPending(u.argvRetries, pid));
    } else {
      NoneHere(u, u.argvRetries, pid);
    }
  }

  lemma SettledAtStart(s: State, inputs: seq<Input>, k: nat, u: State)
    requires inputs != [] && inputs[|inputs| - 1].Seen? && k < |inputs| - 1 && IsUnread(s, inputs[..|inputs| - 1], k)
    requires IsNew(s) && IsAfter(u, s, inputs[..|inputs| - 1]) && EntriesAgree(s, inputs[..|inputs| - 1])
    ensures IsProgram(s, inputs, k) && IsProgram(s, inputs[..|inputs| - 1], k)
    ensures Settled(u, EntryOf(s, inputs[..|inputs| - 1], k)) == ReportOf(s, inputs, k)
  {
    hide Run, Entries, IsAfter, NameAt, SaidOf, ExecMessage, Decided, ProgramAt, IsOf, NextOf, Settled, CwdOf, HomeOf,
         NameOf, EntriesAgree, IsGiven, IsUnread, StartsIn, NameSince;
    var before := inputs[..|inputs| - 1];
    UnreadIsProgram(s, before, k);
    RecordKeeps(s, inputs, k);
    UnreadIsNotRead(s, before, k);
    UnreadIsNotGiven(s, before, k);
    GivenStays(s, inputs, k);
    var p := ProgramAt(s, inputs, k).value;
    var decided := Decided(inputs, k, p.pid);
    SettledIs(u, p, EntryOf(s, before, k), decided);
    UnreadSays(s, before, k, u);
    ExecMessageIs(u, s, before, p, SaidOf(p, decided, NameOf(u, p.pid)));
  }

  lemma {:induction false} StartList(s: State, inputs: seq<Input>, m: nat, u: State, pid: Pid)
    requires inputs != [] && inputs[|inputs| - 1].Seen? && m <= |inputs| - 1
    requires IsNew(s) && IsAfter(u, s, inputs[..|inputs| - 1]) && EntriesAgree(s, inputs[..|inputs| - 1])
    requires StartsIn(s, inputs, |inputs| - 1, pid)
    ensures Entries(s, inputs, m) == Elsewhere(Entries(s, inputs[..|inputs| - 1], m), pid)
    ensures NewlyReported(s, inputs, m) == SettledHere(u, Entries(s, inputs[..|inputs| - 1], m), pid)
  {
    hide IsUnread, TellsOf, ReportOf, ProgramAt, Run, IsAfter, EntriesAgree, Settled, Speaker, Decided, NameSince,
         NextOf;
    if m > 0 {
      var before := inputs[..|inputs| - 1];
      StartList(s, inputs, m - 1, u, pid);
      if IsUnread(s, before, m - 1) {
        EntryAtRecord(s, inputs, m - 1);
        RecordKeeps(s, inputs, m - 1);
        TellsWhen(s, inputs, m - 1);
        SettledAtStart(s, inputs, m - 1, u);
        var e := EntryOf(s, before, m - 1);
        StartNamesNone(s, inputs);
        LastOf(u, Entries(s, before, m - 1), e, pid);
      } else {
        assert Entries(s, before, m) == Entries(s, before, m - 1);
        UnreadBefore(s, inputs, m - 1);
      }
    }
  }

  lemma StartNamesNone(s: State, inputs: seq<Input>)
    requires inputs != [] && inputs[|inputs| - 1].Seen? && IsProgram(s, inputs, |inputs| - 1)
    ensures NamedBy(s, inputs) == None
  {
    hide Speaker;
  }

  lemma LastOf(u: State, entries: seq<Pending>, e: Pending, pid: Pid)
    ensures Elsewhere(entries + [e], pid) == Elsewhere(entries, pid) + if e.pid == pid then [] else [e]
    ensures SettledHere(u, entries + [e], pid)
         == SettledHere(u, entries, pid) + if e.pid == pid then [Settled(u, e)] else []
  {
    hide Settled;
    assert (entries + [e])[..|entries|] == entries;
  }

  lemma HomeAtStart(s: State, inputs: seq<Input>, pid: Pid, t: State)
    requires IsNew(s) && IsAfter(t, s, inputs)
    ensures CwdOf(CloseOnExec(t, pid), pid) == HomeOf(s, inputs, pid)
  {
    hide HomeOf, KeptOnExec, IsAfter;
    HomeIs(s, inputs, pid, t);
  }

  lemma GivenIs(s: State, inputs: seq<Input>, pid: Pid, t: State)
    requires inputs != [] && StartsIn(s, inputs, |inputs| - 1, pid) && IsAfter(t, s, inputs[..|inputs| - 1])
    ensures IsGiven(s, inputs, |inputs| - 1) <==> pid == t.root && t.rootCommand.Some?
    ensures t.rootCommand.Some? ==> t.rootCommand == s.rootCommand
  {
    hide Run, RootHasRun, ProgramAt;
    CommandIs(s, inputs[..|inputs| - 1]);
    SetupStays(s, inputs[..|inputs| - 1]);
  }

  /** What a program's first reading does. */
  lemma FirstReading(u: State, p: Program, answer: Answer)
    ensures var step := StartProgram(u, p.pid, p.time, p.image, answer);
            var decided := DecidedAfter(None, answer);
            if p.pid == u.root && u.rootCommand.Some? then
              && step.state.argvRetries == u.argvRetries
              && step.out == [ExecMessage(u, p.pid, p.time,
                                          if u.rootCommand.value == [] then [] else u.rootCommand.value[0],
                                          u.rootCommand.value)]
            else if decided.Some? && IsOf(decided.value, p) then
              && step.state.argvRetries == u.argvRetries
              && step.out == [ExecMessage(u, p.pid, p.time, decided.value.inspection.executable,
                                          decided.value.inspection.argv)]
            else
              && step.state.argvRetries
              == u.argvRetries + [Pending(p.pid, p.time, p.image, decided.Some?, NextOf(p, decided), false)]
              && step.out == []
  {
    hide CommandLine, IsOf, IsOfNext, ExecMessage;
    ReadingIs(p, answer);
    IsOneOf(p, answer);
  }

  /** And what is told of it by then. */
  lemma FirstTold(s: State, inputs: seq<Input>, p: Program)
    requires inputs != [] && inputs[|inputs| - 1].Seen? && ProgramAt(s, inputs, |inputs| - 1) == Some(p)
    ensures var n := |inputs| - 1;
            var decided := DecidedAfter(None, inputs[n].env.inspect(p.pid));
            && (IsUnread(s, inputs, n) <==> !(decided.Some? && IsOf(decided.value, p)) && !IsGiven(s, inputs, n))
            && (TellsOf(s, inputs, n) <==> !IsUnread(s, inputs, n))
            && EntryOf(s, inputs, n) == Pending(p.pid, p.time, p.image, decided.Some?, NextOf(p, decided), false)
            && Decided(inputs, n, p.pid) == decided
  {
    hide IsGiven, ProgramAt, IsOf, NextOf, Decided;
    DecidedAtOnce(inputs, |inputs| - 1, p.pid);
    NoNameYet(s, inputs, p.pid);
  }

  /** A program is told of at once, or has an entry from now on. */
  lemma StartIs(s: State, inputs: seq<Input>, p: Program, u: State)
    requires inputs != [] && inputs[|inputs| - 1].Seen? && ProgramAt(s, inputs, |inputs| - 1) == Some(p)
    requires IsGiven(s, inputs, |inputs| - 1) <==> p.pid == u.root && u.rootCommand.Some?
    requires u.rootCommand.Some? ==> u.rootCommand == s.rootCommand
    requires CwdOf(u, p.pid) == HomeOf(s, inputs[..|inputs| - 1], p.pid)
    ensures var step := StartProgram(u, p.pid, p.time, p.image, inputs[|inputs| - 1].env.inspect(p.pid));
            var n := |inputs| - 1;
            && step.state.argvRetries
            == u.argvRetries + (if IsUnread(s, inputs, n) then [EntryOf(s, inputs, n)] else [])
            && step.out == if TellsOf(s, inputs, n) then [ReportOf(s, inputs, n)] else []
  {
    hide IsGiven, ProgramAt, IsOf, CwdOf, HomeOf, Decided, NameAt, BeginsWith, StartProgram, IsUnread, EntryOf, TellsOf,
         NextOf;
    FirstReading(u, p, inputs[|inputs| - 1].env.inspect(p.pid));
    FirstTold(s, inputs, p);
    assert u.argvRetries + [] == u.argvRetries;
  }

  lemma NoNameYet(s: State, inputs: seq<Input>, pid: Pid)
    requires inputs != []
    ensures NameSince(s, inputs, |inputs| - 1, pid) == None
  {
  }

  // ---- One input ----

  function ExecsOf(ms: seq<Message>): seq<Message> {
    if ms == [] then [] else ExecsOf(ms[..|ms| - 1]) + if ms[|ms| - 1].event.Exec? then [ms[|ms| - 1]] else []
  }

  lemma {:induction false} ExecsConcat(a: seq<Message>, b: seq<Message>)
    ensures ExecsOf(a + b) == ExecsOf(a) + ExecsOf(b)
    decreases |b|
  {
    if b == [] {
      assert a + b == a;
    } else {
      ExecsConcat(a, b[..|b| - 1]);
      assert (a + b)[..|a + b| - 1] == a + b[..|b| - 1];
    }
  }

  lemma {:induction false} OnlyExecs(ms: seq<Message>)
    requires forall i | 0 <= i < |ms| :: ms[i].event.Exec?
    ensures ExecsOf(ms) == ms
  {
    if ms != [] {
      OnlyExecs(ms[..|ms| - 1]);
    }
  }

  lemma {:induction false} NoExecs(ms: seq<Message>)
    requires forall i | 0 <= i < |ms| :: !ms[i].event.Exec?
    ensures ExecsOf(ms) == []
  {
    if ms != [] {
      NoExecs(ms[..|ms| - 1]);
    }
  }

  lemma {:induction false} TellsExecs(s: State, inputs: seq<Input>, k: nat)
    ensures forall i | 0 <= i < |NewlyReported(s, inputs, k)| :: NewlyReported(s, inputs, k)[i].event.Exec?
  {
    hide TellsOf, SaidOf, HomeOf, IsGiven, ProgramAt;
    if k > 0 {
      TellsExecs(s, inputs, k - 1);
      assert TellsOf(s, inputs, k - 1) ==> IsProgram(s, inputs, k - 1) by { TellsPrograms(s, inputs, k - 1); }
    }
  }

  lemma TellsPrograms(s: State, inputs: seq<Input>, k: nat)
    ensures TellsOf(s, inputs, k) ==> IsProgram(s, inputs, k)
  {
    hide IsProgram, IsUnread;
  }

  /** What an input does to the unread programs, and what it says of them. */
  predicate StepTells(step: Step, entries: seq<Pending>, told: seq<Message>) {
    step.state.argvRetries == entries && ExecsOf(step.out) == told
  }

  lemma ProgramInput(s: State, inputs: seq<Input>, t: State)
    requires inputs != [] && inputs[|inputs| - 1].Seen? && IsProgram(s, inputs, |inputs| - 1)
    requires IsNew(s) && IsAfter(t, s, inputs[..|inputs| - 1]) && EntriesAgree(s, inputs[..|inputs| - 1])
    requires OnePerPid(t.argvRetries)
    ensures var p := ProgramAt(s, inputs, |inputs| - 1).value;
            var step := ExecStep(t, p.pid, p.time, p.image, inputs[|inputs| - 1].env);
            step.state.argvRetries == Entries(s, inputs, |inputs|) && step.out == NewlyReported(s, inputs, |inputs|)
  {
    hide Run, CloseOnExec, SettleEarlier, StartProgram, ProgramAt, OnePerPid, IsUnread, TellsOf, EntryOf, ReportOf,
         IsGiven, CwdOf, HomeOf, Settled;
    var n := |inputs| - 1;
    var before := inputs[..n];
    var p := ProgramAt(s, inputs, n).value;
    var u := CloseOnExec(t, p.pid);
    var earlier := SettleEarlier(u, p.pid);
    SettleIs(u, p.pid);
    StartList(s, inputs, n, t, p.pid);
    SettlesAlike(t, u, u.argvRetries, p.pid);
    GivenIs(s, inputs, p.pid, t);
    HomeAtStart(s, before, p.pid, t);
    SameHome(u, earlier.state, p.pid);
    StartIs(s, inputs, p, earlier.state);
  }

  lemma SameHome(t: State, u: State, pid: Pid)
    requires t.processes == u.processes
    ensures CwdOf(t, pid) == CwdOf(u, pid)
  {
  }

  /** Closing descriptors changes nothing of what is said. */
  lemma {:induction false} SettlesAlike(t: State, u: State, entries: seq<Pending>, pid: Pid)
    requires u == CloseOnExec(t, pid)
    ensures SettledHere(u, entries, pid) == SettledHere(t, entries, pid)
  {
    hide CloseOnExec, Settled;
    if entries != [] {
      var n := |entries| - 1;
      SettlesAlike(t, u, entries[..n], pid);
      SettledAlike(t, u, entries[n], pid);
    }
  }

  lemma SettledAlike(t: State, u: State, e: Pending, pid: Pid)
    requires u == CloseOnExec(t, pid)
    ensures Settled(u, e) == Settled(t, e)
  {
    hide KeptOnExec, TrimDashes, LastComponent;
    assert PassedOn(u, e.pid, if e.movedOn.Some? then e.movedOn.value.argv else [])
        == PassedOn(t, e.pid, if e.movedOn.Some? then e.movedOn.value.argv else []);
  }

  lemma ProcessTells(t: State, pid: Pid, r: Record, env: Env)
    requires r.Code() != DATA_EXEC
    ensures StepTells(ProcessStep(t, pid, r, env),
                      if r.Code() == STRING_EXEC then MarkNamed(t.argvRetries, pid) else t.argvRetries, [])
  {
    hide SyscallStep, LookupStep, ProcExit, IsFollowed, MarkNamed, Decoded;
    NoExecs([]);
    NoExecs(SyscallStep(t, pid, r, env).out);
    ExitTells(t, pid, r);
  }

  lemma ExitTells(t: State, pid: Pid, r: Record)
    ensures ExecsOf(ProcExit(t, pid, r).out) == []
  {
    hide Believable, Waiting, EndProcesses, AsI32;
    NoExecs(ProcExit(t, pid, r).out);
  }

  lemma NewThreadTells(t: State, r: Record)
    ensures StepTells(NewThread(t, r), t.argvRetries, [])
  {
    hide WithoutPid, AsI32;
    NoExecs(NewThread(t, r).out);
  }

  lemma SilentTells(u: State)
    ensures StepTells(Step(u, []), u.argvRetries, [])
  {
  }

  lemma OtherTells(t: State, r: Record, env: Env)
    requires r.Code() != DATA_EXEC || !IsFollowedThread(t, r.thread)
    ensures StepTells(Interpret(t, r, env),
                      if r.Code() == STRING_EXEC && IsFollowedThread(t, r.thread)
                      then MarkNamed(t.argvRetries, t.threads[r.thread]) else t.argvRetries, [])
  {
    hide ProcessStep, NewThread, MarkNamed, StepTells, Max;
    var u := Noticed(t, r);
    if r.Code() == NEWTHREAD {
      NewThreadTells(u, r);
    } else if r.Code() == LOST_EVENTS {
      SilentTells(u.(dropped := u.dropped + 1));
    } else if IsFollowedThread(t, r.thread) {
      ProcessTells(u, t.threads[r.thread], r, env);
    } else {
      SilentTells(u);
    }
  }

  lemma OtherInput(s: State, inputs: seq<Input>, t: State)
    requires inputs != [] && inputs[|inputs| - 1].Seen? && !IsProgram(s, inputs, |inputs| - 1)
    requires IsAfter(t, s, inputs[..|inputs| - 1]) && EntriesAgree(s, inputs[..|inputs| - 1])
    ensures StepTells(Interpret(t, inputs[|inputs| - 1].record, inputs[|inputs| - 1].env),
                      Entries(s, inputs, |inputs|), NewlyReported(s, inputs, |inputs|))
  {
    hide Run, Interpret, MarkNamed, Speaker, IsUnread, ReportOf, EntryOf, TellsOf, ExecsOf;
    var n := |inputs| - 1;
    var r := inputs[n].record;
    RecordList(s, inputs, n);
    UnreadMeansProgram(s, inputs, n);
    SpeakerIs(s, inputs[..n], r.thread);
    OtherTells(t, r, inputs[n].env);
  }

  lemma UnreadMeansProgram(s: State, inputs: seq<Input>, k: nat)
    requires !IsProgram(s, inputs, k)
    ensures !IsUnread(s, inputs, k) && !TellsOf(s, inputs, k)
  {
    hide ProgramAt, Decided, IsOf, IsGiven, StartsIn, NameSince;
  }

  lemma DequeuedIsAfter(s: State, inputs: seq<Input>)
    ensures var t := Dequeued(Run(s, inputs).state); IsAfter(t, s, inputs) && IsOnTime(t, s, inputs)
  {
    hide Run, LatestOf;
    LatestIs(s, inputs);
    SetupStays(s, inputs);
  }

  lemma AskedIsAfter(s: State, inputs: seq<Input>, t: State, u: State)
    requires IsAfter(t, s, inputs)
    requires u == t.(started := u.started, replaced := u.replaced, newTasks := u.newTasks, latest := u.latest)
    ensures IsAfter(u, s, inputs)
  {
    hide Run;
  }

  lemma RecordTells(s: State, inputs: seq<Input>)
    requires IsNew(s) && inputs != [] && inputs[|inputs| - 1].Seen? && EntriesAgree(s, inputs[..|inputs| - 1])
    ensures StepTells(Interpret(Dequeued(Run(s, inputs[..|inputs| - 1]).state), inputs[|inputs| - 1].record,
                                inputs[|inputs| - 1].env),
                      Entries(s, inputs, |inputs|), NewlyReported(s, inputs, |inputs|))
  {
    hide Run, Interpret, IsAfter, Entries, NewlyReported, OnePerPid, EntriesAgree, Speaker;
    var n := |inputs| - 1;
    var t := Dequeued(Run(s, inputs[..n]).state);
    DequeuedIsAfter(s, inputs[..n]);
    if IsProgram(s, inputs, n) {
      StartTells(s, inputs, t);
    } else {
      OtherInput(s, inputs, t);
    }
  }

  lemma StartTells(s: State, inputs: seq<Input>, t: State)
    requires IsNew(s) && inputs != [] && inputs[|inputs| - 1].Seen? && EntriesAgree(s, inputs[..|inputs| - 1])
    requires t == Dequeued(Run(s, inputs[..|inputs| - 1]).state) && IsProgram(s, inputs, |inputs| - 1)
    ensures StepTells(Interpret(t, inputs[|inputs| - 1].record, inputs[|inputs| - 1].env),
                      Entries(s, inputs, |inputs|), NewlyReported(s, inputs, |inputs|))
  {
    hide Run, ExecStep, IsAfter, Entries, NewlyReported, OnePerPid, EntriesAgree, Speaker, NewThread;
    var n := |inputs| - 1;
    var r := inputs[n].record;
    SpeakerIs(s, inputs[..n], r.thread);
    var u := ReplaceAsker(Noticed(t, r), r.thread);
    PendingFindsItsName(s, inputs[..n]);
    DequeuedIsAfter(s, inputs[..n]);
    AskedIsAfter(s, inputs[..n], t, u);
    ProgramInput(s, inputs, u);
    TellsExecs(s, inputs, |inputs|);
    OnlyExecs(NewlyReported(s, inputs, |inputs|));
  }

  lemma TickTells(s: State, inputs: seq<Input>)
    requires IsNew(s) && inputs != [] && inputs[|inputs| - 1].Ticked? && EntriesAgree(s, inputs[..|inputs| - 1])
    ensures StepTells(TickStep(Dequeued(Run(s, inputs[..|inputs| - 1]).state), inputs[|inputs| - 1].env),
                      Entries(s, inputs, |inputs|), NewlyReported(s, inputs, |inputs|))
  {
    hide Run, RetryList, Believable, Waiting, EndProcesses, IsUnread, ReportOf, EntryOf, IsAfter, TellsOf;
    var n := |inputs| - 1;
    var t := Dequeued(Run(s, inputs[..n]).state);
    var env := inputs[n].env;
    DequeuedIsAfter(s, inputs[..n]);
    TickList(s, inputs, n, t);
    TickIsNoProgram(s, inputs);
    UnreadMeansProgram(s, inputs, n);
    var retried := RetryCommandLines(t, env, false);
    ExecsConcat(retried.out, BelieveExits(retried.state).out);
    TellsExecs(s, inputs, n);
    OnlyExecs(retried.out);
    NoExecs(BelieveExits(retried.state).out);
  }

  lemma TickIsNoProgram(s: State, inputs: seq<Input>)
    requires inputs != [] && inputs[|inputs| - 1].Ticked?
    ensures !IsProgram(s, inputs, |inputs| - 1)
  {
  }

  // ---- A run ----

  lemma {:induction false} ExecsCounted(ms: seq<Message>, x: Message)
    ensures multiset(ExecsOf(ms))[x] == if x.event.Exec? then multiset(ms)[x] else 0
  {
    if ms != [] {
      ExecsCounted(ms[..|ms| - 1], x);
      assert ms == ms[..|ms| - 1] + [ms[|ms| - 1]];
    }
  }

  /** The queue's release delivers and keeps just what it was given. */
  lemma ReleaseKeepsExecs(u: State, batch: seq<Message>)
    ensures var step := Release(u, batch);
            multiset(ExecsOf(step.out)) + multiset(ExecsOf(step.state.queued)) == multiset(ExecsOf(batch))
  {
    hide SortByTime, ReadyCount, ExecsOf;
    var step := Release(u, batch);
    SortPermutes(batch);
    assert step.out + step.state.queued == SortByTime(batch);
    forall x
      ensures (multiset(ExecsOf(step.out)) + multiset(ExecsOf(step.state.queued)))[x] == multiset(ExecsOf(batch))[x]
    {
      ExecsCounted(step.out, x);
      ExecsCounted(step.state.queued, x);
      ExecsCounted(batch, x);
      assert multiset(SortByTime(batch)) == multiset(step.out) + multiset(step.state.queued);
    }
  }

  lemma StepKeepsExecs(s: State, inputs: seq<Input>)
    requires IsNew(s) && inputs != [] && EntriesAgree(s, inputs[..|inputs| - 1])
    ensures EntriesAgree(s, inputs)
    ensures var t, u := Run(s, inputs[..|inputs| - 1]).state, Run(s, inputs);
            multiset(ExecsOf(Next(t, inputs[|inputs| - 1]).out)) + multiset(ExecsOf(u.state.queued))
            == multiset(ExecsOf(t.queued)) + multiset(NewlyReported(s, inputs, |inputs|))
  {
    hide Interpret, TickStep, Entries, NewlyReported, ExecsOf, Release;
    var n := |inputs| - 1;
    var t := Run(s, inputs[..n]).state;
    if inputs[n].Seen? {
      RecordTells(s, inputs);
    } else {
      TickTells(s, inputs);
    }
    var inner := if inputs[n].Seen? then Interpret(Dequeued(t), inputs[n].record, inputs[n].env)
                 else TickStep(Dequeued(t), inputs[n].env);
    ReleaseKeepsExecs(inner.state, t.queued + inner.out);
    ExecsConcat(t.queued, inner.out);
  }

  /** What is delivered and queued of programs is what has been told. */
  lemma {:induction false} RunTells(s: State, inputs: seq<Input>)
    requires IsNew(s)
    ensures EntriesAgree(s, inputs)
    ensures multiset(ExecsOf(Run(s, inputs).out)) + multiset(ExecsOf(Run(s, inputs).state.queued))
         == multiset(AllReported(s, inputs))
  {
    hide Next, Entries, NewlyReported, ExecsOf;
    if inputs == [] {
      NothingTold(s);
    } else {
      var n := |inputs| - 1;
      RunTells(s, inputs[..n]);
      StepKeepsExecs(s, inputs);
      var before, next := Run(s, inputs[..n]), Next(Run(s, inputs[..n]).state, inputs[n]);
      ExecsConcat(before.out, next.out);
      Together(ExecsOf(before.out), ExecsOf(before.state.queued), AllReported(s, inputs[..n]),
               ExecsOf(next.out), ExecsOf(next.state.queued), NewlyReported(s, inputs, |inputs|));
    }
  }

  lemma Together<T>(out: seq<T>, queued: seq<T>, told: seq<T>, more: seq<T>, left: seq<T>, newly: seq<T>)
    requires multiset(out) + multiset(queued) == multiset(told)
    requires multiset(more) + multiset(left) == multiset(queued) + multiset(newly)
    ensures multiset(out + more) + multiset(left) == multiset(told + newly)
  {
    forall x ensures (multiset(out + more) + multiset(left))[x] == multiset(told + newly)[x] {
      assert (multiset(out) + multiset(queued))[x] == multiset(told)[x];
      assert (multiset(more) + multiset(left))[x] == (multiset(queued) + multiset(newly))[x];
    }
  }

  lemma NothingTold(s: State)
    requires IsNew(s)
    ensures EntriesAgree(s, []) && ExecsOf([]) == []
  {
  }

  /**
   The exec messages of a recording are one for each program that a followed process started: what its own
   command was, or the first deciding answer said, or it passed on, or it was named.
   */
  lemma ExecsAreTold(s: State, inputs: seq<Input>, last: Env)
    requires IsNew(s)
    ensures multiset(ExecsOf(Recording(s, inputs, last)))
         == multiset(AllReported(s, inputs) + LastReported(s, inputs, last, |inputs|))
  {
    hide Run, FlushStep, SortByTime, AllReported, LastReported, ExecsOf;
    RunTells(s, inputs);
    var t := Run(s, inputs).state;
    var step := FlushStep(Dequeued(t), last);
    FlushTells(s, inputs, last);
    FlushReleases(t, last);
    SortPermutes(t.queued + step.out);
    SameExecs(Flush(t, last).out, t.queued + step.out);
    ExecsConcat(t.queued, step.out);
    ExecsConcat(Run(s, inputs).out, Flush(t, last).out);
  }

  lemma SameExecs(a: seq<Message>, b: seq<Message>)
    requires multiset(a) == multiset(b)
    ensures multiset(ExecsOf(a)) == multiset(ExecsOf(b))
  {
    hide ExecsOf;
    forall x ensures multiset(ExecsOf(a))[x] == multiset(ExecsOf(b))[x] {
      ExecsCounted(a, x);
      ExecsCounted(b, x);
    }
  }

  lemma OnlyTheMiddle(a: seq<Message>, b: seq<Message>, c: seq<Message>)
    requires forall i | 0 <= i < |a| :: !a[i].event.Exec?
    requires forall i | 0 <= i < |b| :: b[i].event.Exec?
    requires forall i | 0 <= i < |c| :: !c[i].event.Exec?
    ensures ExecsOf(a + b + c) == b
  {
    hide ExecsOf;
    ExecsConcat(a + b, c);
    ExecsConcat(a, b);
    NoExecs(a);
    OnlyExecs(b);
    NoExecs(c);
  }

  lemma FlushTells(s: State, inputs: seq<Input>, last: Env)
    requires IsNew(s) && EntriesAgree(s, inputs)
    ensures ExecsOf(FlushStep(Dequeued(Run(s, inputs).state), last).out) == LastReported(s, inputs, last, |inputs|)
  {
    hide Run, RetryList, EndProcesses, LastReported, Entries, OpenMessages, IsAfter, ExecsOf, IsOnTime;
    var t := Dequeued(Run(s, inputs).state);
    var u := t.(heldOpens := []);
    HeldIsAfter(s, inputs, u);
    FlushList(s, inputs, last, |inputs|, u);
    var opens, retried := OpenMessages(t, t.heldOpens), RetryCommandLines(u, last, true);
    RetriesSpeak(u, u.argvRetries, last, true);
    OnlyTheMiddle(opens, retried.out, EmitExits(retried.state).out);
  }

  lemma HeldIsAfter(s: State, inputs: seq<Input>, u: State)
    requires u == Dequeued(Run(s, inputs).state).(heldOpens := [])
    ensures IsAfter(u, s, inputs) && IsOnTime(u, s, inputs)
  {
    hide Run, LatestOf;
    DequeuedIsAfter(s, inputs);
  }

  predicate AllExecs(ms: seq<Message>) {
    forall i | 0 <= i < |ms| :: ms[i].event.Exec?
  }

  lemma {:induction false} RetriesSpeak(u: State, pending: seq<Pending>, env: Env, lastChance: bool)
    ensures AllExecs(RetryList(u, pending, env, lastChance).out)
  {
    hide Retry;
    if pending != [] {
      var n := |pending| - 1;
      RetriesSpeak(u, pending[..n], env, lastChance);
      var before, all := RetryList(u, pending[..n], env, lastChance), RetryList(u, pending, env, lastChance);
      match Retry(u, pending[n], env.inspect(pending[n].pid), lastChance) {
        case Keep(_) => assert all.out == before.out;
        case Report(m, _) => assert all.out == before.out + [m];
      }
    }
  }

  // ---- What is reported, program by program ----

  lemma {:induction false} NewlyHas(s: State, inputs: seq<Input>, m: nat, k: nat)
    requires k < m && TellsOf(s, inputs, k)
    ensures IsProgram(s, inputs, k) && ReportOf(s, inputs, k) in NewlyReported(s, inputs, m)
  {
    hide TellsOf, ReportOf, ProgramAt;
    TellsPrograms(s, inputs, k);
    if k < m - 1 {
      NewlyHas(s, inputs, m - 1, k);
    }
  }

  lemma {:induction false} NewlyFrom(s: State, inputs: seq<Input>, m: nat, x: Message) returns (k: nat)
    requires x in NewlyReported(s, inputs, m)
    ensures k < m && TellsOf(s, inputs, k) && IsProgram(s, inputs, k) && x == ReportOf(s, inputs, k)
  {
    hide TellsOf, ReportOf, ProgramAt;
    TellsPrograms(s, inputs, m - 1);
    if x in NewlyReported(s, inputs, m - 1) {
      k := NewlyFrom(s, inputs, m - 1, x);
    } else {
      k := m - 1;
    }
  }

  lemma {:induction false} TellingIsReported(s: State, inputs: seq<Input>, k: nat, n: nat)
    requires k < n <= |inputs| && TellsOf(s, inputs[..n], k)
    ensures IsProgram(s, inputs[..n], k) && ReportOf(s, inputs[..n], k) in AllReported(s, inputs)
  {
    hide TellsOf, ReportOf, ProgramAt, NewlyReported;
    TellsPrograms(s, inputs[..n], k);
    if n == |inputs| {
      assert inputs[..n] == inputs;
      NewlyHas(s, inputs, n, k);
    } else {
      assert inputs[..|inputs| - 1][..n] == inputs[..n];
      TellingIsReported(s, inputs[..|inputs| - 1], k, n);
    }
  }

  lemma {:induction false} ReportedIsTelling(s: State, inputs: seq<Input>, m: Message) returns (k: nat, n: nat)
    requires m in AllReported(s, inputs)
    ensures k < n <= |inputs| && TellsOf(s, inputs[..n], k) && IsProgram(s, inputs[..n], k)
    ensures m == ReportOf(s, inputs[..n], k)
  {
    hide TellsOf, ReportOf, ProgramAt, NewlyReported;
    var before := inputs[..|inputs| - 1];
    if m in AllReported(s, before) {
      k, n := ReportedIsTelling(s, before, m);
      assert before[..n] == inputs[..n];
    } else {
      n := |inputs|;
      assert inputs[..n] == inputs;
      k := NewlyFrom(s, inputs, n, m);
    }
  }

  lemma {:induction false} LastHas(s: State, inputs: seq<Input>, last: Env, m: nat, k: nat)
    requires k < m <= |inputs| && IsUnread(s, inputs, k)
    ensures IsProgram(s, inputs, k) && LastReportOf(s, inputs, last, k) in LastReported(s, inputs, last, m)
  {
    hide IsUnread, LastReportOf, ProgramAt;
    UnreadIsProgram(s, inputs, k);
    if k < m - 1 {
      LastHas(s, inputs, last, m - 1, k);
    }
  }

  lemma {:induction false} LastFrom(s: State, inputs: seq<Input>, last: Env, m: nat, x: Message) returns (k: nat)
    requires m <= |inputs| && x in LastReported(s, inputs, last, m)
    ensures IsUnread(s, inputs, k) && IsProgram(s, inputs, k) && x == LastReportOf(s, inputs, last, k)
  {
    hide IsUnread, LastReportOf, ProgramAt;
    if x in LastReported(s, inputs, last, m - 1) {
      k := LastFrom(s, inputs, last, m - 1, x);
    } else {
      k := m - 1;
      UnreadIsProgram(s, inputs, k);
    }
  }

  lemma {:induction false} ExecIsThere(ms: seq<Message>, m: Message)
    ensures m in ExecsOf(ms) <==> m in ms && m.event.Exec?
  {
    if ms != [] {
      ExecIsThere(ms[..|ms| - 1], m);
    }
  }

  lemma UnreadOrTold(s: State, inputs: seq<Input>, k: nat)
    requires IsProgram(s, inputs, k)
    ensures TellsOf(s, inputs, k)
        <==> !IsUnread(s, inputs, k) && (k == |inputs| - 1 || IsUnread(s, inputs[..|inputs| - 1], k))
    ensures k < |inputs| - 1 && !IsUnread(s, inputs[..|inputs| - 1], k) ==> !IsUnread(s, inputs, k)
    ensures k < |inputs| - 1 ==> IsProgram(s, inputs[..|inputs| - 1], k)
  {
    hide ProgramAt, Decided, IsOf, IsGiven, StartsIn, NameSince;
    if k < |inputs| - 1 {
      ProgramStays(s, inputs, k);
    }
  }

  lemma {:induction false} ToldUnlessUnread(s: State, inputs: seq<Input>, k: nat)
    requires IsProgram(s, inputs, k)
    ensures ReportBy(s, inputs, k).Some? <==> !IsUnread(s, inputs, k)
  {
    hide IsUnread, TellsOf, ReportOf, ProgramAt;
    UnreadOrTold(s, inputs, k);
    if k < |inputs| - 1 {
      ToldUnlessUnread(s, inputs[..|inputs| - 1], k);
    } else {
      assert ReportBy(s, inputs[..|inputs| - 1], k) == None;
    }
  }

  /** A program is told of once only. */
  lemma {:induction false} TellingIsReport(s: State, inputs: seq<Input>, k: nat, n: nat)
    requires k < n <= |inputs| && TellsOf(s, inputs[..n], k)
    ensures IsProgram(s, inputs[..n], k) && ReportBy(s, inputs, k) == Some(ReportOf(s, inputs[..n], k))
  {
    hide TellsOf, ReportOf, IsUnread, ProgramAt;
    var before := inputs[..|inputs| - 1];
    TellsPrograms(s, inputs[..n], k);
    if n < |inputs| {
      assert before[..n] == inputs[..n];
      TellingIsReport(s, before, k, n);
    } else {
      assert inputs[..n] == inputs;
      UnreadOrTold(s, inputs, k);
      if k < n - 1 {
        ToldUnlessUnread(s, before, k);
      } else {
        assert ReportBy(s, before, k) == None;
      }
    }
  }

  lemma {:induction false} ReportIsTelling(s: State, inputs: seq<Input>, k: nat) returns (n: nat)
    requires ReportBy(s, inputs, k).Some?
    ensures k < n <= |inputs| && TellsOf(s, inputs[..n], k) && IsProgram(s, inputs[..n], k)
    ensures ReportBy(s, inputs, k).value == ReportOf(s, inputs[..n], k)
  {
    hide TellsOf, ReportOf, ProgramAt;
    var before := inputs[..|inputs| - 1];
    if ReportBy(s, before, k).Some? {
      n := ReportIsTelling(s, before, k);
      assert before[..n] == inputs[..n];
    } else {
      n := |inputs|;
      assert inputs[..n] == inputs;
      TellsPrograms(s, inputs, k);
    }
  }

  lemma {:induction false} ProgramStaysOn(s: State, inputs: seq<Input>, k: nat, n: nat)
    requires k < n <= |inputs|
    ensures IsProgram(s, inputs[..n], k) <==> IsProgram(s, inputs, k)
  {
    assert inputs[..n][..k] == inputs[..k];
  }

  /** An exec message is recorded if and only if it is the report of a program. */
  lemma ExecsAreReports(s: State, inputs: seq<Input>, last: Env, m: Message)
    requires IsNew(s) && m.event.Exec?
    ensures m in Recording(s, inputs, last)
       <==> exists k :: IsProgram(s, inputs, k) && m == Recorded(s, inputs, last, k)
  {
    hide Recording, AllReported, LastReported, ExecsOf, TellsOf, IsUnread, ReportOf, LastReportOf, ReportBy, IsProgram;
    ExecsAreTold(s, inputs, last);
    ExecIsThere(Recording(s, inputs, last), m);
    var told, late := AllReported(s, inputs), LastReported(s, inputs, last, |inputs|);
    assert m in multiset(ExecsOf(Recording(s, inputs, last))) <==> m in multiset(told + late);
    if m in told {
      var k, n := ReportedIsTelling(s, inputs, m);
      ProgramStaysOn(s, inputs, k, n);
      TellingIsReport(s, inputs, k, n);
    } else if m in late {
      var k := LastFrom(s, inputs, last, |inputs|, m);
      ToldUnlessUnread(s, inputs, k);
    }
    forall k: nat | IsProgram(s, inputs, k) && m == Recorded(s, inputs, last, k) ensures m in told + late {
      ReportIsThere(s, inputs, last, k);
    }
  }

  lemma ReportIsThere(s: State, inputs: seq<Input>, last: Env, k: nat)
    requires IsProgram(s, inputs, k)
    ensures Recorded(s, inputs, last, k) in AllReported(s, inputs) + LastReported(s, inputs, last, |inputs|)
  {
    hide AllReported, LastReported, IsUnread, ReportOf, LastReportOf, ProgramAt, ReportBy, TellsOf;
    ToldUnlessUnread(s, inputs, k);
    if ReportBy(s, inputs, k).Some? {
      var n := ReportIsTelling(s, inputs, k);
      TellingIsReported(s, inputs, k, n);
    } else {
      assert k < |inputs|;
      LastHas(s, inputs, last, |inputs|, k);
    }
  }

  /**
   A program whose process answers for it when it starts is recorded with exactly the executable and the
   arguments of that answer, in the directory its process is in by the records.
   */
  lemma ReadAtOnceIsRecorded(s: State, inputs: seq<Input>, last: Env, k: nat)
    requires IsNew(s) && IsProgram(s, inputs, k) && !IsGiven(s, inputs, k)
    requires var p := ProgramAt(s, inputs, k).value; inputs[k].Seen? && IsOf(inputs[k].env.inspect(p.pid), p)
    ensures var p := ProgramAt(s, inputs, k).value;
            var read := inputs[k].env.inspect(p.pid).inspection;
            Message(p.time, p.pid, 0, Exec(read.argv, HomeOf(s, inputs[..k], p.pid), read.executable))
            in Recording(s, inputs, last)
  {
    hide Recording, HomeOf, IsOf, IsOfNext, RootHasRun, Speaker, Decided, NameAt;
    var p := ProgramAt(s, inputs, k).value;
    var upto := inputs[..k + 1];
    assert upto[..k] == inputs[..k];
    assert ProgramAt(s, upto, k) == Some(p);
    FirstTold(s, upto, p);
    IsOneOf(p, upto[k].env.inspect(p.pid));
    TellingIsReport(s, inputs, k, k + 1);
    ExecsAreReports(s, inputs, last, ReportOf(s, upto, k));
  }
}
