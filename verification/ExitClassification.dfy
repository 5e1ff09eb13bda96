/**
 Telling real exits from the others. The kernel reports an exit for a start that failed, for a
 program that another one replaced, and for a process that ended. This states the life of each
 thread as the kernel runs it, and shows that exactly the real ends become exits.
 */
module ExitClassification {
  import opened Basics
  import opened Messages
  import opened CollectorModel
  import opened DeliveryOrder
  import opened Ledger

  // ---- The life of a thread ----

  /**
   A thread runs. Starting a program makes a new thread that is only starting, on behalf of the one
   that asked. Either the start succeeds, and the asker's program is over and only its end is still
   to be reported, or the start failed, and that is reported as the new thread's end.
   */
  datatype Life =
    | Running
    | Starting(asker: Tid)
    | Retiring
    | Over
    | Unfollowed  // started by a process that is not followed

  type Lives = map<Tid, Life>

  function LifeOf(lives: Lives, thread: Tid): Life {
    if thread in lives then lives[thread] else Running
  }

  predicate StartsProgram(s: State, r: Record) {
    r.Code() == NEWTHREAD && r.args[2] == 1 && Get(s.threads, r.thread) == Some(AsI32(r.args[1]))
  }

  predicate ReportsExit(s: State, r: Record) {
    r.Code() == PROC_EXIT && r.IsEnd() && IsFollowedThread(s, r.thread)
  }

  /** What the kernel can report next, given how its threads live. */
  predicate Possible(lives: Lives, s: State, r: Record) {
    && (StartsProgram(s, r) ==>
          && r.args[0] !in lives && r.args[0] != r.thread
          && (IsFollowedThread(s, r.thread) ==> LifeOf(lives, r.thread) == Running))
    && (r.Code() == DATA_EXEC && IsFollowedThread(s, r.thread) ==>
          match LifeOf(lives, r.thread)
          case Running => true
          case Starting(asker) => LifeOf(lives, asker) == Running
          case _ => false)
    && (ReportsExit(s, r) ==> LifeOf(lives, r.thread) != Over && LifeOf(lives, r.thread) != Unfollowed)
  }

  function Live(lives: Lives, s: State, r: Record): Lives {
    if StartsProgram(s, r) then
      lives[r.args[0] := if IsFollowedThread(s, r.thread) then Starting(r.thread) else Unfollowed]
    else if r.Code() == DATA_EXEC && IsFollowedThread(s, r.thread) && LifeOf(lives, r.thread).Starting? then
      lives[r.thread := Running][LifeOf(lives, r.thread).asker := Retiring]
    else if ReportsExit(s, r) then lives[r.thread := Over]
    else lives
  }

  /** The real ends a record reports: a running thread's exit is its process's. */
  function RealEnd(lives: Lives, s: State, r: Record): seq<Message> {
    if ReportsExit(s, r) && LifeOf(lives, r.thread) == Running
    then [Message(r.timestamp, s.threads[r.thread], 0, Exit(AsI32(r.args[1])))] else []
  }

  // ---- What the collector remembers of it ----

  /** The collector's two tables are exactly the threads that are starting, and those retiring. */
  predicate Remembers(s: State, lives: Lives) {
    Recalls(s.newTasks, s.replaced, lives)
  }

  predicate Recalls(newTasks: map<Tid, Tid>, replaced: set<Tid>, lives: Lives) {
    && (forall t | t in lives && lives[t].Starting? :: t in newTasks && newTasks[t] == lives[t].asker)
    && (forall t | t in newTasks :: t in lives && (lives[t].Starting? || lives[t].Unfollowed?))
    && (forall t | t in lives && lives[t].Retiring? :: t in replaced)
    && (forall t | t in replaced :: t in lives && lives[t].Retiring?)
  }

  /** An exit report ends a thread's life, and with it what was remembered of it. */
  lemma OverRecalls(newTasks: map<Tid, Tid>, replaced: set<Tid>, lives: Lives, thread: Tid)
    requires Recalls(newTasks, replaced, lives)
    requires LifeOf(lives, thread) != Over && LifeOf(lives, thread) != Unfollowed
    ensures Recalls(newTasks - {thread}, replaced - {thread}, lives[thread := Over])
    ensures thread in newTasks ==> thread !in replaced
    ensures LifeOf(lives, thread) == Running <==> thread !in replaced && thread !in newTasks
  {
  }

  lemma NewThreadRemembers(s: State, lives: Lives, r: Record)
    requires Remembers(s, lives) && Possible(lives, s, r) && r.Code() == NEWTHREAD
    ensures Remembers(NewThread(s, r).state, Live(lives, s, r))
  {
    hide StartProcess;
  }

  lemma ReplaceRemembers(s: State, lives: Lives, r: Record)
    requires Remembers(s, lives) && Possible(lives, s, r) && r.Code() == DATA_EXEC && IsFollowedThread(s, r.thread)
    ensures Remembers(ReplaceAsker(s, r.thread), Live(lives, s, r))
  {
  }

  lemma ExitRemembers(s: State, lives: Lives, r: Record)
    requires Remembers(s, lives) && Possible(lives, s, r) && ReportsExit(s, r)
    ensures Remembers(ProcExit(s, s.threads[r.thread], r).state, Live(lives, s, r))
    ensures LifeOf(lives, r.thread) == Running <==> r.thread !in s.replaced && r.thread !in s.newTasks
  {
    hide BelieveExits, Recalls, LifeOf;
    OverRecalls(s.newTasks, s.replaced, lives, r.thread);
    assert r.thread !in s.newTasks ==> s.newTasks - {r.thread} == s.newTasks;
    assert r.thread !in s.replaced ==> s.replaced - {r.thread} == s.replaced;
  }

  lemma SameRemembers(s: State, t: State, lives: Lives)
    requires Remembers(s, lives) && t.newTasks == s.newTasks && t.replaced == s.replaced
    ensures Remembers(t, lives)
  {
  }

  lemma ProcessRemembers(s: State, lives: Lives, r: Record, env: Env)
    requires Remembers(s, lives) && Possible(lives, s, r) && IsFollowedThread(s, r.thread)
    requires r.Code() != NEWTHREAD && r.Code() != LOST_EVENTS
    ensures Remembers(ProcessStep(s, s.threads[r.thread], r, env).state, Live(lives, s, r))
  {
    hide NameProgram, ExecStep, ProcExit, LookupStep, SyscallStep, ReplaceAsker, Remembers, Possible, IsFollowed,
         LifeOf;
    var pid := s.threads[r.thread];
    var step := ProcessStep(s, pid, r, env);
    if r.Code() == DATA_EXEC {
      ReplaceRemembers(s, lives, r);
      SameRemembers(ReplaceAsker(s, r.thread), step.state, Live(lives, s, r));
    } else if r.Code() == PROC_EXIT && r.IsEnd() {
      ExitRemembers(s, lives, r);
    } else {
      SameRemembers(s, step.state, lives);
    }
  }

  lemma SamePossible(s: State, t: State, lives: Lives, r: Record)
    requires t.threads == s.threads && t.processes == s.processes
    ensures Possible(lives, s, r) == Possible(lives, t, r) && Live(lives, s, r) == Live(lives, t, r)
  {
  }

  lemma NothingLives(s: State, lives: Lives, r: Record)
    requires r.Code() != NEWTHREAD && (r.Code() == LOST_EVENTS || !IsFollowedThread(s, r.thread))
    ensures Live(lives, s, r) == lives
  {
  }

  lemma InterpretRemembers(s: State, lives: Lives, r: Record, env: Env)
    requires Remembers(s, lives) && Possible(lives, s, r)
    ensures Remembers(Interpret(s, r, env).state, Live(lives, s, r))
  {
    hide NewThread, ProcessStep, Remembers, Possible, Live;
    var s1 := Noticed(s, r);
    SameRemembers(s, s1, lives);
    SamePossible(s, s1, lives, r);
    if r.Code() == NEWTHREAD {
      NewThreadRemembers(s1, lives, r);
    } else if r.Code() != LOST_EVENTS && IsFollowedThread(s1, r.thread) {
      ProcessRemembers(s1, lives, r, env);
    } else {
      NothingLives(s, lives, r);
      SameRemembers(s1, Interpret(s, r, env).state, lives);
    }
  }

  lemma ObserveRemembers(s: State, lives: Lives, r: Record, env: Env)
    requires Remembers(s, lives) && Possible(lives, s, r)
    ensures Remembers(Observe(s, r, env).state, Live(lives, s, r))
  {
    hide Interpret, Release, Remembers, Possible, Live;
    SameRemembers(s, Dequeued(s), lives);
    SamePossible(s, Dequeued(s), lives, r);
    InterpretRemembers(Dequeued(s), lives, r, env);
    SameRemembers(Interpret(Dequeued(s), r, env).state, Observe(s, r, env).state, Live(lives, s, r));
  }

  /** A record is worth an exit exactly when it reports a real end. */
  lemma FactsAreRealEnds(s: State, lives: Lives, r: Record, env: Env)
    requires Remembers(s, lives) && Possible(lives, s, r)
    ensures var facts := Facts(s, r, env);
            if facts != [] && facts[0].event.Exit? then facts == RealEnd(lives, s, r) else RealEnd(lives, s, r) == []
  {
    hide SyscallStep, Remembers, Possible;
    if ReportsExit(s, r) {
      ExitRemembers(s, lives, r);
    }
  }

  // ---- Runs ----

  function LivesAfter(s: State, inputs: seq<Input>): Lives {
    if inputs == [] then map[] else
      var n := |inputs| - 1;
      match inputs[n]
      case Seen(r, _) => Live(LivesAfter(s, inputs[..n]), Run(s, inputs[..n]).state, r)
      case Ticked(_) => LivesAfter(s, inputs[..n])
  }

  /** The pid a record starts a process under: its first thread, made by no thread of its own. */
  function Begun(s: State, r: Record): set<Pid> {
    if r.Code() == NEWTHREAD && Get(s.threads, r.thread) != Some(AsI32(r.args[1])) then {AsI32(r.args[1])} else {}
  }

  /** The pids whose process has ended, until another starts. */
  function Gone(gone: set<Pid>, lives: Lives, s: State, r: Record): set<Pid> {
    gone - Begun(s, r) + if RealEnd(lives, s, r) != [] then {s.threads[r.thread]} else {}
  }

  function GoneAfter(s: State, inputs: seq<Input>): set<Pid> {
    if inputs == [] then {} else
      var n := |inputs| - 1;
      match inputs[n]
      case Seen(r, _) =>
        Gone(GoneAfter(s, inputs[..n]), LivesAfter(s, inputs[..n]), Run(s, inputs[..n]).state, r)
      case Ticked(_) => GoneAfter(s, inputs[..n])
  }

  /** What the kernel can report next of a process: its real end, once. */
  predicate EndsOnce(gone: set<Pid>, lives: Lives, s: State, r: Record) {
    RealEnd(lives, s, r) != [] ==> s.threads[r.thread] !in gone
  }

  predicate PossibleRun(s: State, inputs: seq<Input>) {
    inputs == [] ||
    (var n := |inputs| - 1;
     && PossibleRun(s, inputs[..n])
     && (inputs[n].Seen? ==>
           && Possible(LivesAfter(s, inputs[..n]), Run(s, inputs[..n]).state, inputs[n].record)
           && EndsOnce(GoneAfter(s, inputs[..n]), LivesAfter(s, inputs[..n]), Run(s, inputs[..n]).state,
                       inputs[n].record)))
  }

  /** The real ends of a run, from the lives of its threads alone. */
  function RealEnds(s: State, inputs: seq<Input>): seq<Message> {
    if inputs == [] then [] else
      var n := |inputs| - 1;
      match inputs[n]
      case Seen(r, _) =>
        RealEnds(s, inputs[..n]) + RealEnd(LivesAfter(s, inputs[..n]), Run(s, inputs[..n]).state, r)
      case Ticked(_) => RealEnds(s, inputs[..n])
  }

  lemma TickRemembers(s: State, lives: Lives, env: Env)
    requires Remembers(s, lives)
    ensures Remembers(Tick(s, env).state, lives)
  {
    hide RetryCommandLines, BelieveExits, Release, Remembers;
    SameRemembers(s, Tick(s, env).state, lives);
  }

  lemma {:induction false} RunRemembers(s: State, inputs: seq<Input>)
    requires s.newTasks == map[] && s.replaced == {} && PossibleRun(s, inputs)
    ensures Remembers(Run(s, inputs).state, LivesAfter(s, inputs))
  {
    hide Observe, Tick, Possible, Live;
    if inputs != [] {
      var n := |inputs| - 1;
      RunRemembers(s, inputs[..n]);
      match inputs[n] {
        case Seen(r, env) => ObserveRemembers(Run(s, inputs[..n]).state, LivesAfter(s, inputs[..n]), r, env);
        case Ticked(env) => TickRemembers(Run(s, inputs[..n]).state, LivesAfter(s, inputs[..n]), env);
      }
    }
  }

  lemma {:induction false} ExitFactsAreRealEnds(s: State, inputs: seq<Input>, x: Message)
    requires s.newTasks == map[] && s.replaced == {} && PossibleRun(s, inputs) && x.event.Exit?
    ensures Count(AllFacts(s, inputs), x) == Count(RealEnds(s, inputs), x)
  {
    hide Observe, Tick, Possible, Live, Facts, RealEnd, Remembers;
    if inputs != [] {
      var n := |inputs| - 1;
      var before, lives := Run(s, inputs[..n]).state, LivesAfter(s, inputs[..n]);
      ExitFactsAreRealEnds(s, inputs[..n], x);
      match inputs[n] {
        case Seen(r, env) =>
          RunRemembers(s, inputs[..n]);
          OneFactIsRealEnd(before, lives, r, env, x);
          CountConcat(AllFacts(s, inputs[..n]), Facts(before, r, env), x);
          CountConcat(RealEnds(s, inputs[..n]), RealEnd(lives, before, r), x);
        case Ticked(env) =>
          CountConcat(AllFacts(s, inputs[..n]), [], x);
      }
    }
  }

  lemma OneFactIsRealEnd(s: State, lives: Lives, r: Record, env: Env, x: Message)
    requires Remembers(s, lives) && Possible(lives, s, r) && x.event.Exit?
    ensures Count(Facts(s, r, env), x) == Count(RealEnd(lives, s, r), x)
  {
    hide Facts, RealEnd, Remembers, Possible;
    FactsAreRealEnds(s, lives, r, env);
    FactsErased(s, r, env);
    var facts := Facts(s, r, env);
    if facts != [] {
      assert facts == [facts[0]];
      CountOne(facts[0], x);
    }
  }

  /**
   Over a whole recording, the exits delivered are exactly the real ends, each with its own status
   and time: failed starts and replaced programs never look like exits, however late and in whatever
   interleaving their ends are reported. An exit can only be missing when its pid was forked again
   before it was believed.
   */
  lemma ExitsAreRealEnds(s: State, inputs: seq<Input>, env: Env, time: nat, pid: Pid, stat: int)
    requires IsNew(s) && s.newTasks == map[] && s.replaced == {} && PossibleRun(s, inputs)
    ensures var x := Message(time, pid, 0, Exit(stat));
            Count(Recording(s, inputs, env), x) + ExitCount(AllCancelled(s, inputs), x) == Count(RealEnds(s, inputs), x)
  {
    hide Recording, AllFacts, AllCancelled, RealEnds, PossibleRun;
    var x := Message(time, pid, 0, Exit(stat));
    RecordingBalances(s, inputs, env, x);
    ExitFactsAreRealEnds(s, inputs, x);
    var t := Run(s, inputs).state;
    OnlyOpens(t, t.heldOpens, x);
  }

  // ---- One exit a life ----

  predicate IsExitOf(m: Message, pid: Pid) {
    m.event.Exit? && m.pid == pid
  }

  function ExitsOf(ms: seq<Message>, pid: Pid): nat {
    if ms == [] then 0 else (if IsExitOf(ms[0], pid) then 1 else 0) + ExitsOf(ms[1..], pid)
  }

  /** How often a process was started under a pid. */
  function StartsOf(s: State, inputs: seq<Input>, pid: Pid): nat {
    if inputs == [] then 0 else
      var n := |inputs| - 1;
      match inputs[n]
      case Seen(r, _) => StartsOf(s, inputs[..n], pid) + if pid in Begun(Run(s, inputs[..n]).state, r) then 1 else 0
      case Ticked(_) => StartsOf(s, inputs[..n], pid)
  }

  lemma {:induction false} ExitsConcat(a: seq<Message>, b: seq<Message>, pid: Pid)
    ensures ExitsOf(a + b, pid) == ExitsOf(a, pid) + ExitsOf(b, pid)
  {
    if a == [] {
      assert a + b == b;
    } else {
      ExitsConcat(a[1..], b, pid);
      assert (a + b)[1..] == a[1..] + b;
    }
  }

  lemma ExitsOfOne(m: Message, pid: Pid)
    ensures ExitsOf([m], pid) == if IsExitOf(m, pid) then 1 else 0
    ensures ExitsOf([], pid) == 0
  {
    assert [m][1..] == [];
  }

  lemma {:induction false} EndsAtMostOnce(s: State, inputs: seq<Input>, pid: Pid)
    requires PossibleRun(s, inputs)
    ensures ExitsOf(RealEnds(s, inputs), pid)
         <= StartsOf(s, inputs, pid) + if pid in GoneAfter(s, inputs) then 1 else 0
  {
    hide Observe, Tick, Possible, Live, Begun;
    if inputs != [] {
      var n := |inputs| - 1;
      EndsAtMostOnce(s, inputs[..n], pid);
      match inputs[n] {
        case Seen(r, env) =>
          var ended := RealEnd(LivesAfter(s, inputs[..n]), Run(s, inputs[..n]).state, r);
          ExitsConcat(RealEnds(s, inputs[..n]), ended, pid);
          if ended != [] {
            ExitsOfOne(ended[0], pid);
          }
        case Ticked(env) =>
      }
    }
  }

  lemma Taken(ms: seq<Message>, i: nat, x: Message, pid: Pid)
    requires i < |ms|
    ensures Count(ms, x) == Count(ms[..i] + ms[i + 1..], x) + One(Erased(ms[i]), x)
    ensures ExitsOf(ms, pid) == ExitsOf(ms[..i] + ms[i + 1..], pid) + if IsExitOf(ms[i], pid) then 1 else 0
  {
    hide Count, ExitsOf;
    assert ms == ms[..i] + [ms[i]] + ms[i + 1..];
    CountConcat(ms[..i] + [ms[i]], ms[i + 1..], x);
    CountConcat(ms[..i], [ms[i]], x);
    CountConcat(ms[..i], ms[i + 1..], x);
    CountOne(ms[i], x);
    ExitsConcat(ms[..i] + [ms[i]], ms[i + 1..], pid);
    ExitsConcat(ms[..i], [ms[i]], pid);
    ExitsConcat(ms[..i], ms[i + 1..], pid);
    ExitsOfOne(ms[i], pid);
  }

  /** No more exits of any kind are no more exits of a process. */
  lemma {:induction false} FewerExits(a: seq<Message>, b: seq<Message>, pid: Pid)
    requires forall x: Message | x.event.Exit? :: Count(a, x) <= Count(b, x)
    ensures ExitsOf(a, pid) <= ExitsOf(b, pid)
  {
    hide Count;
    if a != [] {
      var m := a[0];
      assert a[..0] + a[1..] == a[1..];
      Taken(a, 0, m, pid);
      if m.event.Exit? {
        assert Count(b, m) > 0;
        CountedIsThere(b, m);
        var there :| there in b && Erased(there) == m;
        var i :| 0 <= i < |b| && b[i] == there;
        var rest := b[..i] + b[i + 1..];
        forall x: Message | x.event.Exit? ensures Count(a[1..], x) <= Count(rest, x) {
          Taken(a, 0, x, pid);
          Taken(b, i, x, pid);
        }
        FewerExits(a[1..], rest, pid);
        Taken(b, i, m, pid);
      } else {
        forall x: Message | x.event.Exit? ensures Count(a[1..], x) <= Count(b, x) {
          Taken(a, 0, x, pid);
        }
        FewerExits(a[1..], b, pid);
      }
    }
  }

  /** A recording has at most one exit a life of a process, and one more only if the process was there before. */
  lemma OneExitALife(s: State, inputs: seq<Input>, env: Env, pid: Pid)
    requires IsNew(s) && s.newTasks == map[] && s.replaced == {} && PossibleRun(s, inputs)
    ensures ExitsOf(Recording(s, inputs, env), pid) <= StartsOf(s, inputs, pid) + 1
  {
    hide Recording, AllFacts, AllCancelled, RealEnds, PossibleRun, Count, ExitsOf, StartsOf;
    forall x: Message | x.event.Exit? ensures Count(Recording(s, inputs, env), x) <= Count(RealEnds(s, inputs), x) {
      RecordingBalances(s, inputs, env, x);
      ExitFactsAreRealEnds(s, inputs, x);
      var t := Run(s, inputs).state;
      OnlyOpens(t, t.heldOpens, x);
    }
    FewerExits(Recording(s, inputs, env), RealEnds(s, inputs), pid);
    EndsAtMostOnce(s, inputs, pid);
  }
}
