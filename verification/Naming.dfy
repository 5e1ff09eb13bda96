/**
 Which name a program gets when its command line cannot be read: its own, from the kernel's record
 about it, and never that of the program before or after it.
 */
module Naming {
  import opened Basics
  import opened Messages
  import opened Fragments
  import opened CollectorModel
  import opened DeliveryOrder

  // ---- One pending program per process ----

  predicate OnePerPid(pending: seq<Pending>) {
    forall i, j | 0 <= i < j < |pending| :: pending[i].pid != pending[j].pid
  }

  lemma {:induction false} RetryKeepsOne(s: State, pending: seq<Pending>, env: Env, lastChance: bool)
    requires OnePerPid(pending)
    ensures OnePerPid(RetryList(s, pending, env, lastChance).kept)
  {
    hide Retry;
    if pending != [] {
      var n := |pending| - 1;
      RetryKeepsOne(s, pending[..n], env, lastChance);
      RetryListFrom(s, pending[..n], env, lastChance);
      var kept := RetryList(s, pending[..n], env, lastChance).kept;
      forall k | k in kept ensures k.pid != pending[n].pid {
        var p :| p in pending[..n] && SameStart(k, p);
      }
    }
  }

  /** Settling an earlier program takes the only entry of its process. */
  lemma SettleTakesOne(s: State, pid: Pid)
    requires OnePerPid(s.argvRetries)
    ensures var pending := SettleEarlier(s, pid).state.argvRetries;
            && OnePerPid(pending) && !HasPending(pending, pid)
            && forall p | p in pending :: p in s.argvRetries
  {
    hide Settled;
    if HasPending(s.argvRetries, pid) {
      var i := FirstPending(s.argvRetries, pid);
      TakeOut(s.argvRetries, i);
    }
  }

  lemma TakeOut(pending: seq<Pending>, i: nat)
    requires OnePerPid(pending) && i < |pending|
    ensures var left := pending[..i] + pending[i + 1..];
            && OnePerPid(left) && !HasPending(left, pending[i].pid)
            && forall p | p in left :: p in pending
  {
    var left := pending[..i] + pending[i + 1..];
    forall j | 0 <= j < |left| ensures left[j] == pending[if j < i then j else j + 1] {
    }
  }

  lemma ExecKeepsOne(s: State, pid: Pid, time: nat, image: Word, env: Env)
    requires OnePerPid(s.argvRetries)
    ensures var pending := ExecStep(s, pid, time, image, env).state.argvRetries;
            && OnePerPid(pending)
            && forall p | p in pending :: if p.pid == pid then !p.named else p in s.argvRetries
  {
    hide SettleEarlier, StartProgram;
    var s1 := CloseOnExec(s, pid);
    SettleTakesOne(s1, pid);
    var earlier := SettleEarlier(s1, pid).state;
    var next := StartProgram(earlier, pid, time, image, env.inspect(pid));
    forall p | p in earlier.argvRetries ensures p.pid != pid {
      var i :| 0 <= i < |earlier.argvRetries| && earlier.argvRetries[i] == p;
    }
    if next.out == [] {
      var added := next.state.argvRetries[|earlier.argvRetries|];
      assert next.state.argvRetries == earlier.argvRetries + [added];
    }
  }

  // ---- Names ----

  /** The name each followed process's running program was given, since that program started. */
  function Told(own: map<Pid, Text>, s: State, r: Record): map<Pid, Text> {
    if !IsFollowedThread(s, r.thread) then own
    else if r.Code() == DATA_EXEC then own - {s.threads[r.thread]}
    else if r.Code() == STRING_EXEC then own[s.threads[r.thread] := Decoded(r.args)]
    else own
  }

  /** An entry is marked when its own program was named, and then finds that very name. */
  predicate FindsOwnName(names: map<Pid, Text>, own: map<Pid, Text>, p: Pending) {
    && (p.named <==> p.pid in own)
    && (p.named ==> p.pid in names && names[p.pid] == own[p.pid])
  }

  predicate OwnNames(s: State, own: map<Pid, Text>) {
    && OnePerPid(s.argvRetries)
    && forall p | p in s.argvRetries :: FindsOwnName(s.names, own, p)
  }

  lemma BelieveKeepsNames(s: State, own: map<Pid, Text>)
    requires OwnNames(s, own)
    ensures OwnNames(BelieveExits(s).state, own)
  {
    WaitingFrom(s.heldExits, s.argvRetries);
    var believed := Believable(s.heldExits, s.argvRetries);
    forall p | p in s.argvRetries ensures p.pid !in PidsOf(believed) {
      var i :| 0 <= i < |s.argvRetries| && s.argvRetries[i] == p;
      if p.pid in PidsOf(believed) {
        var e := PidOfExit(believed, p.pid);
      }
    }
  }

  lemma {:induction false} PidOfExit(exits: seq<HeldExit>, pid: Pid) returns (e: HeldExit)
    requires pid in PidsOf(exits)
    ensures e in exits && e.pid == pid
  {
    var n := |exits| - 1;
    if exits[n].pid == pid {
      e := exits[n];
    } else {
      e := PidOfExit(exits[..n], pid);
    }
  }

  lemma NameKeepsNames(s: State, own: map<Pid, Text>, pid: Pid, args: Args)
    requires OwnNames(s, own)
    ensures OwnNames(NameProgram(s, pid, args), own[pid := Decoded(args)])
  {
    var t := NameProgram(s, pid, args);
    forall p | p in t.argvRetries ensures FindsOwnName(t.names, own[pid := Decoded(args)], p) {
      var i :| 0 <= i < |t.argvRetries| && t.argvRetries[i] == p;
      assert s.argvRetries[i] in s.argvRetries;
    }
  }

  lemma ExecKeepsNames(s: State, own: map<Pid, Text>, pid: Pid, time: nat, image: Word, env: Env)
    requires OwnNames(s, own)
    ensures OwnNames(ExecStep(s, pid, time, image, env).state, own - {pid})
  {
    hide ExecStep;
    ExecKeepsOne(s, pid, time, image, env);
  }

  lemma ProcExitKeepsNames(s: State, own: map<Pid, Text>, pid: Pid, r: Record)
    requires OwnNames(s, own)
    ensures OwnNames(ProcExit(s, pid, r).state, own)
  {
    hide BelieveExits, OnePerPid;
    if r.thread !in s.replaced && r.thread !in s.newTasks {
      BelieveKeepsNames(s.(heldExits := s.heldExits + [HeldExit(pid, r.timestamp, AsI32(r.args[1]))]), own);
    }
  }

  lemma SameKeepsNames(s: State, t: State, own: map<Pid, Text>)
    requires OwnNames(s, own) && t.argvRetries == s.argvRetries && t.names == s.names
    ensures OwnNames(t, own)
  {
  }

  lemma ProcessKeepsNames(s: State, own: map<Pid, Text>, r: Record, env: Env)
    requires OwnNames(s, own) && IsFollowedThread(s, r.thread)
    ensures OwnNames(ProcessStep(s, s.threads[r.thread], r, env).state, Told(own, s, r))
  {
    hide NameProgram, ExecStep, ProcExit, LookupStep, SyscallStep, ReplaceAsker, OwnNames, IsFollowed;
    var pid := s.threads[r.thread];
    if r.Code() == STRING_EXEC {
      NameKeepsNames(s, own, pid, r.args);
    } else if r.Code() == DATA_EXEC {
      SameKeepsNames(s, ReplaceAsker(s, r.thread), own);
      ExecKeepsNames(ReplaceAsker(s, r.thread), own, pid, r.timestamp, r.args[2], env);
    } else if r.Code() == PROC_EXIT && r.IsEnd() {
      ProcExitKeepsNames(s, own, pid, r);
    } else {
      SameKeepsNames(s, ProcessStep(s, pid, r, env).state, own);
    }
  }

  lemma SameTold(s: State, t: State, own: map<Pid, Text>, r: Record)
    requires t.threads == s.threads && t.processes == s.processes
    ensures Told(own, t, r) == Told(own, s, r)
  {
  }

  lemma NothingTold(s: State, own: map<Pid, Text>, r: Record)
    requires r.Code() == NEWTHREAD || r.Code() == LOST_EVENTS || !IsFollowedThread(s, r.thread)
    ensures Told(own, s, r) == own
  {
  }

  lemma InterpretKeepsNames(s: State, own: map<Pid, Text>, r: Record, env: Env)
    requires OwnNames(s, own)
    ensures OwnNames(Interpret(s, r, env).state, Told(own, s, r))
  {
    hide NewThread, ProcessStep, OwnNames, Told;
    var s1 := Noticed(s, r);
    SameKeepsNames(s, s1, own);
    if r.Code() == NEWTHREAD || r.Code() == LOST_EVENTS || !IsFollowedThread(s1, r.thread) {
      NothingTold(s, own, r);
      SameKeepsNames(s1, Interpret(s, r, env).state, own);
    } else {
      SameTold(s, s1, own, r);
      ProcessKeepsNames(s1, own, r, env);
    }
  }

  lemma ObserveKeepsNames(s: State, own: map<Pid, Text>, r: Record, env: Env)
    requires OwnNames(s, own)
    ensures OwnNames(Observe(s, r, env).state, Told(own, s, r))
  {
    hide Interpret, Release, OwnNames, Told;
    SameKeepsNames(s, Dequeued(s), own);
    SameTold(s, Dequeued(s), own, r);
    InterpretKeepsNames(Dequeued(s), own, r, env);
    SameKeepsNames(Interpret(Dequeued(s), r, env).state, Observe(s, r, env).state, Told(own, s, r));
  }

  lemma {:induction false} RetryKeepsNamed(s: State, pending: seq<Pending>, env: Env, lastChance: bool)
    ensures forall k | k in RetryList(s, pending, env, lastChance).kept ::
              exists p :: p in pending && SameStart(k, p) && k.named == p.named
  {
    hide Retry;
    if pending != [] {
      var n := |pending| - 1;
      RetryKeepsNamed(s, pending[..n], env, lastChance);
      assert pending[n] in pending;
      forall k | k in RetryList(s, pending, env, lastChance).kept
        ensures exists p :: p in pending && SameStart(k, p) && k.named == p.named
      {
        if k in RetryList(s, pending[..n], env, lastChance).kept {
          var p :| p in pending[..n] && SameStart(k, p) && k.named == p.named;
          assert p in pending;
        } else {
          assert SameStart(k, pending[n]);
        }
      }
    }
  }

  lemma TickKeepsNames(s: State, own: map<Pid, Text>, env: Env)
    requires OwnNames(s, own)
    ensures OwnNames(Tick(s, env).state, own)
  {
    hide RetryList, BelieveExits, Release, OnePerPid;
    var s1 := Dequeued(s);
    RetryKeepsOne(s1, s.argvRetries, env, false);
    RetryKeepsNamed(s1, s.argvRetries, env, false);
    var t := RetryCommandLines(s1, env, false).state;
    forall k | k in t.argvRetries ensures FindsOwnName(t.names, own, k) {
      var p :| p in s.argvRetries && SameStart(k, p) && k.named == p.named;
    }
    BelieveKeepsNames(t, own);
  }

  /** The names told over a run. */
  function ToldBy(s: State, inputs: seq<Input>): map<Pid, Text> {
    if inputs == [] then map[] else
      var n := |inputs| - 1;
      match inputs[n]
      case Seen(r, _) => Told(ToldBy(s, inputs[..n]), Run(s, inputs[..n]).state, r)
      case Ticked(_) => ToldBy(s, inputs[..n])
  }

  /**
   In every state a run reaches there is at most one pending program per process, it is marked named
   exactly when the kernel named that program, and then it finds that name: no exit took it away.
   */
  lemma {:induction false} PendingFindsItsName(s: State, inputs: seq<Input>)
    requires s.argvRetries == []
    ensures OwnNames(Run(s, inputs).state, ToldBy(s, inputs))
  {
    hide Observe, Tick, Told;
    if inputs != [] {
      var n := |inputs| - 1;
      PendingFindsItsName(s, inputs[..n]);
      match inputs[n] {
        case Seen(r, env) => ObserveKeepsNames(Run(s, inputs[..n]).state, ToldBy(s, inputs[..n]), r, env);
        case Ticked(env) => TickKeepsNames(Run(s, inputs[..n]).state, ToldBy(s, inputs[..n]), env);
      }
    }
  }

  /** So a named program that is settled without arguments is reported under its own name. */
  lemma SettledUnderOwnName(s: State, own: map<Pid, Text>, p: Pending)
    requires OwnNames(s, own) && p in s.argvRetries && p.named
    ensures var m := Settled(s, p);
            || m.event.executable == own[p.pid]
            || (p.movedOn.Some? && PassedOn(s, p.pid, p.movedOn.value.argv)
                && m.event.executable == p.movedOn.value.executable && m.event.argv == p.movedOn.value.argv)
  {
  }
}
