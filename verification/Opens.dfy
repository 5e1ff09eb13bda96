/** Every open a followed process makes is reported exactly once, at once or by the flush. */
module Opens {
  import opened Basics
  import opened Messages
  import opened CollectorModel
  import opened DeliveryOrder
  import opened FileView
  import opened Ledger
  import opened Refinement

  /** An open by its end: when, by whom, and as which descriptor. */
  datatype Key = Key(time: nat, pid: Pid, fd: int)

  /** The record ends an open that succeeded and that looked a path up, or opened the root directory. */
  predicate EndsOpen(s: State, r: Record) {
    && IsFollowedThread(s, r.thread)
    && IsOpen(r.Code()) && !r.IsStart() && r.IsEnd() && r.args[0] == 0
    && r.thread in s.calls && s.calls[r.thread].code == r.Code() && OpenCounts(s.calls[r.thread])
    && s.fileEvents
  }

  function KeyOf(s: State, r: Record): Key
    requires EndsOpen(s, r)
  {
    Key(r.timestamp, s.threads[r.thread], AsI32(r.args[1]))
  }

  function Ended(s: State, r: Record, k: Key): nat {
    if EndsOpen(s, r) && KeyOf(s, r) == k then 1 else 0
  }

  function OneOpen(m: Message, k: Key): nat {
    if m.event.Open? && Key(m.time, m.pid, m.event.fd) == k then 1 else 0
  }

  function OpenCount(ms: seq<Message>, k: Key): nat {
    if ms == [] then 0 else OneOpen(ms[0], k) + OpenCount(ms[1..], k)
  }

  function OneHeld(h: HeldOpen, k: Key): nat {
    if Key(h.time, h.pid, h.fd) == k then 1 else 0
  }

  function HeldCount(held: seq<HeldOpen>, k: Key): nat {
    if held == [] then 0 else HeldCount(held[..|held| - 1], k) + OneHeld(held[|held| - 1], k)
  }

  // ---- One record ----

  lemma FinishOpenOnce(s: State, pid: Pid, time: nat, call: Call, returned: Word, env: Env, k: Key)
    requires IsOpen(call.code)
    ensures var step := FinishOpen(s, pid, time, call, returned, env);
            OpenCount(step.out, k) + HeldCount(step.state.heldOpens, k)
              == HeldCount(s.heldOpens, k)
                 + if s.fileEvents && OpenCounts(call) && Key(time, pid, AsI32(returned)) == k then 1 else 0
  {
    hide PlacedPath, SetDescriptor, LinuxOpenFlags, HasFlag, AsI32, OpenFlags;
    var step := FinishOpen(s, pid, time, call, returned, env);
    if step.out != [] {
      OpenCountOne(step.out[0], k);
      assert step.out == [step.out[0]];
    }
    if step.state.heldOpens != s.heldOpens {
      var held := HoldOpen(pid, time, call, returned);
      assert step.state.heldOpens == s.heldOpens + [held];
      assert step.state.heldOpens[..|s.heldOpens|] == s.heldOpens;
    }
  }

  lemma OpenCountOne(m: Message, k: Key)
    ensures OpenCount([m], k) == OneOpen(m, k)
  {
    assert [m][1..] == [];
  }

  lemma RenameIsNoOpen(s: State, pid: Pid, time: nat, call: Call, env: Env, k: Key)
    ensures OpenCount(FinishRename(s, pid, time, call, env).out, k) == 0
  {
    hide Resolve;
    var out := FinishRename(s, pid, time, call, env).out;
    if out != [] {
      OpenCountOne(out[0], k);
      assert out == [out[0]];
    }
  }

  lemma SyscallOnce(s: State, r: Record, env: Env, k: Key)
    requires IsFollowedThread(s, r.thread)
    ensures var step := SyscallStep(s, s.threads[r.thread], r, env);
            OpenCount(step.out, k) + HeldCount(step.state.heldOpens, k) == HeldCount(s.heldOpens, k) + Ended(s, r, k)
  {
    hide FinishCall, HeldCount, IsOpen, OpenCounts, AsI32;
    var pid := s.threads[r.thread];
    if !r.IsStart() && r.IsEnd() && r.thread in s.calls && s.calls[r.thread].code == r.Code() && r.args[0] == 0 {
      FinishOnce(s.(calls := s.calls - {r.thread}), pid, r.timestamp, s.calls[r.thread], r.args[1], env, k);
    }
  }

  lemma FinishOnce(s: State, pid: Pid, time: nat, call: Call, returned: Word, env: Env, k: Key)
    ensures var step := FinishCall(s, pid, time, call, returned, env);
            OpenCount(step.out, k) + HeldCount(step.state.heldOpens, k)
              == HeldCount(s.heldOpens, k)
                 + if IsOpen(call.code) && s.fileEvents && OpenCounts(call) && Key(time, pid,
                                                                                   AsI32(returned)) == k then 1 else 0
  {
    hide FinishOpen, FinishRename, FinishChdir, FinishFchdir, FinishClose, Duplicate, FinishFcntl, HeldCount,
         IsOpen, IsRename, IsClose, IsFcntl, OpenCounts, AsI32;
    if IsOpen(call.code) {
      FinishOpenOnce(s, pid, time, call, returned, env, k);
    } else {
      RenameIsNoOpen(s, pid, time, call, env, k);
    }
  }

  lemma ProcessOnce(s: State, r: Record, env: Env, k: Key)
    requires IsFollowedThread(s, r.thread)
    ensures var t := ProcessStep(s, s.threads[r.thread], r, env).state;
            OpenCount(if IsSyscall(r.Code()) then SyscallStep(s, s.threads[r.thread], r, env).out else [], k)
              + HeldCount(t.heldOpens, k)
              == HeldCount(s.heldOpens, k) + Ended(s, r, k)
  {
    hide SyscallStep, LookupStep, ExecStep, ProcExit, NameProgram, ReplaceAsker, HeldCount, OpenCounts;
    if IsSyscall(r.Code()) {
      SyscallOnce(s, r, env, k);
    }
  }

  lemma FactsOpenCount(s: State, r: Record, env: Env, k: Key)
    ensures OpenCount(Facts(s, r, env), k)
         == if IsFollowedThread(s, r.thread) && IsSyscall(r.Code())
            then OpenCount(SyscallStep(s, s.threads[r.thread], r, env).out, k) else 0
  {
    hide SyscallStep;
    var facts := Facts(s, r, env);
    if facts != [] && !IsSyscall(r.Code()) {
      OpenCountOne(facts[0], k);
    }
  }

  /** An open that ends is either reported by its record or held, never both and never neither. */
  lemma ObserveOnce(s: State, r: Record, env: Env, k: Key)
    ensures OpenCount(Facts(s, r, env), k) + HeldCount(Observe(s, r, env).state.heldOpens, k)
         == HeldCount(s.heldOpens, k) + Ended(s, r, k)
  {
    hide SyscallStep, ProcessStep, NewThread, Release, Facts, HeldCount, IsSyscall;
    FactsOpenCount(s, r, env, k);
    var s1 := Noticed(Dequeued(s), r);
    NotOpens(s, r, k);
    if IsFollowedThread(s, r.thread) {
      SyscallSame(s, s1, s.threads[r.thread], r, env);
      ProcessOnce(s1, r, env, k);
      assert Ended(s1, r, k) == Ended(s, r, k);
    }
  }

  lemma NotOpens(s: State, r: Record, k: Key)
    ensures r.Code() == NEWTHREAD || r.Code() == LOST_EVENTS ==> !IsSyscall(r.Code()) && Ended(s, r, k) == 0
    ensures !IsFollowedThread(s, r.thread) ==> Ended(s, r, k) == 0
  {
  }

  // ---- A recording ----

  function OpensEnded(s: State, inputs: seq<Input>, k: Key): nat {
    if inputs == [] then 0 else
      var n := |inputs| - 1;
      OpensEnded(s, inputs[..n], k)
      + match inputs[n] case Seen(r, _) => Ended(Run(s, inputs[..n]).state, r, k) case Ticked(_) => 0
  }

  lemma {:induction false} OpenCountConcat(a: seq<Message>, b: seq<Message>, k: Key)
    ensures OpenCount(a + b, k) == OpenCount(a, k) + OpenCount(b, k)
  {
    if a == [] {
      assert a + b == b;
    } else {
      OpenCountConcat(a[1..], b, k);
      assert (a + b)[1..] == a[1..] + b;
    }
  }

  lemma {:induction false} RunOnce(s: State, inputs: seq<Input>, k: Key)
    requires s.heldOpens == []
    ensures OpenCount(AllFacts(s, inputs), k) + HeldCount(Run(s, inputs).state.heldOpens, k) == OpensEnded(s, inputs, k)
  {
    hide Observe, Tick, Facts, Ended, HeldCount;
    if inputs == [] {
      assert HeldCount([], k) == 0 by { NothingHeld(k); }
    } else {
      var n := |inputs| - 1;
      RunOnce(s, inputs[..n], k);
      var before := Run(s, inputs[..n]).state;
      OpenCountConcat(AllFacts(s, inputs[..n]), InputFacts(before, inputs[n]), k);
      match inputs[n] {
        case Seen(r, env) => ObserveOnce(before, r, env, k);
        case Ticked(env) => TickHolds(before, env);
      }
    }
  }

  lemma NothingHeld(k: Key)
    ensures HeldCount([], k) == 0
  {
  }

  lemma {:induction false} PlacedOnce(s: State, opens: seq<HeldOpen>, k: Key)
    ensures OpenCount(OpenMessages(s, opens), k) == HeldCount(opens, k)
  {
    hide KnownPath;
    if opens != [] {
      var n := |opens| - 1;
      PlacedOnce(s, opens[..n], k);
      OpenCountConcat(OpenMessages(s, opens[..n]), [OpenMessage(s, opens[n])], k);
      OpenCountOne(OpenMessage(s, opens[n]), k);
    }
  }

  /** Counting opens sees only which messages there are. */
  lemma {:induction false} SameBagSameOpens(a: seq<Message>, b: seq<Message>, k: Key)
    requires multiset(a) == multiset(b)
    ensures OpenCount(a, k) == OpenCount(b, k)
  {
    if a == [] {
      assert |multiset(b)| == 0;
    } else {
      assert a[0] in multiset(b);
      var i :| 0 <= i < |b| && b[i] == a[0];
      var rest := b[..i] + b[i + 1..];
      assert a == [a[0]] + a[1..];
      assert b == b[..i] + ([b[i]] + b[i + 1..]);
      assert multiset(a[1..]) == multiset(a) - multiset{a[0]};
      assert multiset(rest) == multiset(b) - multiset{b[i]};
      SameBagSameOpens(a[1..], rest, k);
      OpenCountConcat(b[..i], b[i + 1..], k);
      OpenCountConcat(b[..i], [b[i]] + b[i + 1..], k);
      OpenCountConcat([b[i]], b[i + 1..], k);
      OpenCountOne(b[i], k);
    }
  }

  lemma {:induction false} ErasedOpens(ms: seq<Message>, k: Key)
    ensures OpenCount(ErasedAll(ms), k) == OpenCount(ms, k)
  {
    if ms != [] {
      ErasedOpens(ms[1..], k);
      assert ErasedAll(ms)[1..] == ErasedAll(ms[1..]);
    }
  }

  lemma {:induction false} ExitsAreNoOpens(exits: seq<HeldExit>, k: Key)
    ensures OpenCount(ExitMessages(exits), k) == 0
  {
    if exits != [] {
      ExitsAreNoOpens(exits[1..], k);
      assert ExitMessages(exits)[1..] == ExitMessages(exits[1..]);
    }
  }

  /** The whole recording and its dropped exits are, as a bag, what happened and what the flush placed. */
  lemma RecordingBag(s: State, inputs: seq<Input>, env: Env)
    requires IsNew(s)
    ensures multiset(ErasedAll(Recording(s, inputs, env)) + ExitMessages(AllCancelled(s, inputs)))
         == multiset(AllFacts(s, inputs) + FlushOpens(s, inputs))
  {
    hide Recording, AllFacts, AllCancelled, FlushOpens;
    var recorded, cancelled := Recording(s, inputs, env), AllCancelled(s, inputs);
    var facts, placed := AllFacts(s, inputs), FlushOpens(s, inputs);
    forall x ensures multiset(ErasedAll(recorded) + ExitMessages(cancelled))[x] == multiset(facts + placed)[x] {
      RecordingBalances(s, inputs, env, x);
      FactsAreErased(s, inputs);
      FlushOpensErased(s, inputs);
      CountIsMultiplicity(recorded, x);
      CountIsMultiplicity(facts, x);
      CountIsMultiplicity(placed, x);
      ExitsErased(cancelled);
      ExitsCount(cancelled, x);
      CountIsMultiplicity(ExitMessages(cancelled), x);
    }
  }

  lemma ExitsErased(exits: seq<HeldExit>)
    ensures ErasedAll(ExitMessages(exits)) == ExitMessages(exits)
  {
  }

  lemma FlushOpensErased(s: State, inputs: seq<Input>)
    ensures ErasedAll(FlushOpens(s, inputs)) == FlushOpens(s, inputs)
  {
    hide Run, KnownPath;
  }

  /**
   With file events on, every successful open that looked a path up, or opened the root directory, is
   one Open of the recording, with its own end time, process and descriptor, and there are no others.
   */
  lemma OpensConserved(s: State, inputs: seq<Input>, env: Env, k: Key)
    requires IsNew(s)
    ensures OpenCount(Recording(s, inputs, env), k) == OpensEnded(s, inputs, k)
  {
    hide Recording, AllFacts, AllCancelled, OpenMessages, Run, OpensEnded, HeldCount;
    RecordingBag(s, inputs, env);
    var recorded, cancelled := ErasedAll(Recording(s, inputs, env)), ExitMessages(AllCancelled(s, inputs));
    SameBagSameOpens(recorded + cancelled, AllFacts(s, inputs) + FlushOpens(s, inputs), k);
    OpenCountConcat(recorded, cancelled, k);
    OpenCountConcat(AllFacts(s, inputs), FlushOpens(s, inputs), k);
    ErasedOpens(Recording(s, inputs, env), k);
    ExitsAreNoOpens(AllCancelled(s, inputs), k);
    var t := Run(s, inputs).state;
    PlacedOnce(t, t.heldOpens, k);
    RunOnce(s, inputs, k);
  }
}
