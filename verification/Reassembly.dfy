/**
 Paths arrive in fragments, thread by thread, with every other thread's records in between. A
 finished call sees exactly the lookups its own thread recorded since it began, each path whole.
 */
module Reassembly {
  import opened Basics
  import opened Messages
  import opened Fragments
  import opened CollectorModel

  // ---- What one thread's records do ----

  datatype View = View(call: Option<Call>, gathered: Gathered)

  function ViewOf(s: State, thread: Tid): View {
    View(Get(s.calls, thread), LookupOf(s, thread))
  }

  function WithLookup(call: Call, lookup: Lookup): Call {
    call.(lookups := call.lookups + [lookup])
  }

  /** A record's effect on its own thread's call and gathered words, with nothing else in sight. */
  function OwnStep(v: View, r: Record): View {
    if r.Code() == VFS_LOOKUP then
      var entry := Gather(v.gathered, r);
      if !r.IsEnd() then View(v.call, entry)
      else View(if v.call.Some? then Some(WithLookup(v.call.value,
                                                     Lookup(entry.vnode, Decoded(entry.words)))) else None,
                Gathered(0, []))
    else if IsFollowed(r.Code()) then
      if r.IsStart() then View(Some(Call(r.Code(), r.args, [])), v.gathered)
      else if r.IsEnd() then View(None, v.gathered)
      else v
    else v
  }

  function OwnSteps(v: View, rs: seq<Record>): View {
    if rs == [] then v else OwnStep(OwnSteps(v, rs[..|rs| - 1]), rs[|rs| - 1])
  }

  lemma {:induction false} OwnStepsConcat(v: View, a: seq<Record>, b: seq<Record>)
    ensures OwnSteps(v, a + b) == OwnSteps(OwnSteps(v, a), b)
    decreases |b|
  {
    hide OwnStep;
    if b == [] {
      assert a + b == a;
    } else {
      var n := |b| - 1;
      OwnStepsConcat(v, a, b[..n]);
      assert (a + b)[..|a + b| - 1] == a + b[..n];
    }
  }

  // ---- Other threads do not interfere ----

  lemma ProcessStepOwn(s: State, r: Record, env: Env, thread: Tid)
    requires IsFollowedThread(s, r.thread) && r.Code() != NEWTHREAD && r.Code() != LOST_EVENTS
    ensures ViewOf(ProcessStep(s, s.threads[r.thread], r, env).state, thread)
         == if thread == r.thread then OwnStep(ViewOf(s, thread), r) else ViewOf(s, thread)
  {
    hide ExecStep, ProcExit, NameProgram, ReplaceAsker, LookupStep, SyscallStep, Gather, IsFollowed;
    var pid := s.threads[r.thread];
    if r.Code() == VFS_LOOKUP {
      LookupOwn(s, r, thread);
    } else if IsFollowed(r.Code()) {
      SyscallOwn(s, pid, r, env, thread);
    }
    assert r.Code() == DATA_EXEC || r.Code() == STRING_EXEC || r.Code() == PROC_EXIT ==> !IsFollowed(r.Code()) by {
      NotSyscalls(r.Code());
    }
  }

  lemma NotSyscalls(code: nat)
    ensures code == DATA_EXEC || code == STRING_EXEC || code == PROC_EXIT ==> !IsFollowed(code)
    ensures code == VFS_LOOKUP || code == NEWTHREAD || code == LOST_EVENTS ==> !IsFollowed(code)
  {
  }

  lemma LookupOwn(s: State, r: Record, thread: Tid)
    requires r.Code() == VFS_LOOKUP
    ensures ViewOf(LookupStep(s, r), thread)
         == if thread == r.thread then OwnStep(ViewOf(s, thread), r) else ViewOf(s, thread)
  {
    hide Gather, Decoded, FinishLookup;
    var entry := Gather(LookupOf(s, r.thread), r);
    FinishLookupOwn(s, r.thread, entry.vnode, Decoded(entry.words), thread);
  }

  lemma FinishLookupOwn(s: State, own: Tid, vnode: Word, path: Text, thread: Tid)
    ensures ViewOf(FinishLookup(s, own, vnode, path), thread)
         == if thread != own then ViewOf(s, thread)
            else View(if own in s.calls then Some(WithLookup(s.calls[own], Lookup(vnode, path))) else None,
                      Gathered(0, []))
  {
  }

  /** A system call's record leaves its own thread in the call it begins, or in none, and others in theirs. */
  lemma SyscallCalls(s: State, pid: Pid, r: Record, env: Env, thread: Tid)
    ensures var t := SyscallStep(s, pid, r, env).state;
            && t.lookups == s.lookups
            && Get(t.calls, thread)
            == if thread != r.thread then Get(s.calls, thread)
               else if r.IsStart() then Some(Call(r.Code(), r.args, []))
               else if r.IsEnd() then None
               else Get(s.calls, thread)
  {
    hide FinishCall;
    var calls := SyscallStep(s, pid, r, env).state.calls;
    assert thread in calls - {r.thread} <==> thread in s.calls - {r.thread};
  }

  lemma SyscallOwn(s: State, pid: Pid, r: Record, env: Env, thread: Tid)
    requires IsFollowed(r.Code())
    ensures ViewOf(SyscallStep(s, pid, r, env).state, thread)
         == if thread == r.thread then OwnStep(ViewOf(s, thread), r) else ViewOf(s, thread)
  {
    hide SyscallStep, IsFollowed, Gather, Get;
    assert r.Code() != VFS_LOOKUP by { NotSyscalls(r.Code()); }
    SyscallCalls(s, pid, r, env, thread);
  }

  lemma SameView(s: State, t: State, thread: Tid)
    requires t.calls == s.calls && t.lookups == s.lookups
    ensures ViewOf(t, thread) == ViewOf(s, thread)
  {
  }

  lemma OwnStepIdle(v: View, r: Record)
    requires r.Code() == NEWTHREAD || r.Code() == LOST_EVENTS
    ensures OwnStep(v, r) == v
  {
    hide Gather, IsFollowed;
    NotSyscalls(r.Code());
  }

  lemma InterpretOwn(s: State, r: Record, env: Env, thread: Tid)
    ensures ViewOf(Interpret(s, r, env).state, thread)
         == if thread == r.thread && IsFollowedThread(s, thread) then OwnStep(ViewOf(s, thread), r)
            else ViewOf(s, thread)
  {
    hide NewThread, ProcessStep, ViewOf, OwnStep;
    var s1 := Noticed(s, r);
    SameView(s, s1, thread);
    if r.Code() == NEWTHREAD || r.Code() == LOST_EVENTS {
      OwnStepIdle(ViewOf(s, thread), r);
      SameView(s, Interpret(s, r, env).state, thread);
    } else if IsFollowedThread(s1, r.thread) {
      ProcessStepOwn(s1, r, env, thread);
    }
  }

  lemma ObserveOwn(s: State, r: Record, env: Env, thread: Tid)
    ensures ViewOf(Observe(s, r, env).state, thread)
         == if thread == r.thread && IsFollowedThread(s, thread) then OwnStep(ViewOf(s, thread), r)
            else ViewOf(s, thread)
  {
    hide Interpret, Release, OwnStep, ViewOf;
    SameView(s, Dequeued(s), thread);
    InterpretOwn(Dequeued(s), r, env, thread);
    SameView(Interpret(Dequeued(s), r, env).state, Observe(s, r, env).state, thread);
  }

  lemma TickOwn(s: State, env: Env, thread: Tid)
    ensures ViewOf(Tick(s, env).state, thread) == ViewOf(s, thread)
  {
    hide RetryCommandLines, BelieveExits, Release;
  }

  /** The records of one thread in a run, in order. */
  function OwnRecords(inputs: seq<Input>, thread: Tid): seq<Record> {
    if inputs == [] then [] else
      var n := |inputs| - 1;
      OwnRecords(inputs[..n], thread)
      + (if inputs[n].Seen? && inputs[n].record.thread == thread then [inputs[n].record] else [])
  }

  /** The thread belongs to a followed process at each of its own records. */
  predicate StaysFollowed(s: State, inputs: seq<Input>, thread: Tid) {
    inputs == [] ||
    (var n := |inputs| - 1;
     && StaysFollowed(s, inputs[..n], thread)
     && (inputs[n].Seen? && inputs[n].record.thread == thread ==> IsFollowedThread(Run(s, inputs[..n]).state, thread)))
  }

  /** However other threads' records and ticks fall in between, a thread's view is its own doing. */
  lemma {:induction false} RunOwn(s: State, inputs: seq<Input>, thread: Tid)
    requires StaysFollowed(s, inputs, thread)
    ensures ViewOf(Run(s, inputs).state, thread) == OwnSteps(ViewOf(s, thread), OwnRecords(inputs, thread))
  {
    hide Observe, Tick, OwnStep, ViewOf;
    if inputs != [] {
      var n := |inputs| - 1;
      RunOwn(s, inputs[..n], thread);
      var before := Run(s, inputs[..n]).state;
      match inputs[n] {
        case Seen(r, env) =>
          ObserveOwn(before, r, env, thread);
          if r.thread == thread {
            assert OwnRecords(inputs, thread)[..|OwnRecords(inputs[..n], thread)|] == OwnRecords(inputs[..n], thread);
          } else {
            assert OwnRecords(inputs, thread) == OwnRecords(inputs[..n], thread);
          }
        case Ticked(env) =>
          TickOwn(before, env, thread);
          assert OwnRecords(inputs, thread) == OwnRecords(inputs[..n], thread);
      }
    }
  }

  // ---- How the kernel writes a lookup ----

  /** `rs` are the records of one lookup: three words, then four at a time, the last one marked. */
  predicate WordsIn(rs: seq<Record>, vnode: Word, words: seq<Word>) {
    && |rs| >= 1 && |words| == 4 * |rs| - 1
    && (forall i | 0 <= i < |rs| :: rs[i].Code() == VFS_LOOKUP && (rs[i].IsEnd() <==> i == |rs| - 1))
    && rs[0].IsStart() && rs[0].args == [vnode] + words[..3]
    && (forall i | 1 <= i < |rs| :: !rs[i].IsStart() && rs[i].args == words[4 * i - 1..4 * i + 3])
  }

  /** A path is recorded in as many words as its records hold, padded with NULs. */
  predicate LookupIn(rs: seq<Record>, lookup: Lookup) {
    && |rs| >= 1
    && 0 !in lookup.path && |lookup.path| <= 8 * (4 * |rs| - 1)
    && WordsIn(rs, lookup.vnode, Pack(lookup.path, 4 * |rs| - 1))
  }

  lemma {:induction false} GatherWords(v: View, rs: seq<Record>, vnode: Word, words: seq<Word>, k: nat)
    requires WordsIn(rs, vnode, words) && 1 <= k < |rs|
    ensures OwnSteps(v, rs[..k]) == View(v.call, Gathered(vnode, words[..4 * k - 1]))
  {
    assert rs[..k][..k - 1] == rs[..k - 1];
    if k > 1 {
      GatherWords(v, rs, vnode, words, k - 1);
      assert words[..4 * (k - 1) - 1] + words[4 * (k - 1) - 1..4 * (k - 1) + 3] == words[..4 * k - 1];
    } else {
      assert OwnSteps(v, rs[..0]) == v;
      assert ([vnode] + words[..3])[1..] == words[..3];
    }
  }

  /** The records of a lookup add exactly its path to the thread's call. */
  lemma LookupIsWhole(v: View, rs: seq<Record>, lookup: Lookup)
    requires LookupIn(rs, lookup) && v.call.Some?
    ensures OwnSteps(v, rs) == View(Some(WithLookup(v.call.value, lookup)), Gathered(0, []))
  {
    hide Pack, Decoded;
    var n := |rs| - 1;
    var words := Pack(lookup.path, 4 * |rs| - 1);
    DecodedPack(lookup.path, 4 * |rs| - 1);
    if n == 0 {
      assert rs[..0] == [] && OwnSteps(v, rs[..0]) == v;
      assert ([lookup.vnode] + words[..3])[1..] == words[..3] == words;
    } else {
      GatherWords(v, rs, lookup.vnode, words, n);
      assert words[..4 * n - 1] + words[4 * n - 1..4 * n + 3] == words;
    }
  }

  // ---- A whole call ----

  /** `rs` begin a call and record these lookups, in order. */
  predicate CallIn(rs: seq<Record>, call: Call)
    decreases |call.lookups|
  {
    if call.lookups == [] then
      && |rs| == 1 && rs[0].IsStart()
      && rs[0].Code() == call.code && IsFollowed(call.code) && rs[0].args == call.args
    else
      exists k | 0 <= k <= |rs| ::
        && CallIn(rs[..k], call.(lookups := call.lookups[..|call.lookups| - 1]))
        && LookupIn(rs[k..], call.lookups[|call.lookups| - 1])
  }

  lemma CallBegins(v: View, rs: seq<Record>, call: Call)
    requires CallIn(rs, call) && call.lookups == []
    ensures OwnSteps(v, rs).call == Some(call)
  {
    hide IsFollowed, Gather;
    assert OwnSteps(v, rs[..0]) == v;
    NotSyscalls(call.code);
  }

  lemma {:induction false} CallIsWhole(v: View, rs: seq<Record>, call: Call)
    requires CallIn(rs, call)
    ensures OwnSteps(v, rs).call == Some(call)
    decreases |call.lookups|
  {
    hide OwnSteps, LookupIn;
    if call.lookups == [] {
      CallBegins(v, rs, call);
    } else {
      var n := |call.lookups| - 1;
      var before := call.(lookups := call.lookups[..n]);
      var k :| 0 <= k <= |rs| && CallIn(rs[..k], before) && LookupIn(rs[k..], call.lookups[n]);
      CallIsWhole(v, rs[..k], before);
      LookupIsWhole(OwnSteps(v, rs[..k]), rs[k..], call.lookups[n]);
      OwnStepsConcat(v, rs[..k], rs[k..]);
      assert rs[..k] + rs[k..] == rs;
      assert call.lookups[..n] + [call.lookups[n]] == call.lookups;
    }
  }

  /**
   When a thread's own records in a run are a call's, the record that ends the call finishes it with
   exactly the lookups recorded, every path recovered, whatever else the run interleaves.
   */
  lemma FinishedCallSeesItsLookups(s: State, inputs: seq<Input>, thread: Tid, call: Call, end: Record, env: Env)
    requires StaysFollowed(s, inputs, thread) && CallIn(OwnRecords(inputs, thread), call)
    requires end.thread == thread && end.Code() == call.code
    requires end.IsEnd() && !end.IsStart() && end.args[0] == 0
    ensures var t := Run(s, inputs).state;
            && Get(t.calls, thread) == Some(call)
            && forall pid :: SyscallStep(t, pid, end, env)
                          == FinishCall(t.(calls := t.calls - {thread}), pid, end.timestamp, call, end.args[1], env)
  {
    hide Run, FinishCall, OwnSteps, CallIn;
    RunOwn(s, inputs, thread);
    CallIsWhole(ViewOf(s, thread), OwnRecords(inputs, thread), call);
  }
}
