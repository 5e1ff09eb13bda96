/**
 Delivery order and bounded delay. Messages leave the collector in the order they happened,
 although programs and exits are reported late, and nothing waits longer than the retry window.
 */
module DeliveryOrder {
  import opened Basics
  import opened Messages
  import opened Ordering
  import opened CollectorModel

  predicate AfterSent(sent: seq<Message>, time: nat) {
    forall i | 0 <= i < |sent| :: sent[i].time <= time
  }

  /** An exit that is held waits for a program of its own process that started earlier. */
  predicate ExitFollows(pending: seq<Pending>, exit: HeldExit) {
    && HasPending(pending, exit.pid)
    && forall p | p in pending && p.pid == exit.pid :: p.time <= exit.time
  }

  /** What holds between steps, when `sent` is everything delivered so far. */
  predicate InOrderSoFar(s: State, sent: seq<Message>) {
    && Sorted(sent) && AfterSent(sent, s.latest)
    && PendingInOrder(s, sent)
    && ExitsInOrder(s)
    && (s.argvRetries == [] ==> s.queued == [])
    && AllUpTo(s.queued, s.latest)
    && (forall m | m in s.queued :: AfterSent(sent, m.time))
    && (s.argvRetries != [] ==> AllFrom(s.queued, Earliest(s.argvRetries)))
  }

  predicate PendingInOrder(s: State, sent: seq<Message>) {
    forall p | p in s.argvRetries :: p.time <= s.latest && AfterSent(sent, p.time)
  }

  predicate ExitsInOrder(s: State) {
    forall e | e in s.heldExits :: e.time <= s.latest && ExitFollows(s.argvRetries, e)
  }

  /** What holds inside a step, before the queue is released. */
  predicate ReadyToRelease(s: State, sent: seq<Message>, batch: seq<Message>) {
    && Sorted(sent) && AfterSent(sent, s.latest)
    && PendingInOrder(s, sent)
    && ExitsInOrder(s)
    && forall m | m in batch :: m.time <= s.latest && AfterSent(sent, m.time)
  }

  /** Timestamps do not go back, and a program starts only in a process that has not exited. */
  predicate InTime(s: State, r: Record) {
    && s.latest <= r.timestamp
    && (r.Code() == DATA_EXEC && r.thread in s.threads ==>
          forall e | e in s.heldExits :: e.pid != s.threads[r.thread])
  }

  // ---- Releasing the queue ----

  lemma ReleaseInOrder(s: State, sent: seq<Message>, batch: seq<Message>)
    requires ReadyToRelease(s, sent, batch)
    ensures var step := Release(s, batch);
            InOrderSoFar(step.state, sent + step.out)
  {
    hide SortByTime, Sorted, AfterSent, ExitFollows, Earliest;
    var sorted := SortByTime(batch);
    SortSorts(batch);
    SortPermutes(batch);
    var step := Release(s, batch);
    var n := |step.out|;
    forall i | 0 <= i < |sorted| ensures sorted[i].time <= s.latest && AfterSent(sent, sorted[i].time) {
      assert sorted[i] in multiset(sorted);
      assert sorted[i] in batch;
    }
    DeliverPart(sent, sorted, n);
    assert step.out == sorted[..n] && step.state.queued == sorted[n..];
    AfterPart(sent, sorted, n, s.latest);
    forall p | p in s.argvRetries ensures AfterSent(sent + step.out, p.time) {
      EarliestOfAll(s.argvRetries, p);
      ReadyBefore(sorted, Earliest(s.argvRetries), p.time);
      AfterPart(sent, sorted, n, p.time);
    }
    if s.argvRetries != [] {
      RestFrom(sorted, n, Earliest(s.argvRetries));
    }
  }

  lemma EarliestOfAll(pending: seq<Pending>, p: Pending)
    requires p in pending
    ensures Earliest(pending) <= p.time
  {
    var i :| 0 <= i < |pending| && pending[i] == p;
  }

  /** What is delivered of a sorted batch leaves what was sent in order, and the rest after it. */
  lemma DeliverPart(sent: seq<Message>, sorted: seq<Message>, n: nat)
    requires Sorted(sent) && Sorted(sorted) && n <= |sorted|
    requires forall i | 0 <= i < |sorted| :: AfterSent(sent, sorted[i].time)
    ensures Sorted(sent + sorted[..n])
    ensures forall m | m in sorted[n..] :: AfterSent(sent + sorted[..n], m.time)
  {
    SortedConcat(sent, sorted[..n]);
    forall m | m in sorted[n..] ensures AfterSent(sent + sorted[..n], m.time) {
      var i :| 0 <= i < |sorted| - n && sorted[n..][i] == m;
      assert m == sorted[n + i];
    }
  }

  lemma AfterPart(sent: seq<Message>, sorted: seq<Message>, n: nat, time: nat)
    requires n <= |sorted| && AfterSent(sent, time) && forall i | 0 <= i < n :: sorted[i].time <= time
    ensures AfterSent(sent + sorted[..n], time)
  {
  }

  lemma ReadyBefore(sorted: seq<Message>, earliest: nat, time: nat)
    requires earliest <= time
    ensures forall i | 0 <= i < ReadyCount(sorted, earliest) :: sorted[i].time <= time
  {
    var n := ReadyCount(sorted, earliest);
    assert forall i | 0 <= i < n :: sorted[..n][i] == sorted[i];
  }

  lemma RestFrom(sorted: seq<Message>, n: nat, earliest: nat)
    requires Sorted(sorted) && n == ReadyCount(sorted, earliest)
    ensures AllFrom(sorted[n..], earliest)
  {
  }

  // ---- Inside a step ----

  predicate SameStart(p: Pending, q: Pending) {
    p.pid == q.pid && p.time == q.time
  }

  predicate KeptFrom(kept: seq<Pending>, pending: seq<Pending>) {
    forall k | k in kept :: exists p :: p in pending && SameStart(k, p)
  }

  lemma {:induction false} RetryListFrom(s: State, pending: seq<Pending>, env: Env, lastChance: bool)
    ensures var all := RetryList(s, pending, env, lastChance);
            && KeptFrom(all.kept, pending)
            && (lastChance ==> all.kept == [])
            && (forall k | k in all.kept :: s.latest < k.time + s.window)
            && (forall m | m in all.out :: exists p :: p in pending && p.time == m.time)
  {
    if pending != [] {
      var n := |pending| - 1;
      RetryListFrom(s, pending[..n], env, lastChance);
      var before := RetryList(s, pending[..n], env, lastChance);
      var all := RetryList(s, pending, env, lastChance);
      assert pending[n] in pending;
      match Retry(s, pending[n], env.inspect(pending[n].pid), lastChance) {
        case Keep(k) =>
          assert SameStart(k, pending[n]);
          forall x | x in all.kept ensures exists p :: p in pending && SameStart(x, p) {
            if x in before.kept {
              var p :| p in pending[..n] && SameStart(x, p);
              assert p in pending;
            }
          }
        case Report(m, lost) =>
      }
    }
  }

  lemma {:induction false} WaitingFrom(exits: seq<HeldExit>, pending: seq<Pending>)
    ensures forall e | e in Waiting(exits, pending) :: e in exits && HasPending(pending, e.pid)
    ensures forall e | e in Believable(exits, pending) :: e in exits && !HasPending(pending, e.pid)
  {
    if exits != [] {
      WaitingFrom(exits[1..], pending);
    }
  }

  lemma BelieveInOrder(s: State, sent: seq<Message>, batch: seq<Message>)
    requires Sorted(sent) && AfterSent(sent, s.latest) && PendingInOrder(s, sent)
    requires forall m | m in batch :: m.time <= s.latest && AfterSent(sent, m.time)
    requires forall e | e in s.heldExits :: e.time <= s.latest && AfterSent(sent, e.time)
    requires forall e, p | e in s.heldExits && p in s.argvRetries && p.pid == e.pid :: p.time <= e.time
    ensures var step := BelieveExits(s);
            ReadyToRelease(step.state, sent, batch + step.out)
  {
    var step := BelieveExits(s);
    var believed := Believable(s.heldExits, s.argvRetries);
    WaitingFrom(s.heldExits, s.argvRetries);
    forall m | m in step.out ensures m.time <= s.latest && AfterSent(sent, m.time) {
      var i :| 0 <= i < |step.out| && step.out[i] == m;
      assert m == ExitMessage(believed[i]) && believed[i] in s.heldExits;
    }
  }

  /** A held exit is after everything sent: it waits for a program that is. */
  lemma HeldAfterSent(s: State, sent: seq<Message>)
    requires PendingInOrder(s, sent) && ExitsInOrder(s)
    ensures forall e | e in s.heldExits :: AfterSent(sent, e.time)
  {
    forall e | e in s.heldExits ensures AfterSent(sent, e.time) {
      var i :| 0 <= i < |s.argvRetries| && s.argvRetries[i].pid == e.pid;
      assert s.argvRetries[i] in s.argvRetries;
    }
  }

  lemma {:induction false} WithoutPidFrom(exits: seq<HeldExit>, pid: Pid)
    ensures forall e | e in WithoutPid(exits, pid) :: e in exits && e.pid != pid
  {
    if exits != [] {
      WithoutPidFrom(exits[1..], pid);
    }
  }

  lemma MarkNamedSame(pending: seq<Pending>, pid: Pid)
    ensures forall k | k in MarkNamed(pending, pid) :: exists p :: p in pending && SameStart(k, p)
    ensures forall other :: HasPending(pending, other) ==> HasPending(MarkNamed(pending, pid), other)
  {
    var marked := MarkNamed(pending, pid);
    forall k | k in marked ensures exists p :: p in pending && SameStart(k, p) {
      var i :| 0 <= i < |marked| && marked[i] == k;
      assert pending[i] in pending && SameStart(k, pending[i]);
    }
    forall other | HasPending(pending, other) ensures HasPending(marked, other) {
      var i :| 0 <= i < |pending| && pending[i].pid == other;
      assert marked[i].pid == other;
    }
  }

  // ---- Each kind of record ----

  lemma AddNow(s: State, sent: seq<Message>, batch: seq<Message>, t: State, out: seq<Message>, now: nat)
    requires ReadyToRelease(s, sent, batch) && now <= s.latest && AfterSent(sent, now)
    requires t.argvRetries == s.argvRetries && t.latest == s.latest
    requires forall e | e in t.heldExits :: e in s.heldExits
    requires forall m | m in out :: m.time == now
    ensures ReadyToRelease(t, sent, batch + out)
  {
  }

  lemma NameInOrder(s: State, sent: seq<Message>, batch: seq<Message>, pid: Pid, args: Args)
    requires ReadyToRelease(s, sent, batch)
    ensures ReadyToRelease(NameProgram(s, pid, args), sent, batch)
  {
    MarkNamedSame(s.argvRetries, pid);
    var t := NameProgram(s, pid, args);
    forall e | e in t.heldExits ensures ExitFollows(t.argvRetries, e) {
      forall k | k in t.argvRetries && k.pid == e.pid ensures k.time <= e.time {
        var p :| p in s.argvRetries && SameStart(k, p);
      }
    }
  }

  lemma ExitInOrder(s: State, sent: seq<Message>, batch: seq<Message>, pid: Pid, r: Record)
    requires ReadyToRelease(s, sent, batch) && r.timestamp == s.latest
    ensures var step := ProcExit(s, pid, r);
            ReadyToRelease(step.state, sent, batch + step.out)
  {
    if r.thread in s.replaced || r.thread in s.newTasks {
      AddNow(s, sent, batch, ProcExit(s, pid, r).state, [], s.latest);
    } else {
      var t := s.(heldExits := s.heldExits + [HeldExit(pid, r.timestamp, AsI32(r.args[1]))]);
      HeldAfterSent(s, sent);
      BelieveInOrder(t, sent, batch);
    }
  }

  /** What a started program leaves pending: others' entries, and at most one of its own, new. */
  lemma ExecPending(s: State, pid: Pid, time: nat, image: Word, env: Env)
    ensures var step := ExecStep(s, pid, time, image, env);
            && step.state.heldExits == s.heldExits && step.state.latest == s.latest && step.state.window == s.window
            && (forall p | p in step.state.argvRetries ::
                  p in s.argvRetries || (p.pid == pid && p.time == time && !p.named))
            && (forall other | other != pid && HasPending(s.argvRetries, other) ::
                  HasPending(step.state.argvRetries, other))
            && (forall m | m in step.out :: m.time == time || exists p :: p in s.argvRetries && p.time == m.time)
  {
    hide SettleEarlier, StartProgram;
    var s1 := CloseOnExec(s, pid);
    var earlier := SettleEarlier(s1, pid);
    SettleEarlierPending(s1, pid);
    StartProgramPending(earlier.state, pid, time, image, env.inspect(pid));
  }

  lemma SettleEarlierPending(s: State, pid: Pid)
    ensures var step := SettleEarlier(s, pid);
            && step.state.heldExits == s.heldExits && step.state.latest == s.latest && step.state.window == s.window
            && (forall p | p in step.state.argvRetries :: p in s.argvRetries)
            && (forall other | other != pid && HasPending(s.argvRetries, other) ::
                  HasPending(step.state.argvRetries, other))
            && (forall m | m in step.out :: exists p :: p in s.argvRetries && p.time == m.time)
  {
    hide Settled;
    if HasPending(s.argvRetries, pid) {
      var i := FirstPending(s.argvRetries, pid);
      assert s.argvRetries[i] in s.argvRetries;
      var left := s.argvRetries[..i] + s.argvRetries[i + 1..];
      forall other | other != pid && HasPending(s.argvRetries, other) ensures HasPending(left, other) {
        var j :| 0 <= j < |s.argvRetries| && s.argvRetries[j].pid == other;
        assert left[if j < i then j else j - 1].pid == other;
      }
    }
  }

  lemma StartProgramPending(s: State, pid: Pid, time: nat, image: Word, answer: Answer)
    ensures var step := StartProgram(s, pid, time, image, answer);
            && step.state.heldExits == s.heldExits && step.state.latest == s.latest && step.state.window == s.window
            && (forall p | p in step.state.argvRetries ::
                  p in s.argvRetries || (p.pid == pid && p.time == time && !p.named))
            && (forall other | HasPending(s.argvRetries, other) :: HasPending(step.state.argvRetries, other))
            && (forall m | m in step.out :: m.time == time)
  {
    hide StartProgram;
    var step := StartProgram(s, pid, time, image, answer);
    assert step.out == [] ==> step.state.argvRetries == s.argvRetries + [step.state.argvRetries[|s.argvRetries|]];
    forall other | HasPending(s.argvRetries, other) ensures HasPending(step.state.argvRetries, other) {
      var j :| 0 <= j < |s.argvRetries| && s.argvRetries[j].pid == other;
      assert step.state.argvRetries[j].pid == other;
    }
  }

  lemma ExecInOrder(s: State, sent: seq<Message>, batch: seq<Message>, pid: Pid, image: Word, env: Env)
    requires ReadyToRelease(s, sent, batch)
    requires forall e | e in s.heldExits :: e.pid != pid
    ensures var step := ExecStep(s, pid, s.latest, image, env);
            ReadyToRelease(step.state, sent, batch + step.out)
  {
    ExecPending(s, pid, s.latest, image, env);
    var step := ExecStep(s, pid, s.latest, image, env);
    forall e | e in step.state.heldExits ensures ExitFollows(step.state.argvRetries, e) {
      assert e in s.heldExits && ExitFollows(s.argvRetries, e);
    }
  }

  lemma NewThreadInOrder(s: State, sent: seq<Message>, batch: seq<Message>, r: Record)
    requires ReadyToRelease(s, sent, batch) && r.timestamp == s.latest
    ensures var step := NewThread(s, r);
            ReadyToRelease(step.state, sent, batch + step.out)
  {
    var step := NewThread(s, r);
    WithoutPidFrom(s.heldExits, AsI32(r.args[1]));
    AddNow(s, sent, batch, step.state, step.out, s.latest);
  }

  lemma ProcessStepInOrder(s: State, sent: seq<Message>, batch: seq<Message>, pid: Pid, r: Record, env: Env)
    requires ReadyToRelease(s, sent, batch) && r.timestamp == s.latest
    requires r.Code() == DATA_EXEC ==> forall e | e in s.heldExits :: e.pid != pid
    ensures var step := ProcessStep(s, pid, r, env);
            ReadyToRelease(step.state, sent, batch + step.out)
  {
    hide ExecStep, ProcExit, NameProgram, SyscallStep, LookupStep;
    var step := ProcessStep(s, pid, r, env);
    var code := r.Code();
    if code == STRING_EXEC {
      NameInOrder(s, sent, batch, pid, r.args);
      assert batch + [] == batch;
    } else if code == DATA_EXEC {
      ExecInOrder(ReplaceAsker(s, r.thread), sent, batch, pid, r.args[2], env);
    } else if code == PROC_EXIT && r.IsEnd() {
      ExitInOrder(s, sent, batch, pid, r);
    } else {
      AddNow(s, sent, batch, step.state, step.out, s.latest);
    }
  }

  lemma ObserveInOrder(s: State, sent: seq<Message>, r: Record, env: Env)
    requires InOrderSoFar(s, sent) && InTime(s, r)
    ensures var step := Observe(s, r, env);
            InOrderSoFar(step.state, sent + step.out)
  {
    hide ProcessStep, NewThread, Release;
    var s1 := Noticed(Dequeued(s), r);
    assert ReadyToRelease(s1, sent, s.queued);
    var step := Interpret(Dequeued(s), r, env);
    if r.Code() == NEWTHREAD {
      NewThreadInOrder(s1, sent, s.queued, r);
    } else if r.Code() == LOST_EVENTS || !IsFollowedThread(s1, r.thread) {
      AddNow(s1, sent, s.queued, step.state, step.out, s1.latest);
    } else {
      ProcessStepInOrder(s1, sent, s.queued, s1.threads[r.thread], r, env);
    }
    ReleaseInOrder(step.state, sent, s.queued + step.out);
  }

  // ---- Ticks ----

  lemma RetryInOrder(s: State, sent: seq<Message>, batch: seq<Message>, env: Env, lastChance: bool)
    requires ReadyToRelease(s, sent, batch)
    ensures var step := RetryCommandLines(s, env, lastChance);
            && PendingInOrder(step.state, sent)
            && step.state.heldExits == s.heldExits && step.state.latest == s.latest
            && (forall m | m in batch + step.out :: m.time <= s.latest && AfterSent(sent, m.time))
            && (forall e | e in s.heldExits :: e.time <= s.latest && AfterSent(sent, e.time))
            && (forall e, p | e in s.heldExits && p in step.state.argvRetries && p.pid == e.pid :: p.time <= e.time)
  {
    RetryListFrom(s, s.argvRetries, env, lastChance);
    HeldAfterSent(s, sent);
    var step := RetryCommandLines(s, env, lastChance);
    forall m | m in batch + step.out ensures m.time <= s.latest && AfterSent(sent, m.time) {
      if m !in batch {
        assert m in step.out;
        var p :| p in s.argvRetries && p.time == m.time;
      }
    }
    forall k | k in step.state.argvRetries ensures k.time <= s.latest && AfterSent(sent, k.time) {
      var p :| p in s.argvRetries && SameStart(k, p);
    }
    forall e, k | e in s.heldExits && k in step.state.argvRetries && k.pid == e.pid ensures k.time <= e.time {
      var p :| p in s.argvRetries && SameStart(k, p);
      assert ExitFollows(s.argvRetries, e);
    }
  }

  lemma TickInOrder(s: State, sent: seq<Message>, env: Env)
    requires InOrderSoFar(s, sent)
    ensures var step := Tick(s, env);
            InOrderSoFar(step.state, sent + step.out)
  {
    hide BelieveExits, RetryCommandLines, Release;
    var s1 := Dequeued(s);
    assert ReadyToRelease(s1, sent, s.queued);
    RetryInOrder(s1, sent, s.queued, env, false);
    var retried := RetryCommandLines(s1, env, false);
    BelieveInOrder(retried.state, sent, s.queued + retried.out);
    var believed := BelieveExits(retried.state);
    assert s.queued + retried.out + believed.out == s.queued + (retried.out + believed.out);
    ReleaseInOrder(believed.state, sent, s.queued + (retried.out + believed.out));
  }

  // ---- Whole runs ----

  /** Every record of the run comes in time for the state it meets. */
  predicate RunInTime(s: State, inputs: seq<Input>) {
    inputs == [] ||
    (var n := |inputs| - 1;
     && RunInTime(s, inputs[..n])
     && (inputs[n].Seen? ==> InTime(Run(s, inputs[..n]).state, inputs[n].record)))
  }

  lemma {:induction false} RunInOrder(s: State, sent: seq<Message>, inputs: seq<Input>)
    requires InOrderSoFar(s, sent) && RunInTime(s, inputs)
    ensures var run := Run(s, inputs);
            InOrderSoFar(run.state, sent + run.out)
  {
    if inputs == [] {
      assert sent + [] == sent;
    } else {
      var n := |inputs| - 1;
      RunInOrder(s, sent, inputs[..n]);
      var before := Run(s, inputs[..n]);
      var last := Next(before.state, inputs[n]);
      match inputs[n] {
        case Seen(r, env) => ObserveInOrder(before.state, sent + before.out, r, env);
        case Ticked(env) => TickInOrder(before.state, sent + before.out, env);
      }
      ConcatAssociates(sent, before.out, last.out);
    }
  }

  predicate IsNew(s: State) {
    s.argvRetries == [] && s.heldExits == [] && s.heldOpens == [] && s.queued == []
  }

  /** Over a whole run from a new collector, messages leave in the order they happened. */
  lemma DeliveredInOrder(s: State, inputs: seq<Input>)
    requires IsNew(s) && RunInTime(s, inputs)
    ensures Sorted(Run(s, inputs).out)
  {
    RunInOrder(s, [], inputs);
    assert [] + Run(s, inputs).out == Run(s, inputs).out;
  }

  // ---- Bounded hold ----

  /** A time is still inside the retry window. */
  predicate InWindow(s: State, time: nat) {
    s.latest < time + s.window
  }

  /** Nothing that waits is older than the retry window. */
  predicate HoldsOnlyRecent(s: State) {
    && (forall p | p in s.argvRetries :: InWindow(s, p.time))
    && (forall e | e in s.heldExits :: InWindow(s, e.time))
    && (forall m | m in s.queued :: InWindow(s, m.time))
  }

  /** After every tick, whatever the reads answer, what still waits is inside the window. */
  lemma TickBoundsHold(s: State, sent: seq<Message>, env: Env)
    requires InOrderSoFar(s, sent)
    ensures HoldsOnlyRecent(Tick(s, env).state)
  {
    hide Tick, InOrderSoFar;
    TickInOrder(s, sent, env);
    TickKeepsRecent(s, env);
    RecentFrom(Tick(s, env).state, sent + Tick(s, env).out);
  }

  lemma TickKeepsRecent(s: State, env: Env)
    ensures forall p | p in Tick(s, env).state.argvRetries :: InWindow(Tick(s, env).state, p.time)
  {
    hide BelieveExits, Release, RetryList;
    RetryListFrom(Dequeued(s), s.argvRetries, env, false);
  }

  /** What waits only waits for a program, so it is as recent as the programs are. */
  lemma RecentFrom(t: State, sent: seq<Message>)
    requires InOrderSoFar(t, sent) && forall p | p in t.argvRetries :: InWindow(t, p.time)
    ensures HoldsOnlyRecent(t)
  {
    hide Sorted, AfterSent, Earliest;
    if t.argvRetries != [] {
      var i :| 0 <= i < |t.argvRetries| && Earliest(t.argvRetries) == t.argvRetries[i].time;
      assert t.argvRetries[i] in t.argvRetries;
    }
    forall e | e in t.heldExits ensures InWindow(t, e.time) {
      var i :| 0 <= i < |t.argvRetries| && t.argvRetries[i].pid == e.pid;
      assert t.argvRetries[i] in t.argvRetries && ExitFollows(t.argvRetries, e);
    }
  }

  // ---- The flush ----

  /** After the flush nothing waits any more, whatever happened before it. */
  lemma FlushEmpties(s: State, env: Env)
    ensures IsNew(Flush(s, env).state)
  {
    RetryListFrom(Dequeued(s).(heldOpens := []), s.argvRetries, env, true);
  }

  /** What the flush releases is its batch, sorted. */
  lemma FlushReleases(s: State, env: Env)
    ensures Flush(s, env).out == SortByTime(s.queued + FlushStep(Dequeued(s), env).out)
  {
    FlushEmpties(s, env);
    var sorted := SortByTime(s.queued + FlushStep(Dequeued(s), env).out);
    assert sorted[..|sorted|] == sorted;
  }

  /** The flush's own messages are in order, and only opens it places can be older than what was sent. */
  lemma FlushInOrder(s: State, sent: seq<Message>, env: Env)
    requires InOrderSoFar(s, sent)
    ensures var out := Flush(s, env).out;
            && Sorted(out)
            && forall m | m in out :: AfterSent(sent, m.time) || m in OpenMessages(s, s.heldOpens)
  {
    hide Flush, FlushStep, SortByTime;
    var batch := s.queued + FlushStep(Dequeued(s), env).out;
    FlushReleases(s, env);
    SortSorts(batch);
    SortPermutes(batch);
    FlushBatch(s, sent, env);
    forall m | m in Flush(s, env).out ensures AfterSent(sent, m.time) || m in OpenMessages(s, s.heldOpens) {
      assert m in multiset(batch);
      assert m in batch;
    }
  }

  lemma FlushBatch(s: State, sent: seq<Message>, env: Env)
    requires InOrderSoFar(s, sent)
    ensures forall m | m in FlushStep(Dequeued(s), env).out ::
              AfterSent(sent, m.time) || m in OpenMessages(s, s.heldOpens)
  {
    hide RetryCommandLines, EndProcesses;
    var s1 := Dequeued(s);
    var opens := OpenMessages(s1, s.heldOpens);
    var execs := RetryCommandLines(s1.(heldOpens := []), env, true);
    var exits := ExitMessages(s.heldExits);
    assert ReadyToRelease(s1.(heldOpens := []), sent, s.queued);
    RetryInOrder(s1.(heldOpens := []), sent, s.queued, env, true);
    OpenMessagesSame(s, s1, s.heldOpens);
    forall m | m in opens + execs.out + exits ensures AfterSent(sent, m.time) || m in OpenMessages(s, s.heldOpens) {
      if m in exits {
        var i :| 0 <= i < |exits| && exits[i] == m;
        assert s.heldExits[i] in s.heldExits;
      } else if m !in opens {
        assert m in s.queued + execs.out;
      }
    }
  }

  lemma {:induction false} OpenMessagesSame(s: State, t: State, opens: seq<HeldOpen>)
    requires s.vnodePaths == t.vnodePaths
    ensures OpenMessages(s, opens) == OpenMessages(t, opens)
  {
  }
}
