/** The stable sort by time that the reordering queue uses, and what a sorted queue gives. */
module Ordering {
  import opened Messages

  predicate Sorted(ms: seq<Message>) {
    forall i, j | 0 <= i < j < |ms| :: ms[i].time <= ms[j].time
  }

  predicate StrictlySorted(ms: seq<Message>) {
    forall i, j | 0 <= i < j < |ms| :: ms[i].time < ms[j].time
  }

  predicate AllFrom(ms: seq<Message>, time: nat) {
    forall i | 0 <= i < |ms| :: time <= ms[i].time
  }

  predicate AllUpTo(ms: seq<Message>, time: nat) {
    forall i | 0 <= i < |ms| :: ms[i].time <= time
  }

  predicate AllBefore(ms: seq<Message>, time: nat) {
    forall i | 0 <= i < |ms| :: ms[i].time < time
  }

  /** `m`, known to come first of its time, put into a sorted queue. */
  function Insert(m: Message, sorted: seq<Message>): seq<Message> {
    if sorted == [] || m.time <= sorted[0].time then [m] + sorted
    else [sorted[0]] + Insert(m, sorted[1..])
  }

  function SortByTime(ms: seq<Message>): seq<Message> {
    if ms == [] then [] else Insert(ms[0], SortByTime(ms[1..]))
  }

  /** How many messages at the front of the queue are before `time`. */
  function ReadyCount(ms: seq<Message>, time: nat): (n: nat)
    ensures n <= |ms|
    ensures AllBefore(ms[..n], time)
    ensures n < |ms| ==> time <= ms[n].time
  {
    if ms == [] || time <= ms[0].time then 0 else
      var n := 1 + ReadyCount(ms[1..], time);
      assert forall i | 0 < i < n :: ms[i] == ms[1..][..n - 1][i - 1];
      n
  }

  /** The messages of exactly this time, in queue order. */
  function AtTime(ms: seq<Message>, time: nat): seq<Message> {
    if ms == [] then []
    else (if ms[0].time == time then [ms[0]] else []) + AtTime(ms[1..], time)
  }

  // ---- The sort is a stable sort ----

  lemma {:induction false} InsertPermutes(m: Message, sorted: seq<Message>)
    ensures multiset(Insert(m, sorted)) == multiset{m} + multiset(sorted)
  {
    if !(sorted == [] || m.time <= sorted[0].time) {
      InsertPermutes(m, sorted[1..]);
      assert sorted == [sorted[0]] + sorted[1..];
    }
  }

  lemma {:induction false} SortPermutes(ms: seq<Message>)
    ensures multiset(SortByTime(ms)) == multiset(ms)
    ensures |SortByTime(ms)| == |ms|
  {
    if ms != [] {
      SortPermutes(ms[1..]);
      InsertPermutes(ms[0], SortByTime(ms[1..]));
      assert ms == [ms[0]] + ms[1..];
    }
    assert |multiset(SortByTime(ms))| == |multiset(ms)|;
  }

  lemma {:induction false} InsertSorted(m: Message, sorted: seq<Message>)
    requires Sorted(sorted)
    ensures Sorted(Insert(m, sorted))
  {
    if !(sorted == [] || m.time <= sorted[0].time) {
      InsertSorted(m, sorted[1..]);
      InsertPermutes(m, sorted[1..]);
      var rest := Insert(m, sorted[1..]);
      forall i | 0 <= i < |rest| ensures sorted[0].time <= rest[i].time {
        assert rest[i] in multiset(rest);
        assert rest[i] == m || rest[i] in sorted[1..];
      }
    }
  }

  lemma {:induction false} SortSorts(ms: seq<Message>)
    ensures Sorted(SortByTime(ms))
  {
    if ms != [] {
      SortSorts(ms[1..]);
      InsertSorted(ms[0], SortByTime(ms[1..]));
    }
  }

  lemma {:induction false} InsertStable(m: Message, sorted: seq<Message>, time: nat)
    ensures AtTime(Insert(m, sorted), time) == (if m.time == time then [m] else []) + AtTime(sorted, time)
  {
    if sorted == [] || m.time <= sorted[0].time {
      assert Insert(m, sorted)[1..] == sorted;
    } else {
      InsertStable(m, sorted[1..], time);
      assert Insert(m, sorted)[1..] == Insert(m, sorted[1..]);
      if m.time == time {
        // Everything passed over is earlier than `m`.
        assert sorted[0].time != time;
      }
    }
  }

  /** Messages of one time keep the order they were queued in. */
  lemma {:induction false} SortIsStable(ms: seq<Message>, time: nat)
    ensures AtTime(SortByTime(ms), time) == AtTime(ms, time)
  {
    if ms != [] {
      SortIsStable(ms[1..], time);
      InsertStable(ms[0], SortByTime(ms[1..]), time);
    }
  }

  // ---- Using it ----

  lemma SortedConcat(a: seq<Message>, b: seq<Message>)
    requires Sorted(a) && Sorted(b)
    requires forall i, j | 0 <= i < |a| && 0 <= j < |b| :: a[i].time <= b[j].time
    ensures Sorted(a + b)
  {
  }

  /** The messages of a set of times are the only order a strict clock allows. */
  lemma {:induction false} StrictOrderIsUnique(a: seq<Message>, b: seq<Message>)
    requires Sorted(a) && StrictlySorted(b)
    requires multiset(a) == multiset(b)
    ensures a == b
  {
    if a == [] {
      assert multiset(b) == multiset{};
    } else {
      SameFirst(a, b);
      SameRest(a, b);
      StrictOrderIsUnique(a[1..], b[1..]);
      assert a == [a[0]] + a[1..] && b == [b[0]] + b[1..];
    }
  }

  lemma SameFirst(a: seq<Message>, b: seq<Message>)
    requires a != [] && Sorted(a) && StrictlySorted(b) && multiset(a) == multiset(b)
    ensures b != [] && a[0] == b[0]
  {
    assert a[0] in multiset(b);
    var i :| 0 <= i < |b| && b[i] == a[0];
    assert b[0] in multiset(a);
    var j :| 0 <= j < |a| && a[j] == b[0];
  }

  lemma SameRest(a: seq<Message>, b: seq<Message>)
    requires a != [] && b != [] && a[0] == b[0] && multiset(a) == multiset(b)
    ensures multiset(a[1..]) == multiset(b[1..])
  {
    assert a == [a[0]] + a[1..] && b == [b[0]] + b[1..];
    assert multiset(a[1..]) == multiset(a) - multiset{a[0]};
    assert multiset(b[1..]) == multiset(b) - multiset{b[0]};
  }
}
