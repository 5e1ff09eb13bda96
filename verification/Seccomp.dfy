/**
 The seccomp filter: a list of system calls compiled to a classic BPF program, and the machine that
 runs it, as the kernel runs filters. The program has the kernel stop the tracee at just those calls.
 */
module Seccomp {
  import opened Basics

  const RET_TRACE: nat := 0x7ff0_0000
  const RET_ALLOW: nat := 0x7fff_0000
  const BPF_LD_W_ABS: nat := 0x20
  const BPF_JMP_JEQ_K: nat := 0x15
  const BPF_RET_K: nat := 0x06

  type Word32 = w: int | 0 <= w < 0x1_0000_0000

  datatype SockFilter = SockFilter(code: nat, jt: nat, jf: nat, k: Word32)

  function Statement(code: nat, k: Word32): SockFilter {
    SockFilter(code, 0, 0, k)
  }

  function Jump(code: nat, k: Word32, jt: nat, jf: nat): SockFilter {
    SockFilter(code, jt, jf, k)
  }

  // ---- The program ----

  /** The `as u32` cast of a system call's number. */
  function AsU32(n: int): Word32 {
    n % 0x1_0000_0000
  }

  /** A test for each call in turn, each followed by what to do if it is that one. */
  function Tests(syscalls: seq<int>): (program: seq<SockFilter>)
    ensures |program| == 2 * |syscalls|
  {
    if syscalls == [] then [] else
      var last := syscalls[|syscalls| - 1];
      Tests(syscalls[..|syscalls| - 1]) + [Jump(BPF_JMP_JEQ_K, AsU32(last), 0, 1), Statement(BPF_RET_K, RET_TRACE)]
  }

  function Program(syscalls: seq<int>): (program: seq<SockFilter>)
    ensures |program| == 2 * |syscalls| + 2
  {
    [Statement(BPF_LD_W_ABS, 0)] + Tests(syscalls) + [Statement(BPF_RET_K, RET_ALLOW)]
  }

  /** Builds the program, and its length in the 16 bits the kernel is passed it in. */
  method BuildFilter(syscalls: seq<int>) returns (instructions: seq<SockFilter>, len: nat)
    ensures instructions == Program(syscalls)
    ensures len == |instructions| % 0x1_0000
  {
    instructions := [Statement(BPF_LD_W_ABS, 0)];
    for i := 0 to |syscalls|
      invariant instructions == [Statement(BPF_LD_W_ABS, 0)] + Tests(syscalls[..i])
    {
      assert syscalls[..i + 1][..i] == syscalls[..i];
      instructions := instructions + [Jump(BPF_JMP_JEQ_K, AsU32(syscalls[i]), 0, 1)];
      instructions := instructions + [Statement(BPF_RET_K, RET_TRACE)];
    }
    assert syscalls[..|syscalls|] == syscalls;
    instructions := instructions + [Statement(BPF_RET_K, RET_ALLOW)];
    len := |instructions| % 0x1_0000;
  }

  // ---- The machine ----

  datatype Outcome =
    | Returned(value: Word32)
    /** It left the program. */
    | Outside
    /** It met an instruction no filter may have. */
    | Illegal
    /** It is still running after the steps it was given. */
    | Running

  /** What a filter reads: the number of the system call, at the start of its data. */
  datatype Machine = Machine(pc: nat, accumulator: Word32)

  function Execute(program: seq<SockFilter>, nr: Word32, m: Machine, steps: nat): Outcome
    decreases steps
  {
    if m.pc >= |program| then Outside
    else if steps == 0 then Running
    else
      var i := program[m.pc];
      if i.code == BPF_LD_W_ABS && i.k == 0 then Execute(program, nr, Machine(m.pc + 1, nr), steps - 1)
      else if i.code == BPF_JMP_JEQ_K then
        Execute(program, nr, Machine(m.pc + 1 + if m.accumulator == i.k then i.jt else i.jf, m.accumulator), steps - 1)
      else if i.code == BPF_RET_K then Returned(i.k)
      else Illegal
  }

  function Filter(program: seq<SockFilter>, nr: Word32, steps: nat): Outcome {
    Execute(program, nr, Machine(0, 0), steps)
  }

  // ---- What it does ----

  predicate IsTraced(syscalls: seq<int>, nr: Word32) {
    exists i :: 0 <= i < |syscalls| && AsU32(syscalls[i]) == nr
  }

  lemma {:induction false} TestsAt(syscalls: seq<int>, i: nat)
    requires i < |syscalls|
    ensures Tests(syscalls)[2 * i] == Jump(BPF_JMP_JEQ_K, AsU32(syscalls[i]), 0, 1)
    ensures Tests(syscalls)[2 * i + 1] == Statement(BPF_RET_K, RET_TRACE)
  {
    var n := |syscalls| - 1;
    if i < n {
      TestsAt(syscalls[..n], i);
    }
  }

  /** From the test of call `i`, the program returns within one step a test left, and one more. */
  lemma {:induction false} FromTest(syscalls: seq<int>, nr: Word32, i: nat, steps: nat)
    requires i <= |syscalls| && steps >= |syscalls| - i + 1
    ensures Execute(Program(syscalls), nr, Machine(2 * i + 1, nr), steps)
         == Returned(if IsTraced(syscalls[i..], nr) then RET_TRACE else RET_ALLOW)
    decreases |syscalls| - i
  {
    var rest := syscalls[i..];
    if i < |syscalls| {
      TestsAt(syscalls, i);
      FromTest(syscalls, nr, i + 1, steps - 1);
      var later := syscalls[i + 1..];
      assert rest[0] == syscalls[i];
      assert forall j | 0 <= j < |later| :: later[j] == rest[j + 1];
      assert forall j | 1 <= j < |rest| :: rest[j] == later[j - 1];
      assert Program(syscalls)[2 * i + 1] == Tests(syscalls)[2 * i];
      assert Program(syscalls)[2 * i + 2] == Tests(syscalls)[2 * i + 1];
    }
  }

  /**
   The program stops the tracee at just the calls of the list. It halts within two instructions more
   than it has calls, and never leaves the program.
   */
  lemma FilterTracesJustTheList(syscalls: seq<int>, nr: Word32, steps: nat)
    requires steps >= |syscalls| + 2
    ensures Filter(Program(syscalls), nr, steps)
         == Returned(if IsTraced(syscalls, nr) then RET_TRACE else RET_ALLOW)
  {
    FromTest(syscalls, nr, 0, steps - 1);
    assert syscalls[0..] == syscalls;
  }

  // ---- The length the kernel is told ----

  /** The program the kernel sees: as much of it as a 16-bit length counts. */
  function Seen(syscalls: seq<int>): seq<SockFilter> {
    Program(syscalls)[..|Program(syscalls)| % 0x1_0000]
  }

  ghost predicate Works(syscalls: seq<int>) {
    forall nr: Word32 :: Filter(Seen(syscalls), nr, |syscalls| + 2)
                         == Returned(if IsTraced(syscalls, nr) then RET_TRACE else RET_ALLOW)
  }

  /** A call none of the tests before `end` is for runs the machine past them all. */
  lemma {:induction false} PastTests(syscalls: seq<int>, nr: Word32, i: nat, end: nat, steps: nat)
    requires i <= end < |syscalls| && !IsTraced(syscalls[..end + 1], nr) && steps > end - i + 1
    ensures Execute(Program(syscalls)[..2 * end + 2], nr, Machine(2 * i + 1, nr), steps) == Outside
    decreases end - i
  {
    TestsAt(syscalls, i);
    assert Program(syscalls)[2 * i + 1] == Tests(syscalls)[2 * i];
    assert syscalls[..end + 1][i] == syscalls[i];
    if i < end {
      PastTests(syscalls, nr, i + 1, end, steps - 1);
    }
  }

  function Numbers(syscalls: seq<int>): (numbers: set<Word32>)
    ensures |numbers| <= |syscalls|
    ensures forall i | 0 <= i < |syscalls| :: AsU32(syscalls[i]) in numbers
  {
    if syscalls == [] then {} else Numbers(syscalls[..|syscalls| - 1]) + {AsU32(syscalls[|syscalls| - 1])}
  }

  function Below(n: nat): (numbers: set<Word32>)
    requires n <= 0x1_0000_0000
    ensures |numbers| == n && forall k: Word32 :: k in numbers <==> k < n
  {
    if n == 0 then {} else Below(n - 1) + {n - 1}
  }

  lemma SomeNumberIsNot(syscalls: seq<int>) returns (nr: Word32)
    requires |syscalls| < 0x1_0000
    ensures !IsTraced(syscalls, nr)
  {
    var some := Below(0x1_0000);
    var used := Numbers(syscalls);
    if some <= used {
      NoMore(some, used);
    }
    nr :| nr in some && nr !in used;
  }

  lemma {:induction false} NoMore(a: set<Word32>, b: set<Word32>)
    requires a <= b
    ensures |a| <= |b|
  {
    assert b == a + (b - a);
  }

  /** The filter works just when its length fits the 16 bits it is passed in. */
  lemma WorksJustWhenItFits(syscalls: seq<int>)
    ensures Works(syscalls) <==> 2 * |syscalls| + 2 < 0x1_0000
  {
    if 2 * |syscalls| + 2 < 0x1_0000 {
      assert Seen(syscalls) == Program(syscalls);
      forall nr: Word32 ensures Filter(Seen(syscalls), nr, |syscalls| + 2)
                             == Returned(if IsTraced(syscalls, nr) then RET_TRACE else RET_ALLOW) {
        FilterTracesJustTheList(syscalls, nr, |syscalls| + 2);
      }
    } else {
      var nr := CutShort(syscalls);
      assert Filter(Seen(syscalls), nr, |syscalls| + 2) != Returned(if IsTraced(syscalls,
                                                                                nr) then RET_TRACE else RET_ALLOW);
    }
  }

  lemma CutShort(syscalls: seq<int>) returns (nr: Word32)
    requires 2 * |syscalls| + 2 >= 0x1_0000
    ensures Filter(Seen(syscalls), nr, |syscalls| + 2) == Outside
  {
    var half := (|syscalls| + 1) % 0x8000;
    assert (2 * |syscalls| + 2) % 0x1_0000 == 2 * half;
    if half == 0 {
      nr := 0;
    } else {
      nr := SomeNumberIsNot(syscalls[..half]);
      PastTests(syscalls, nr, 0, half - 1, |syscalls| + 1);
    }
  }

  // ---- Which calls ----

  /** The system calls of an architecture. The older two are absent from some. */
  datatype Arch = Arch(openat: int, openat2: int, renameat: int, renameat2: int, open: Option<int>, rename: Option<int>)

  function TracedSyscalls(arch: Arch): seq<int> {
    [arch.openat, arch.openat2, arch.renameat, arch.renameat2]
    + (if arch.open.Some? then [arch.open.value] else []) + (if arch.rename.Some? then [arch.rename.value] else [])
  }

  predicate IsBareOpen(arch: Arch, nr: int) {
    arch.open == Some(nr)
  }

  predicate IsRename(arch: Arch, nr: int) {
    arch.rename == Some(nr) || nr == arch.renameat || nr == arch.renameat2
  }

  predicate IsBareRename(arch: Arch, nr: int) {
    arch.rename == Some(nr)
  }

  /** What is traced is what the tracer tells apart: renames, and opens with a directory or without. */
  lemma TracedIsOpenOrRename(arch: Arch, nr: int)
    ensures nr in TracedSyscalls(arch)
       <==> IsRename(arch, nr) || IsBareOpen(arch, nr) || nr == arch.openat || nr == arch.openat2
  {
  }
}
