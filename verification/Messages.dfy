/** The messages that pass from the collector to the tracker. */
module Messages {
  import opened Basics

  type Pid = int

  datatype Event =
    | Fork(child: Pid)
    | Exec(argv: seq<Text>, cwd: Text, executable: Text)
    | Exit(stat: int)
    | Open(path: Text, flags: nat, fd: int, unresolved: bool)
    | Rename(from: Text, to: Text)

  datatype Message = Message(time: nat, pid: Pid, ppid: Pid, event: Event)

  /** A message without what a command line read may change: arguments, program and directory. */
  function Erased(m: Message): Message {
    match m.event
    case Exec(_, _, _) => m.(event := Exec([], [], []))
    case _ => m
  }

  function ErasedAll(ms: seq<Message>): (es: seq<Message>)
    ensures |es| == |ms|
    ensures forall i | 0 <= i < |ms| :: es[i] == Erased(ms[i])
  {
    if ms == [] then [] else [Erased(ms[0])] + ErasedAll(ms[1..])
  }

  lemma {:induction false} ErasedConcat(a: seq<Message>, b: seq<Message>)
    ensures ErasedAll(a + b) == ErasedAll(a) + ErasedAll(b)
  {
  }

  const EXEC_ERASED := Exec([], [], [])

  /** The Linux flags of an open, from Darwin's. */
  function LinuxOpenFlags(flags: Word): (linux: nat)
    ensures linux < TWO_TO_64
  {
    flags % 4
    + (if HasFlag(flags, 0x8) then 0x400 else 0)
    + (if HasFlag(flags, 0x200) then 0x40 else 0)
    + (if HasFlag(flags, 0x400) then 0x200 else 0)
    + (if HasFlag(flags, 0x800) then 0x80 else 0)
    + (if HasFlag(flags, 0x10_0000) then 0x1_0000 else 0)
  }

  function Bit(word: Word, bit: nat): nat
    requires bit > 0
  {
    if HasFlag(word, bit) then bit else 0
  }

  /** Append, create, truncate, exclusive and directory each keep their meaning, as the access mode does. */
  lemma FlagsKeepTheirMeaning(flags: Word)
    ensures var linux := LinuxOpenFlags(flags);
            && linux % 4 == flags % 4
            && (HasFlag(linux, 0x400) <==> HasFlag(flags, 0x8))
            && (HasFlag(linux, 0x40) <==> HasFlag(flags, 0x200))
            && (HasFlag(linux, 0x200) <==> HasFlag(flags, 0x400))
            && (HasFlag(linux, 0x80) <==> HasFlag(flags, 0x800))
            && (HasFlag(linux, 0x1_0000) <==> HasFlag(flags, 0x10_0000))
            && linux == linux % 4 + Bit(linux, 0x400) + Bit(linux, 0x40) + Bit(linux, 0x200) + Bit(linux, 0x80)
                        + Bit(linux, 0x1_0000)
  {
    var append, create := HasFlag(flags, 0x8), HasFlag(flags, 0x200);
    var truncate, exclusive := HasFlag(flags, 0x400), HasFlag(flags, 0x800);
    var directory := HasFlag(flags, 0x10_0000);
    ModeBits(flags % 4, append, create, truncate, exclusive, directory);
    LowBits(flags % 4, append, create, truncate, exclusive, directory);
    HighBits(flags % 4, append, create, truncate, exclusive, directory);
  }

  function Bits(mode: nat, append: bool, create: bool, truncate: bool, exclusive: bool, directory: bool): nat {
    mode + (if append then 0x400 else 0) + (if create then 0x40 else 0) + (if truncate then 0x200 else 0)
    + (if exclusive then 0x80 else 0) + (if directory then 0x1_0000 else 0)
  }

  lemma LowBits(mode: nat, append: bool, create: bool, truncate: bool, exclusive: bool, directory: bool)
    requires mode < 4
    ensures var bits := Bits(mode, append, create, truncate, exclusive, directory);
            (bits / 0x40 % 2 == 1 <==> create) && (bits / 0x80 % 2 == 1 <==> exclusive)
  {
  }

  lemma ModeBits(mode: nat, append: bool, create: bool, truncate: bool, exclusive: bool, directory: bool)
    requires mode < 4
    ensures Bits(mode, append, create, truncate, exclusive, directory) % 4 == mode
  {
    var rest := (if append then 0x100 else 0) + (if create then 0x10 else 0) + (if truncate then 0x80 else 0)
                + (if exclusive then 0x20 else 0) + (if directory then 0x4000 else 0);
    assert Bits(mode, append, create, truncate, exclusive, directory) == mode + 4 * rest;
  }

  lemma HighBits(mode: nat, append: bool, create: bool, truncate: bool, exclusive: bool, directory: bool)
    requires mode < 4
    ensures var bits := Bits(mode, append, create, truncate, exclusive, directory);
            && (bits / 0x200 % 2 == 1 <==> truncate) && (bits / 0x400 % 2 == 1 <==> append)
            && (bits / 0x1_0000 % 2 == 1 <==> directory)
  {
  }
}
