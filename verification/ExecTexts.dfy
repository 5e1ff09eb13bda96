/**
 What a program is reported as, and when: told from the kernel's records and the answers to reading its
 process. A program is read when it starts, and again at every tick until an answer decides what it is.
 */
module ExecTexts {
  import opened Basics
  import opened Messages
  import opened Fragments
  import opened CollectorModel
  import opened KernelFiles

  // ---- Programs and their names ----

  datatype Program = Program(pid: Pid, time: nat, image: Word)

  /** The program that this input starts, if it does: in a followed process, by the kernel's record. */
  function ProgramAt(s: State, inputs: seq<Input>, k: nat): Option<Program>
    requires k < |inputs|
  {
    match inputs[k]
    case Seen(r, _) =>
      var speaker := Speaker(s, inputs[..k], r.thread);
      if r.Code() == DATA_EXEC && speaker.Some? then Some(Program(speaker.value, r.timestamp, r.args[2])) else None
    case Ticked(_) => None
  }

  predicate IsProgram(s: State, inputs: seq<Input>, k: nat) {
    k < |inputs| && ProgramAt(s, inputs, k).Some?
  }

  /** Whether the input starts a program in this process. */
  predicate StartsIn(s: State, inputs: seq<Input>, k: nat, pid: Pid) {
    IsProgram(s, inputs, k) && ProgramAt(s, inputs, k).value.pid == pid
  }

  /** What the kernel last named the running program of a process, since this input. */
  function NameSince(s: State, inputs: seq<Input>, k: nat, pid: Pid): Option<Text> {
    if |inputs| <= k + 1 then None else
      var before := inputs[..|inputs| - 1];
      match inputs[|inputs| - 1]
      case Seen(r, _) =>
        if r.Code() == STRING_EXEC && Speaker(s, before, r.thread) == Some(pid) then Some(Decoded(r.args))
        else NameSince(s, before, k, pid)
      case Ticked(_) => NameSince(s, before, k, pid)
  }

  /** What the kernel last named any program of a process. */
  function LastNamed(s: State, inputs: seq<Input>, pid: Pid): Option<Text> {
    if inputs == [] then Get(s.names, pid) else
      var before := inputs[..|inputs| - 1];
      match inputs[|inputs| - 1]
      case Seen(r, _) =>
        if r.Code() == STRING_EXEC && Speaker(s, before, r.thread) == Some(pid) then Some(Decoded(r.args))
        else LastNamed(s, before, pid)
      case Ticked(_) => LastNamed(s, before, pid)
  }

  /** A program's name. One that was not named has what is left of an earlier one's, which an exit clears. */
  function NameAt(s: State, inputs: seq<Input>, k: nat, pid: Pid): Text {
    var name := NameSince(s, inputs, k, pid);
    if name.Some? then name.value else NameOf(Run(s, inputs).state, pid)
  }

  /** The latest time of the records. */
  function LatestOf(s: State, inputs: seq<Input>): nat {
    if inputs == [] then s.latest else
      var before := LatestOf(s, inputs[..|inputs| - 1]);
      match inputs[|inputs| - 1]
      case Seen(r, _) => Max(before, r.timestamp)
      case Ticked(_) => before
  }

  // ---- The answers to reading a program ----

  /** The answers to reading a process from this input on: at the input, and at each tick since. */
  function Answers(inputs: seq<Input>, k: nat, pid: Pid): seq<Answer>
    requires k < |inputs|
  {
    var n := |inputs| - 1;
    if n == k then [inputs[n].env.inspect(pid)]
    else Answers(inputs[..n], k, pid) + if inputs[n].Ticked? then [inputs[n].env.inspect(pid)] else []
  }

  /** The first that is more than that the process cannot be read yet. */
  function Deciding(answers: seq<Answer>): Option<Answer> {
    if answers == [] then None else
      var before := Deciding(answers[..|answers| - 1]);
      if before.Some? then before
      else if answers[|answers| - 1].NotReadable? then None
      else Some(answers[|answers| - 1])
  }

  function Decided(inputs: seq<Input>, k: nat, pid: Pid): Option<Answer>
    requires k < |inputs|
  {
    Deciding(Answers(inputs, k, pid))
  }

  /** The answer is of this program: the process had started by then, and runs its image. */
  predicate IsOf(answer: Answer, p: Program) {
    && answer.Answered? && answer.inspection.started <= p.time
    && (p.image == 0 || answer.inspection.image == p.image)
  }

  /** The answer is of another program that the same process has started since. */
  predicate IsOfNext(answer: Answer, p: Program) {
    answer.Answered? && answer.inspection.started <= p.time && p.image != 0 && answer.inspection.image != p.image
  }

  const DASH: Byte := 45
  const LONG_NAME: nat := 15

  /** The final name of the first argument. */
  function CalledAs(argv: seq<Text>): Text {
    if argv == [] then [] else FinalName(argv[0])
  }

  /** The same without the dashes it begins with. */
  predicate IsFirstWord(argv: seq<Text>, word: Text) {
    var last := CalledAs(argv);
    && |word| <= |last| && last[|last| - |word|..] == word
    && (forall i | 0 <= i < |last| - |word| :: last[i] == DASH)
    && (word != [] ==> word[0] != DASH)
  }

  /** The arguments begin with this name, which the kernel cuts when it is long. */
  ghost predicate BeginsWith(argv: seq<Text>, name: Text) {
    && name != []
    && exists word :: IsFirstWord(argv, word) && (word == name || (|name| >= LONG_NAME && name <= word))
  }

  // ---- What is said of a program ----

  datatype Said = Said(executable: Text, argv: seq<Text>)

  /** What is said of a program by the answer that decided, if one did, and by its name. */
  ghost function SaidOf(p: Program, decided: Option<Answer>, name: Text): Said {
    if decided.Some? && IsOf(decided.value, p) then
      Said(decided.value.inspection.executable, decided.value.inspection.argv)
    else if decided.Some? && IsOfNext(decided.value, p) && BeginsWith(decided.value.inspection.argv, name) then
      Said(decided.value.inspection.executable, decided.value.inspection.argv)
    else Said(name, [name])
  }

  predicate RootHasRun(s: State, inputs: seq<Input>) {
    exists k | 0 <= k < |inputs| :: StartsIn(s, inputs, k, s.root)
  }

  /** The root's first program is the command that was given. */
  predicate IsGiven(s: State, inputs: seq<Input>, k: nat) {
    StartsIn(s, inputs, k, s.root) && s.rootCommand.Some? && !RootHasRun(s, inputs[..k])
  }

  /** The directory a process is in, if the collector follows it and knows. */
  function HomeOf(s: State, inputs: seq<Input>, pid: Pid): Text {
    if Follows(s, inputs, pid) && DirectoryOf(s, inputs, pid).Some? then DirectoryOf(s, inputs, pid).value else []
  }

  /** What the last input tells of a program, if it does. */
  ghost function ReportOf(s: State, inputs: seq<Input>, k: nat): Message
    requires IsProgram(s, inputs, k)
  {
    var before := inputs[..|inputs| - 1];
    var p := ProgramAt(s, inputs, k).value;
    var said :=
      if IsGiven(s, inputs, k) then
        Said(if s.rootCommand.value == [] then [] else s.rootCommand.value[0], s.rootCommand.value)
      else SaidOf(p, Decided(inputs, k, p.pid), NameAt(s, before, k, p.pid));
    Message(p.time, p.pid, 0, Exec(said.argv, HomeOf(s, before, p.pid), said.executable))
  }

  /**
   A program goes on unread: until an answer is of it; while its process starts no other; and, at a tick,
   while the window lasts and either nothing is decided or the kernel has not named it.
   */
  predicate IsUnread(s: State, inputs: seq<Input>, k: nat) {
    && IsProgram(s, inputs, k)
    && var n := |inputs| - 1;
       var p := ProgramAt(s, inputs, k).value;
       var decided := Decided(inputs, k, p.pid);
       && !(decided.Some? && IsOf(decided.value, p))
       && if n == k then !IsGiven(s, inputs, k) else
            && IsUnread(s, inputs[..n], k)
            && match inputs[n]
               case Seen(_, _) => !StartsIn(s, inputs, n, p.pid)
               case Ticked(_) =>
                 && LatestOf(s, inputs) < p.time + s.window
                 && (decided.None? || NameSince(s, inputs, k, p.pid).None?)
  }

  /** The last input tells of the program. */
  predicate TellsOf(s: State, inputs: seq<Input>, k: nat) {
    && IsProgram(s, inputs, k) && !IsUnread(s, inputs, k)
    && (k == |inputs| - 1 || IsUnread(s, inputs[..|inputs| - 1], k))
  }

  /** What the last input tells of the first so many inputs' programs, in their order. */
  ghost function NewlyReported(s: State, inputs: seq<Input>, k: nat): seq<Message> {
    if k == 0 then [] else
      NewlyReported(s, inputs, k - 1) + if TellsOf(s, inputs, k - 1) then [ReportOf(s, inputs, k - 1)] else []
  }

  /** Everything told of programs over a run. */
  ghost function AllReported(s: State, inputs: seq<Input>): seq<Message> {
    if inputs == [] then [] else
      AllReported(s, inputs[..|inputs| - 1]) + NewlyReported(s, inputs, |inputs|)
  }

  /** What the flush tells of those still unread, each read once more. */
  ghost function LastReported(s: State, inputs: seq<Input>, last: Env, k: nat): seq<Message>
    requires k <= |inputs|
  {
    if k == 0 then [] else
      LastReported(s, inputs, last, k - 1)
      + if IsUnread(s, inputs, k - 1) then [LastReportOf(s, inputs, last, k - 1)] else []
  }

  /** The flush is a last tick. */
  ghost function LastReportOf(s: State, inputs: seq<Input>, last: Env, k: nat): Message
    requires IsProgram(s, inputs, k)
  {
    assert (inputs + [Ticked(last)])[..k] == inputs[..k];
    ReportOf(s, inputs + [Ticked(last)], k)
  }

  /** What the run tells of a program, once it does. */
  ghost function ReportBy(s: State, inputs: seq<Input>, k: nat): Option<Message> {
    if |inputs| <= k then None else
      var before := ReportBy(s, inputs[..|inputs| - 1], k);
      if before.Some? then before else if TellsOf(s, inputs, k) then Some(ReportOf(s, inputs, k)) else None
  }

  /** What a recording tells of a program. */
  ghost function Recorded(s: State, inputs: seq<Input>, last: Env, k: nat): Message
    requires IsProgram(s, inputs, k)
  {
    var told := ReportBy(s, inputs, k);
    if told.Some? then told.value else LastReportOf(s, inputs, last, k)
  }
}
