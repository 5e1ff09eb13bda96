/**
 What the tracker's messages say happened, whatever it writes: who was born to whom, when each
 process started programs, and when it ended. Segments and build parents are defined from this.
 */
module Lives {
  import opened Basics
  import opened Messages
  import opened TrackerModel

  /** What a segment says of its program: its name and command line, where it runs, and for whom. */
  datatype Caption = Caption(name: Text, command: Text, cwd: Text, compilerWrapper: bool)

  /** A stretch of a life that runs one program. */
  datatype Stretch = Stretch(time: nat, caption: Caption)

  /**
   One process from its fork to its exit, with what was said of it then and of each program it ran; a pid
   may live more than once. `birth` tells lives apart.
   */
  datatype Life = Life(pid: Pid, parent: Pid, start: nat, birth: nat, forked: Caption, execs: seq<Stretch>)

  /** What is said of a life now: the program it runs, or what it was forked as. */
  function CaptionOf(life: Life): Caption {
    if life.execs == [] then life.forked else life.execs[|life.execs| - 1].caption
  }

  datatype Ending = Ending(life: Life, end: nat, stat: int)

  /** A birth, the parent's own birth if it is known, and whether the parent had run a program by then. */
  datatype Birth = Birth(pid: Pid, parent: Pid, parentBirth: Option<nat>, parentRan: bool)

  datatype History = History(alive: map<Pid, Life>, births: seq<Birth>, ended: seq<Ending>)

  function Beginning(root: Pid, origin: nat, caption: Caption): History {
    History(map[root := Life(root, 0, origin, 0, caption, [])], [Birth(root, 0, None, false)], [])
  }

  /** A process is forked as what its parent then is, marked as a fork, and stands in for no compiler. */
  function ForkOf(parent: Caption): Caption {
    Caption(FORK_PREFIX + parent.name, parent.command, parent.cwd, false)
  }

  const ORPHAN := Caption(FORK_NAME, [], [], false)

  function Born(h: History, pid: Pid, parent: Pid, time: nat): History {
    BornAs(h, pid, parent, time, if parent in h.alive then ForkOf(CaptionOf(h.alive[parent])) else ORPHAN)
  }

  function BornAs(h: History, pid: Pid, parent: Pid, time: nat, caption: Caption): History {
    var birth := if parent in h.alive
                 then Birth(pid, parent, Some(h.alive[parent].birth), h.alive[parent].execs != [])
                 else Birth(pid, parent, None, false);
    h.(alive := h.alive[pid := Life(pid, parent, time, |h.births|, caption, [])],
        births := h.births + [birth])
  }

  function Ran(h: History, pid: Pid, time: nat, caption: Caption): History
    requires pid in h.alive
  {
    var life := h.alive[pid];
    h.(alive := h.alive[pid := life.(execs := life.execs + [Stretch(time, caption)])])
  }

  /** What an exec message says of its program: its arguments, or its executable if there are none. */
  function Captioned(pid: Pid, argv: seq<Text>, cwd: Text, executable: Text, titles: Titles): Caption {
    var words := if argv == [] then [executable] else argv;
    var title := titles(pid, words, executable);
    Caption(title.name, Spaced(words), cwd, title.compilerWrapper)
  }

  /** Words with a space between each two. */
  function Spaced(words: seq<Text>): Text {
    if words == [] then [] else
      var n := |words| - 1;
      if n == 0 then words[0] else Spaced(words[..n]) + [SPACE] + words[n]
  }

  const SPACE: Byte := 32

  function Died(h: History, pid: Pid, time: nat, stat: int): History
    requires pid in h.alive
  {
    h.(alive := h.alive - {pid}, ended := h.ended + [Ending(h.alive[pid], time, stat)])
  }

  /** A process that is first heard of as it runs a program was born to a parent that is known. */
  function Heard(h: History, m: Message): History {
    if m.event.Exec? && m.pid !in h.alive && m.ppid in h.alive then Born(h, m.pid, m.ppid, m.time) else h
  }

  function After(h: History, m: Message, titles: Titles): History {
    match m.event
    case Fork(child) => if m.pid in h.alive && child !in h.alive then Born(h, child, m.pid, m.time) else h
    case Exec(argv, cwd, executable) =>
      if m.pid in Heard(h, m).alive
      then Ran(Heard(h, m), m.pid, m.time, Captioned(m.pid, argv, cwd, executable, titles)) else h
    case Exit(stat) => if m.pid in h.alive then Died(h, m.pid, m.time, stat) else h
    case _ => h
  }

  function AfterAll(h: History, ms: seq<Message>, titles: Titles): History {
    if ms == [] then h else After(AfterAll(h, ms[..|ms| - 1], titles), ms[|ms| - 1], titles)
  }

  // ---- Births ----

  /** Parents are born before their children, and every life has a birth of its own. */
  ghost predicate Genealogy(h: History) {
    && (forall i | 0 <= i < |h.births| :: h.births[i].parentBirth.Some? ==> h.births[i].parentBirth.value < i)
    && (forall p | p in h.alive :: IsLifeOf(h.births, h.alive[p]) && h.alive[p].pid == p)
    && (forall i | 0 <= i < |h.ended| :: IsLifeOf(h.births, h.ended[i].life))
  }

  predicate IsLifeOf(births: seq<Birth>, life: Life) {
    life.birth < |births| && births[life.birth].pid == life.pid && births[life.birth].parent == life.parent
  }

  lemma AfterGenealogy(h: History, m: Message, titles: Titles)
    requires Genealogy(h)
    ensures Genealogy(After(h, m, titles))
    ensures h.births <= After(h, m, titles).births
  {
  }

  lemma {:induction false} AfterAllGenealogy(h: History, ms: seq<Message>, titles: Titles)
    requires Genealogy(h)
    ensures Genealogy(AfterAll(h, ms, titles)) && h.births <= AfterAll(h, ms, titles).births
  {
    hide After, Genealogy;
    if ms != [] {
      AfterAllGenealogy(h, ms[..|ms| - 1], titles);
      AfterGenealogy(AfterAll(h, ms[..|ms| - 1], titles), ms[|ms| - 1], titles);
    }
  }

  /**
   The walk up the fork tree from birth `i`: past each ancestor that had run no program of its own
   when it forked the one below, to the first that had, or to one nothing is known of. (No parent is
   born after its child.)
   */
  function WalkUp(births: seq<Birth>, i: nat): Pid
    requires i < |births|
    decreases i
  {
    match births[i].parentBirth
    case None => births[i].parent
    case Some(above) =>
      if births[i].parentRan || above >= i then births[i].parent else WalkUp(births, above)
  }

  lemma {:induction false} WalkUpStays(births: seq<Birth>, more: seq<Birth>, i: nat)
    requires births <= more && i < |births|
    ensures WalkUp(more, i) == WalkUp(births, i)
    decreases i
  {
    match births[i].parentBirth {
      case None =>
      case Some(above) =>
        if above < i {
          WalkUpStays(births, more, above);
        }
    }
  }

  // ---- Segments ----

  /** What a written segment says of its process and program, its bounds and its end. */
  datatype Outline = Outline(process: Process, caption: Caption, start: nat, end: nat, exitCode: Option<nat>)

  /** The process of a life, as records describe it once it has run `execs` programs or none. */
  function ProcessOf(births: seq<Birth>, life: Life): Process
    requires life.birth < |births|
  {
    Process(life.pid, life.parent, WalkUp(births, life.birth), life.execs != [])
  }

  function TimesOf(runs: seq<Stretch>): (times: seq<nat>)
    ensures |times| == |runs| && forall i | 0 <= i < |runs| :: times[i] == runs[i].time
  {
    seq(|runs|, i requires 0 <= i < |runs| => runs[i].time)
  }

  /** When a life began a segment: at its fork, and as it ran each program but the first. */
  function Starts(life: Life): (starts: seq<nat>)
    ensures |starts| >= 1
  {
    [life.start] + if life.execs == [] then [] else TimesOf(life.execs[1..])
  }

  /** When the segment a life is in began. */
  function SegmentStart(clock: Clock, life: Life): nat
    requires clock.Valid()
  {
    clock.Ns(if |life.execs| <= 1 then life.start else life.execs[|life.execs| - 1].time)
  }

  /** The segments of a life that later programs ended. */
  function Replaced(clock: Clock, births: seq<Birth>, life: Life): seq<Outline>
    requires clock.Valid() && life.birth < |births|
    decreases |life.execs|
  {
    if |life.execs| <= 1 then [] else
      var earlier := life.(execs := life.execs[..|life.execs| - 1]);
      var start := SegmentStart(clock, earlier);
      Replaced(clock, births, earlier)
      + [Outline(ProcessOf(births, earlier), CaptionOf(earlier), start,
                 EndAt(start, clock.Ns(life.execs[|life.execs| - 1].time)), None)]
  }

  /** The segments of a whole life: one for each program it ran, or one if it ran none. */
  function Tiles(clock: Clock, births: seq<Birth>, e: Ending): seq<Outline>
    requires clock.Valid() && e.life.birth < |births|
  {
    var start := SegmentStart(clock, e.life);
    Replaced(clock, births, e.life)
    + [Outline(ProcessOf(births, e.life), CaptionOf(e.life), start, EndAt(start, clock.Ns(e.end)),
               Some(ExitCode(e.stat)))]
  }

  function AllTiles(clock: Clock, births: seq<Birth>, ended: seq<Ending>, pid: Pid): seq<Outline>
    requires clock.Valid() && forall i | 0 <= i < |ended| :: ended[i].life.birth < |births|
  {
    if ended == [] then [] else
      var n := |ended| - 1;
      AllTiles(clock, births, ended[..n], pid)
      + if ended[n].life.pid == pid then Tiles(clock, births, ended[n]) else []
  }

  /** Every segment of `pid` that has ended by now. */
  function SegmentsOf(clock: Clock, h: History, pid: Pid): seq<Outline>
    requires clock.Valid() && Genealogy(h)
  {
    AllTiles(clock, h.births, h.ended, pid)
    + if pid in h.alive then Replaced(clock, h.births, h.alive[pid]) else []
  }

  lemma {:induction false} ReplacedStays(clock: Clock, births: seq<Birth>, more: seq<Birth>, life: Life)
    requires clock.Valid() && births <= more && life.birth < |births|
    ensures Replaced(clock, more, life) == Replaced(clock, births, life)
    ensures ProcessOf(more, life) == ProcessOf(births, life)
    decreases |life.execs|
  {
    hide WalkUp;
    WalkUpStays(births, more, life.birth);
    if |life.execs| > 1 {
      ReplacedStays(clock, births, more, life.(execs := life.execs[..|life.execs| - 1]));
    }
  }

  lemma {:induction false} AllTilesStay(clock: Clock, births: seq<Birth>, more: seq<Birth>, ended: seq<Ending>,
                                        pid: Pid)
    requires clock.Valid() && births <= more
    requires forall i | 0 <= i < |ended| :: ended[i].life.birth < |births|
    ensures AllTiles(clock, more, ended, pid) == AllTiles(clock, births, ended, pid)
  {
    hide Replaced, ProcessOf;
    if ended != [] {
      var n := |ended| - 1;
      AllTilesStay(clock, births, more, ended[..n], pid);
      ReplacedStays(clock, births, more, ended[n].life);
    }
  }

  // ---- Tiling ----

  /** Where a life's segments start and end. */
  function Bounds(e: Ending): seq<nat> {
    Starts(e.life) + [e.end]
  }

  /** A later time is a later nanosecond: the clock counts at least one a tick, from the origin, without overflow. */
  predicate Resolves(clock: Clock, times: seq<nat>) {
    && clock.Valid() && clock.numer >= clock.denom
    && (forall i | 0 <= i < |times| ::
          clock.origin <= times[i] && (times[i] - clock.origin) * clock.numer / clock.denom <= MAX_NS)
    && (forall i, j | 0 <= i < j < |times| :: times[i] < times[j])
  }

  lemma LaterTick(ticks: nat, numer: nat, denom: nat)
    requires numer >= denom >= 1
    ensures (ticks + 1) * numer / denom >= ticks * numer / denom + 1
  {
    var q := ticks * numer / denom;
    assert (q + 1) * denom == q * denom + denom;
    assert (ticks + 1) * numer == ticks * numer + numer;
    assert (ticks + 1) * numer >= (q + 1) * denom;
    DivideBound((ticks + 1) * numer, q + 1, denom);
  }

  lemma DivideBound(a: nat, b: nat, d: nat)
    requires d >= 1 && a >= b * d
    ensures a / d >= b
  {
    var q := a / d;
    assert (q + 1) * d == q * d + d;
    Cancel(b, q + 1, d);
  }

  lemma Cancel(a: nat, b: nat, d: nat)
    requires a * d < b * d
    ensures a < b
  {
  }

  lemma MonotoneTicks(a: nat, b: nat, numer: nat, denom: nat)
    requires a <= b && denom >= 1
    ensures a * numer / denom <= b * numer / denom
  {
    assert a * numer <= b * numer;
    DivideBound(b * numer, a * numer / denom, denom);
  }

  lemma StrictNs(clock: Clock, a: nat, b: nat)
    requires clock.Valid() && clock.numer >= clock.denom && clock.origin <= a < b
    requires (a - clock.origin) * clock.numer / clock.denom <= MAX_NS
    requires (b - clock.origin) * clock.numer / clock.denom <= MAX_NS
    ensures clock.Ns(a) < clock.Ns(b)
  {
    var ticks := a - clock.origin;
    LaterTick(ticks, clock.numer, clock.denom);
    MonotoneTicks(ticks + 1, b - clock.origin, clock.numer, clock.denom);
  }

  /** Segments that follow one another without gap or overlap, from `start` to `end`. */
  predicate Contiguous(tiles: seq<Outline>, start: nat, end: nat) {
    && |tiles| >= 1 && tiles[0].start == start && tiles[|tiles| - 1].end == end
    && (forall i | 0 <= i < |tiles| :: tiles[i].start < tiles[i].end)
    && (forall i | 0 < i < |tiles| :: tiles[i - 1].end == tiles[i].start)
  }

  lemma {:induction false} ReplacedTile(clock: Clock, births: seq<Birth>, life: Life)
    requires clock.Valid() && life.birth < |births| && Resolves(clock, Starts(life))
    ensures |Replaced(clock, births, life)| == |Starts(life)| - 1
    ensures SegmentStart(clock, life) == clock.Ns(Starts(life)[|Starts(life)| - 1])
    ensures |life.execs| > 1 ==> Contiguous(Replaced(clock, births, life), clock.Ns(life.start),
                                            SegmentStart(clock, life))
    decreases |life.execs|
  {
    hide WalkUp;
    var n := |life.execs|;
    if n > 1 {
      var earlier := life.(execs := life.execs[..n - 1]);
      var starts := Starts(life);
      assert Starts(earlier) == starts[..n - 1];
      ReplacedTile(clock, births, earlier);
      StrictNs(clock, starts[n - 2], starts[n - 1]);
    }
  }

  /**
   The segments of a life number one for each program it ran, or one in all; they start at its fork
   and end at its exit, each exactly where the next begins.
   */
  lemma LifeIsTiled(clock: Clock, births: seq<Birth>, e: Ending)
    requires clock.Valid() && e.life.birth < |births| && Resolves(clock, Bounds(e))
    ensures |Tiles(clock, births, e)| == Max(1, |e.life.execs|)
    ensures Contiguous(Tiles(clock, births, e), clock.Ns(e.life.start), clock.Ns(e.end))
  {
    hide WalkUp, Replaced;
    var bounds, n := Bounds(e), |Starts(e.life)|;
    assert Starts(e.life) == bounds[..n];
    ReplacedTile(clock, births, e.life);
    StrictNs(clock, bounds[n - 1], bounds[n]);
  }

  // ---- Order ----

  predicate Increasing(times: seq<nat>) {
    forall i, j | 0 <= i < j < |times| :: times[i] < times[j]
  }

  predicate Ascending(ms: seq<Message>) {
    forall i, j | 0 <= i < j < |ms| :: ms[i].time < ms[j].time
  }

  predicate Within(times: seq<nat>, origin: nat, latest: nat) {
    forall i | 0 <= i < |times| :: origin <= times[i] <= latest
  }

  /** Lives told of in increasing time, from `origin` up to `latest`. */
  ghost predicate ToldInOrder(h: History, origin: nat, latest: nat) {
    && (forall p | p in h.alive :: Increasing(Starts(h.alive[p])) && Within(Starts(h.alive[p]), origin, latest))
    && (forall i | 0 <= i < |h.ended| :: Increasing(Bounds(h.ended[i])) && Within(Bounds(h.ended[i]), origin, latest))
  }

  lemma AfterInOrder(h: History, m: Message, titles: Titles, origin: nat, latest: nat)
    requires ToldInOrder(h, origin, latest) && origin <= latest < m.time
    ensures ToldInOrder(After(h, m, titles), origin, m.time)
  {
    hide Increasing, Within, Starts;
    forall p | p in h.alive ensures Kept(Starts(h.alive[p]), origin, m.time) {
      Extended(Starts(h.alive[p]), origin, latest, m.time);
    }
    forall i | 0 <= i < |h.ended| ensures Within(Bounds(h.ended[i]), origin, m.time) {
      Extended(Bounds(h.ended[i]), origin, latest, m.time);
    }
    if m.event.Exec? && m.pid in Heard(h, m).alive {
      var caption := Captioned(m.pid, m.event.argv, m.event.cwd, m.event.executable, titles);
      RanStarts(Heard(h, m).alive[m.pid], m.time, caption);
    }
    forall pid, parent, birth, caption ensures Starts(Life(pid, parent, m.time, birth, caption, [])) == [m.time] {
      FirstStart(Life(pid, parent, m.time, birth, caption, []));
    }
    One(origin, m.time);
  }

  /** In order, and still so if `time` comes next. */
  predicate Kept(times: seq<nat>, origin: nat, time: nat) {
    Increasing(times + [time]) && Within(times + [time], origin, time) && Within(times, origin, time)
  }

  lemma One(origin: nat, time: nat)
    requires origin <= time
    ensures Increasing([time]) && Within([time], origin, time)
  {
  }

  lemma FirstStart(life: Life)
    requires life.execs == []
    ensures Starts(life) == [life.start]
  {
  }

  lemma RanStarts(life: Life, time: nat, caption: Caption)
    ensures Starts(life.(execs := life.execs + [Stretch(time, caption)]))
         == if life.execs == [] then Starts(life) else Starts(life) + [time]
  {
  }

  lemma Extended(times: seq<nat>, origin: nat, latest: nat, time: nat)
    requires Increasing(times) && Within(times, origin, latest) && origin <= latest < time
    ensures Kept(times, origin, time)
  {
  }

  lemma {:induction false} AfterAllInOrder(h: History, ms: seq<Message>, titles: Titles, origin: nat)
    requires ToldInOrder(h, origin, origin) && Ascending(ms) && forall i | 0 <= i < |ms| :: ms[i].time > origin
    ensures ToldInOrder(AfterAll(h, ms, titles), origin, if ms == [] then origin else ms[|ms| - 1].time)
  {
    hide After, ToldInOrder;
    if ms != [] {
      var n := |ms| - 1;
      AfterAllInOrder(h, ms[..n], titles, origin);
      AfterInOrder(AfterAll(h, ms[..n], titles), ms[n], titles, origin, if n == 0 then origin else ms[n - 1].time);
    }
  }

  // ---- What matters to lives ----

  predicate IsLifeEvent(event: Event) {
    event.Fork? || event.Exec? || event.Exit?
  }

  /** Opens and renames make no difference to who lived when, and ran what. */
  lemma {:induction false} OnlyLifeEvents(h: History, ms: seq<Message>, ns: seq<Message>, titles: Titles)
    requires LifeEvents(ms) == LifeEvents(ns)
    ensures AfterAll(h, ms, titles) == AfterAll(h, ns, titles)
  {
    FromLifeEvents(h, ms, titles);
    FromLifeEvents(h, ns, titles);
  }

  function LifeEvents(ms: seq<Message>): seq<Message> {
    if ms == [] then [] else
      LifeEvents(ms[..|ms| - 1]) + if IsLifeEvent(ms[|ms| - 1].event) then [ms[|ms| - 1]] else []
  }

  lemma {:induction false} FromLifeEvents(h: History, ms: seq<Message>, titles: Titles)
    ensures AfterAll(h, LifeEvents(ms), titles) == AfterAll(h, ms, titles)
  {
    hide After;
    if ms != [] {
      var n := |ms| - 1;
      FromLifeEvents(h, ms[..n], titles);
      var before, told := LifeEvents(ms[..n]), LifeEvents(ms);
      if IsLifeEvent(ms[n].event) {
        assert told[..|told| - 1] == before;
      } else {
        assert told == before;
        OthersTellNothing(AfterAll(h, ms[..n], titles), ms[n], titles);
      }
    }
  }

  lemma OthersTellNothing(h: History, m: Message, titles: Titles)
    requires !IsLifeEvent(m.event)
    ensures After(h, m, titles) == h
  {
  }

  // ---- Ends that leave nothing ----

  /**
   Lives, who has been written of, and of each end in turn whether it leaves nothing. All of it is
   told by the messages alone.
   */
  datatype Account = Account(history: History, spoken: set<Pid>, silent: seq<bool>)

  function NoAccount(root: Pid, origin: nat, caption: Caption): Account {
    Account(Beginning(root, origin, caption), {}, [])
  }

  /** A child that ran no program and ended with the status of a spawn that failed. */
  predicate IsFailed(life: Life, stat: int) {
    stat == FAILED_SPAWN_STAT && life.execs == []
  }

  /** Whether something is written of `m`'s own process when `m` is told. */
  predicate Speaks(a: Account, m: Message) {
    var alive := a.history.alive;
    match m.event
    case Fork(_) => false
    case Exec(_, _, _) => m.pid in alive && alive[m.pid].execs != []
    case Exit(stat) => m.pid in alive && (IsFailed(alive[m.pid], stat) ==> m.pid in a.spoken)
    case Open(_, _, _, _) => m.pid in alive || m.pid in a.spoken
    case Rename(_, _) => m.pid in alive
  }

  function Accounted(a: Account, m: Message, titles: Titles): Account {
    Account(After(a.history, m, titles),
            if Speaks(a, m) then a.spoken + {m.pid} else a.spoken,
            if m.event.Exit? && m.pid in a.history.alive then a.silent + [!Speaks(a, m)] else a.silent)
  }

  function AccountOf(a: Account, ms: seq<Message>, titles: Titles): Account {
    if ms == [] then a else Accounted(AccountOf(a, ms[..|ms| - 1], titles), ms[|ms| - 1], titles)
  }

  lemma {:induction false} AccountHistory(a: Account, ms: seq<Message>, titles: Titles)
    requires |a.silent| == |a.history.ended|
    ensures AccountOf(a, ms, titles).history == AfterAll(a.history, ms, titles)
    ensures |AccountOf(a, ms, titles).silent| == |AccountOf(a, ms, titles).history.ended|
  {
    hide Speaks;
    if ms != [] {
      AccountHistory(a, ms[..|ms| - 1], titles);
      AfterEnds(AccountOf(a, ms[..|ms| - 1], titles).history, ms[|ms| - 1], titles);
    }
  }

  lemma AfterEnds(h: History, m: Message, titles: Titles)
    ensures |After(h, m, titles).ended| == |h.ended| + if m.event.Exit? && m.pid in h.alive then 1 else 0
  {
  }

  /** The ends that leave something. */
  function Voiced(ended: seq<Ending>, silent: seq<bool>): seq<Ending>
    requires |ended| == |silent|
  {
    if ended == [] then [] else
      var n := |ended| - 1;
      Voiced(ended[..n], silent[..n]) + if silent[n] then [] else [ended[n]]
  }

  /** The history without the ends that leave nothing. */
  function Audible(a: Account): History
    requires |a.silent| == |a.history.ended|
  {
    a.history.(ended := Voiced(a.history.ended, a.silent))
  }

  lemma VoicedMore(ended: seq<Ending>, silent: seq<bool>, e: Ending, isSilent: bool)
    requires |ended| == |silent|
    ensures Voiced(ended + [e], silent + [isSilent])
         == if isSilent then Voiced(ended, silent) else Voiced(ended, silent) + [e]
  {
    assert (ended + [e])[..|ended|] == ended && (silent + [isSilent])[..|silent|] == silent;
  }

  lemma {:induction false} VoicedFrom(ended: seq<Ending>, silent: seq<bool>)
    requires |ended| == |silent|
    ensures forall e | e in Voiced(ended, silent) :: e in ended
  {
    if ended != [] {
      VoicedFrom(ended[..|ended| - 1], silent[..|ended| - 1]);
    }
  }

  /** An end that leaves something stands among those that do. */
  lemma {:induction false} VoicedHas(ended: seq<Ending>, silent: seq<bool>, i: nat) returns (j: nat)
    requires |ended| == |silent| && i < |ended| && !silent[i]
    ensures j < |Voiced(ended, silent)| && Voiced(ended, silent)[j] == ended[i]
  {
    var n := |ended| - 1;
    if i == n {
      j := |Voiced(ended[..n], silent[..n])|;
    } else {
      j := VoicedHas(ended[..n], silent[..n], i);
    }
  }

  /** The tiles of an ending stand together among all of its pid's. */
  lemma {:induction false} TilesStand(clock: Clock, births: seq<Birth>, ended: seq<Ending>, i: nat) returns (k: nat)
    requires clock.Valid() && (forall j | 0 <= j < |ended| :: ended[j].life.birth < |births|) && i < |ended|
    ensures var tiles, all := Tiles(clock, births, ended[i]), AllTiles(clock, births, ended, ended[i].life.pid);
            k + |tiles| <= |all| && all[k..k + |tiles|] == tiles
  {
    hide Tiles;
    var n := |ended| - 1;
    var pid := ended[i].life.pid;
    if i == n {
      k := |AllTiles(clock, births, ended[..n], pid)|;
    } else {
      k := TilesStand(clock, births, ended[..n], i);
    }
  }
}
