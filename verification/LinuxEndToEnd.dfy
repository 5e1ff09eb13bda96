/**
 The Linux recorder's whole run: what it writes of processes, the ones still open at the end among them,
 is what the kernel's lives call for.
 */
module LinuxEndToEnd {
  import opened Basics
  import opened TrackerModel
  import opened LinuxModel
  import opened Lives
  import opened LinuxLives
  import opened LinuxKernel
  import TrackerProofs
  import EndToEnd
  import Seccomp

  function Traced(arch: Seccomp.Arch, root: Pid, name: Text, command: Text, cwd: Text, moments: seq<Moment>): Tracer {
    HandleStops(LinuxModel.New(arch, root, name, command, cwd), moments)
  }

  /** The whole sink: what was traced, and every process still open ended. */
  ghost function Sink(arch: Seccomp.Arch, root: Pid, name: Text, command: Text, cwd: Text, moments: seq<Moment>,
                      order: seq<Pid>, now: nat): seq<Written>
    requires TrackerProofs.IsWalk(order, Traced(arch, root, name, command, cwd, moments).processes)
  {
    TrackerProofs.WalkIsInTable(order, Traced(arch, root, name, command, cwd, moments).processes);
    LinuxModel.FinishAll(Traced(arch, root, name, command, cwd, moments), order, now).sink
  }

  /** The segment of a living process, ended as recording ends. */
  function OpenAsOf(h: History, p: Pid, now: nat): seq<Outline>
    requires Genealogy(h)
  {
    if p in h.alive
    then [Outline(ProcessOf(h.births, h.alive[p]), CaptionOf(h.alive[p]), SegmentStart(CLOCK, h.alive[p]), now, None)]
    else []
  }

  lemma {:induction false} FinishClosesEach(t: Tracer, order: seq<Pid>, now: nat, pid: Pid)
    requires TrackerProofs.Distinct(order) && forall i | 0 <= i < |order| :: order[i] in t.processes
    requires forall p | p in t.processes :: t.processes[p].process.pid == p
    ensures TrackerProofs.Segments(LinuxModel.FinishAll(t, order, now).sink, pid)
         == TrackerProofs.Segments(t.sink, pid)
            + if pid in order
              then [TrackerProofs.OutlineOf(t.processes[pid].process, t.processes[pid].segment.(end := now))] else []
  {
    hide TrackerProofs.Segments;
    if order != [] {
      var n := |order| - 1;
      FinishClosesEach(t, order[..n], now, pid);
      var before := LinuxModel.FinishAll(t, order[..n], now);
      var state := before.processes[order[n]];
      MoreSegments(before.sink, SegmentEnded(state.process, state.segment.(end := now)), pid);
      assert pid in order <==> pid in order[..n] || pid == order[n];
      assert pid == order[n] ==> pid !in order[..n];
    }
  }

  /**
   For every pid, the segments written are those of the kernel's processes of that pid, and one more if
   one is still open: their bounds, programs, exit codes, parents and build parents.
   */
  lemma SegmentsTellKernelLives(arch: Seccomp.Arch, root: Pid, name: Text, command: Text, cwd: Text,
                                moments: seq<Moment>, order: seq<Pid>, now: nat, p: Pid)
    requires Orderly(root, moments) && LinuxLives.Fits(moments)
    requires TrackerProofs.IsWalk(order, Traced(arch, root, name, command, cwd, moments).processes)
    ensures var h := KernelHistory(root, name, command, cwd, moments);
            && Genealogy(h)
            && TrackerProofs.Segments(Sink(arch, root, name, command, cwd, moments, order, now), p)
               == SegmentsOf(CLOCK, h, p) + OpenAsOf(h, p, now)
  {
    hide LinuxModel.New, Beginning, HandleStops, StopsLives, KernelHistory, TrackerProofs.Segments, SegmentsOf, Orderly,
         LinuxModel.FinishAll, Tracks, LinuxLives.Follows;
    var t, h := Traced(arch, root, name, command, cwd, moments), KernelHistory(root, name, command, cwd, moments);
    RunTracks(arch, root, name, command, cwd, moments);
    BeginningFollows(arch, root, name, command, cwd);
    StopsFollow(LinuxModel.New(arch, root, name, command, cwd),
                Beginning(root, 0, Caption(name, command, cwd, false)), moments);
    TableIsOfPids(t, h);
    TrackerProofs.WalkIsInTable(order, t.processes);
    FinishClosesEach(t, order, now, p);
    OpenOutline(t, h, p, now);
  }

  lemma TableIsOfPids(t: Tracer, h: History)
    requires LinuxLives.Follows(t, h)
    ensures Genealogy(h) && t.processes.Keys == h.alive.Keys
    ensures forall p :: TrackerProofs.Segments(t.sink, p) == SegmentsOf(CLOCK, h, p)
    ensures forall p | p in t.processes :: t.processes[p].process.pid == p
  {
    hide TrackerProofs.Segments, SegmentsOf, WalkUp;
  }

  lemma OpenOutline(t: Tracer, h: History, p: Pid, now: nat)
    requires LinuxLives.Follows(t, h)
    ensures p in t.processes ==>
              OpenAsOf(h, p, now)
              == [TrackerProofs.OutlineOf(t.processes[p].process, t.processes[p].segment.(end := now))]
    ensures p !in t.processes ==> OpenAsOf(h, p, now) == []
  {
    hide TrackerProofs.Segments, SegmentsOf, WalkUp;
  }

  lemma KernelLivesResolve(arch: Seccomp.Arch, root: Pid, name: Text, command: Text, cwd: Text,
                           moments: seq<Moment>, i: nat)
    requires Orderly(root, moments) && LinuxLives.Fits(moments) && Ticking(moments)
    requires i < |KernelHistory(root, name, command, cwd, moments).ended|
    ensures var e := KernelHistory(root, name, command, cwd, moments).ended[i];
            Resolves(CLOCK, Bounds(e)) && CLOCK.Ns(e.life.start) == e.life.start && CLOCK.Ns(e.end) == e.end
  {
    hide StopsLives, HandleStops, LinuxModel.New, KernelHistory, Orderly, Tracks;
    RunTracks(arch, root, name, command, cwd, moments);
    EndToEnd.BeginningInOrder(root, 0, Caption(name, command, cwd, false));
    StopsInOrder(LinuxModel.New(arch, root, name, command, cwd),
                Beginning(root, 0, Caption(name, command, cwd, false)), moments);
    var h := KernelHistory(root, name, command, cwd, moments);
    var latest := if moments == [] then 0 else moments[|moments| - 1].world.now;
    BoundsFit(Bounds(h.ended[i]), latest);
    EndsFit(h.ended[i], latest);
  }

  /**
   Each process that ended is written as one segment for each program it ran, or one in all: they stand
   together among its pid's segments, start as its leader is named, end as its last task exits, and meet
   exactly.
   */
  lemma LinuxLivesAreTiled(arch: Seccomp.Arch, root: Pid, name: Text, command: Text, cwd: Text, moments: seq<Moment>,
                           order: seq<Pid>, now: nat, i: nat)
    returns (k: nat)
    requires Orderly(root, moments) && LinuxLives.Fits(moments) && Ticking(moments)
    requires TrackerProofs.IsWalk(order, Traced(arch, root, name, command, cwd, moments).processes)
    requires i < |KernelHistory(root, name, command, cwd, moments).ended|
    ensures var h := KernelHistory(root, name, command, cwd, moments);
            && Genealogy(h)
            && var e := h.ended[i];
               var sink := Sink(arch, root, name, command, cwd, moments, order, now);
               var written := TrackerProofs.Segments(sink, e.life.pid);
               var n := Max(1, |e.life.execs|);
               && k + n <= |written| && written[k..k + n] == Tiles(CLOCK, h.births, e)
               && Contiguous(written[k..k + n], e.life.start, e.end)
  {
    hide KernelHistory, Orderly, Traced, Sink, Tiles, Contiguous, TrackerProofs.Segments, TrackerProofs.IsWalk,
         Resolves, Bounds, AllTiles;
    var h := KernelHistory(root, name, command, cwd, moments);
    KernelLivesResolve(arch, root, name, command, cwd, moments, i);
    SegmentsTellKernelLives(arch, root, name, command, cwd, moments, order, now, h.ended[i].life.pid);
    LifeIsTiled(CLOCK, h.births, h.ended[i]);
    k := TilesStand(CLOCK, h.births, h.ended, i);
  }

  /**
   Every segment written of a pid is of one of the kernel's processes of that pid, and its build parent is
   the walk up the fork tree from that process's own birth.
   */
  lemma LinuxBuildParents(arch: Seccomp.Arch, root: Pid, name: Text, command: Text, cwd: Text, moments: seq<Moment>,
                          order: seq<Pid>, now: nat, p: Pid, o: Outline)
    requires Orderly(root, moments) && LinuxLives.Fits(moments)
    requires TrackerProofs.IsWalk(order, Traced(arch, root, name, command, cwd, moments).processes)
    requires o in TrackerProofs.Segments(Sink(arch, root, name, command, cwd, moments, order, now), p)
    ensures var h := KernelHistory(root, name, command, cwd, moments);
            Genealogy(h) && EndToEnd.IsBorn(CLOCK, h, p, o)
  {
    hide KernelHistory, Orderly, Traced, Sink, SegmentsOf, TrackerProofs.Segments, TrackerProofs.IsWalk,
         EndToEnd.IsBorn;
    SegmentsTellKernelLives(arch, root, name, command, cwd, moments, order, now, p);
    EndToEnd.SegmentsBorn(CLOCK, KernelHistory(root, name, command, cwd, moments), p, o);
  }
}
