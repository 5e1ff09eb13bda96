# Buildprof, modelled and verified

Buildprof records a build: it follows the processes a command starts, the programs they run, and the
files they open and rename, and writes a Perfetto trace. This project models its hard core in Dafny
and proves what its parts promise one another.

- **The macOS collector** turns a noisy stream of kernel records into messages. It reads command lines
  late, and holds messages back until nothing earlier can still arrive. `CollectorModel` gives each
  step as a function of the state; `CollectorObject.Collector` is the collector itself, its tables
  updated in place, each method equal to that function. The theorems are about whole runs: any
  records, any answers to any read, ticks anywhere (`DeliveryOrder`, `Overtaking`, `Ledger`,
  `Refinement`, `Naming`, `ExitClassification`, `Opens`, `Reassembly`, `CanonicalPaths`, with `Paths`,
  `Fragments` and `Ordering` below them). `KernelFiles` says, from the records alone, what directory a
  process is in, what its descriptors are open on, and so which file each open and rename is of;
  `ExecTexts` says what a program is reported as, and when. `KernelFilesProofs` and `ExecTextsProofs` show
  that recordings tell just that.
- **The macOS tracker** turns messages into segments and build parents. `TrackerModel` and
  `TrackerObject.LiveTracker` relate in the same way. `Lives` says, without the tracker, what the
  messages tell of processes, the text of each segment included; `TrackerProofs` shows the tracker
  writes just that, and `EndToEnd` puts the collector in front.
- **The Linux tracer** is a step for each stop the kernel reports (`LinuxModel`,
  `LinuxObject.LiveTracer`), with its protocol (`LinuxProofs`). `LinuxCalls` has the calls as programs make
  them, and shows that each leaves what it passed. `LinuxKernel` says what tasks and
  processes there are from the reports alone, and shows the tracer's tables are those; `LinuxLives` and
  `LinuxEndToEnd` show it writes just the segments they call for. The race of a new process's three
  first reports is in `CloneRace`, what is left of a task after its exit in `LateClones`, and the
  seccomp filter with a machine that runs it in `Seccomp`.
- **The trace writer** is the protobuf encoder with a parser (`Wire`), the interning layer with a
  reader (`TraceWriter`, `TraceObject.Writer`, `TraceReader`), and both together (`TraceRoundTrip`).
- **`WholeRecording`** joins all of the macOS path: a reader of the finished file's bytes finds the
  processes the kernel reported, in kernel order. **`WholeLinuxRecording`** does the same from ptrace
  stops.

The machine is an oracle. Each step is given what reading a process answers, which a step tries once at
most (`CollectorModel.Env.inspect`), and which paths exist (`Env.present`); each Linux stop is given what
`/proc` and the task's memory say (`LinuxModel.World`). Nothing is assumed of either unless a theorem
says so.

Conditions that theorems name, all of them on what the kernel reports:

- `DeliveryOrder.RunInTime`: timestamps do not go back, and no program starts in a process whose exit
  is held. `Overtaking` says exactly when one that does puts the recording out of order.
- `Refinement.QuietRun`: timestamps increase strictly, and no process acts, and no pid is forked
  again, between an exit and that exit's delivery. `Refinement.EndsAreLast`, that no pid is used again
  once its process has ended, is enough.
- `ExitClassification.PossibleRun`: threads start, succeed, fail and end in an order a kernel can
  report, and a process ends once.
- `LinuxProofs.OneCallAtATime`, `LinuxCalls.NoCallWithin`: no task starts a filtered call within another of
  its own. `LinuxCalls.AreMade`: a call is passed its number and, in the first registers, its parameters.
- `LinuxKernel.PossibleRun`: `/proc` tells the truth of tasks, ids are not shared, a task is told to exit
  after its clone event, and a program is run by its process's last task, its leader.
  `LinuxKernel.ExecByAThreadStays` and `LateClones` show what comes of runs that are not so.
- `LinuxKernel.Orderly`: such a run in which, besides, who clones has been named, or leads its process, or
  clones within a process that is known; and an exit leaves its process no task or one that has been named.
  `LinuxKernel.FollowedJustWhenOrderly` shows that the tracer follows these runs and no others.
- `CloneRace.IsAside`: what may happen while a new process's reports race: anything but the ends of the
  two tasks, other programs of their processes, and a task that takes the child's pid.
- `LinuxLives.Ticking`: the clock moves on between its readings, which tiling needs and nothing else.

Where the code and its words differ, the model follows the code. `normalize` strips the data volume's
prefix once, so it is not idempotent (`Paths.NormalizeIsNotIdempotent`, `Paths.NormalizeFixpoint`); a
failed spawn leaves something behind if its pid was written of before
(`TrackerProofs.FailedSpawnLeavesNothingJustWhen`); a clone event late enough brings a task back for good
(`LateClones`), though registering again is called harmless; an
exec message carries the directory its process has when the message is sent (`ExecTexts.ReportOf`), which is
why `Refinement` sets aside what exec messages say of arguments, program and directory.

Verify it all with `dafny verify dfyconfig.toml`.

## Model

| member | source | states |
|---|---|---|
| CollectorObject.Collector.constructor | src/macos/recon.rs:208-241 | A new collector follows the root alone, from a canonical working directory, and waits for nothing. |
| CollectorObject.Collector.SetRootCommand | src/macos/recon.rs:245-247 | Gives the build's own command and changes nothing else. |
| CollectorObject.Collector.SeedThreads | src/macos/recon.rs:250-252 | Adds the threads that existed before tracing. |
| CollectorObject.Collector.ObserveRecord | src/macos/recon.rs:254-260 | One record: the new state and the messages delivered are exactly those of the model's step. |
| CollectorObject.Collector.TickOnce | src/macos/recon.rs:263-268 | One tick: retries command lines, believes exits, and delivers what is ready. |
| CollectorObject.Collector.FlushAll | src/macos/recon.rs:271-273 | The flush as the model's step. |
| CollectorObject.Collector.EarliestUnread | src/macos/recon.rs:292-297 | The loop finds the earliest pending program's time. |
| CollectorObject.Collector.ReleaseReady | src/macos/recon.rs:286-305 | What waited and what is new are sorted by time, stably, and split where the earliest unread program stands. |
| CollectorObject.Collector.InterpretRecord | src/macos/recon.rs:308-368 | Dispatch of a record: new threads, lost events, and records of followed threads only. |
| CollectorObject.Collector.AddThread | src/macos/recon.rs:319-355 | A new thread, and whether it is a new task of its own process or the first of another. |
| CollectorObject.Collector.AddProcess | src/macos/recon.rs:331-352 | A child starts with the directory and descriptors of its parent, and an exit held for its pid is cancelled; a pid another process took is dropped. |
| CollectorObject.Collector.CancelExit | src/macos/recon.rs:530-532 | Exactly the held exits of the pid are dropped, the others keeping their order. |
| CollectorObject.Collector.InterpretFollowed | src/macos/recon.rs:370-430 | Dispatch of a followed thread's record. |
| CollectorObject.Collector.ReportExit | src/macos/recon.rs:392-407 | A replaced program's end and a failed start are no exits; any other end is held and believed if it may be. |
| CollectorObject.Collector.NameRunning | src/macos/recon.rs:371-381 | Names the running program and marks its pending entry. |
| CollectorObject.Collector.MarkPending | src/macos/recon.rs:373-379 | The loop marks exactly the pending entries of the pid. |
| CollectorObject.Collector.GatherLookup | src/macos/recon.rs:408-428 | Gathers a path's fragments per thread, and ends the lookup. |
| CollectorObject.Collector.EndLookup | src/macos/recon.rs:417-426 | A finished lookup's absolute path is remembered for its vnode, and any path joins the thread's call. |
| CollectorObject.Collector.FollowSyscall | src/macos/recon.rs:432-460 | Starts, ends and drops calls, by thread, code and errno. |
| CollectorObject.Collector.Exec | src/macos/recon.rs:566-609 | A program start: close-on-exec descriptors go, an earlier unread program is settled, and this one is read or retried. |
| CollectorObject.Collector.SettleEarlierProgram | src/macos/recon.rs:579-586 | Takes the first pending entry of the pid out and reports it. |
| CollectorObject.Collector.ReadOrRetry | src/macos/recon.rs:587-608 | The root's own command needs no read; another program is read, or remembered with why it could not be. The state and message are the model's, whose texts `ExecTextsProofs.ExecsAreTold` pins. |
| CollectorObject.Collector.Settle | src/macos/recon.rs:657-704 | A program that cannot be read is reported with passed-on arguments or under its kernel name, and counted as lost when nothing replaced it. |
| CollectorObject.RetryEach | src/macos/recon.rs:616-648 | The loop over pending programs keeps, reports and loses exactly those the model does, each with its own answer. |
| CollectorObject.Collector.RetryPending | src/macos/recon.rs:611-650 | The retried list replaces the old one. |
| CollectorObject.Collector.BelieveHeldExits | src/macos/recon.rs:534-547 | Delivers, in order, exactly the held exits whose process has no pending program. |
| CollectorObject.Collector.TakeBelievables | src/macos/recon.rs:537-545 | The loop that removes one believable exit at a time ends with none left, and leaves the rest in order. |
| CollectorObject.Collector.NextBelievable | src/macos/recon.rs:537-542 | The search finds the first believable exit, if there is one. |
| CollectorObject.Collector.EmitExit | src/macos/recon.rs:549-564 | An exit ends its process, but never the root's, and forgets its name. |
| CollectorObject.Collector.FlushHeld | src/macos/recon.rs:463-492 | Held opens are placed, then the last reads made, then every held exit delivered. |
| CollectorObject.Collector.EmitHeldOpens | src/macos/recon.rs:466-484 | Each held open gets its vnode's path if the names agree, and is marked unresolved if not. |
| CollectorObject.Collector.EmitHeldExits | src/macos/recon.rs:488-490 | The flush's exits as the model's step. |
| CollectorObject.Collector.EndHeldProcesses | src/macos/recon.rs:488-490 | The loop ends every held process but the root's. |
| CollectorObject.Collector.Finish | src/macos/recon.rs:731-869 | A finished call's effect on directories, descriptors and messages, by its code: the model's, which `KernelFilesProofs` pins by the records. |
| CollectorObject.Collector.FinishOpened | src/macos/recon.rs:740-797 | An open gets a descriptor, is remembered if it created a file, and is reported or held. |
| CollectorObject.Collector.PlaceOpened | src/macos/recon.rs:749-770 | Where an open is, or that it is held because nothing says: the model's place, which `KernelFilesProofs.RecordingTellsFiles` pins. |
| CollectorObject.Collector.InsertDescriptor | src/macos/recon.rs:773-777 | Only a followed process's table gets the descriptor. |
| CollectorObject.Collector.FinishDuplicate | src/macos/recon.rs:846-867 | dup, dup2 and fcntl copy a descriptor's path or set its flag. |
| CollectorModel.Earliest | src/macos/recon.rs:292-297 | The least of the pending times, reached by one of them. |
| CollectorModel.FirstPending | src/macos/recon.rs:579-583 | The first entry of the pid, with none before it. |
| CollectorModel.Waiting | src/macos/recon.rs:537-542 | What is left of the held exits waits for a pending program of its process. |
| CollectorModel.Retry | src/macos/recon.rs:617-647 | Only an entry inside its window is kept, and one reported keeps its time and pid. |
| CollectorModel.StartProgram | src/macos/recon.rs:587-608 | A program start leaves one more pending entry or one exec message, with its pid and time. |
| CollectorModel.FinishCall | src/macos/recon.rs:731-869 | A finished call changes files and directories only, adds no process, and says at most one thing, at its own time. |
| Paths.Normalize | src/macos/recon.rs:1013-1037 | The loop over a stack of names computes the normalized path. |
| Paths.ResolvedIsCanonical | src/macos/recon.rs:1019-1037 | Whatever the input, the result is absolute with no empty, `.` or `..` component. |
| Paths.NormalizedIsCanonical | src/macos/recon.rs:1013-1037 | The same of the whole function. |
| Paths.ResolveFixpoint | src/macos/recon.rs:1019-1037 | Resolving dots changes a path if and only if it is not canonical. |
| Paths.ResolveComposes | src/macos/recon.rs:1019-1037 | Resolving the directory first loses nothing: resolve(resolve(a)/b) is resolve(a/b). |
| Paths.ResolveTells | src/macos/recon.rs:1019-1037 | What each part does, which determines the whole: an empty one or `.` nothing, `..` takes the last name away if there is one, a name goes under what is before it. |
| Paths.NormalizeFixpoint | src/macos/recon.rs:1013-1037 | Normalizing leaves a path as it is if and only if it is canonical and is not the data volume's prefix, a slash and something more. |
| Paths.NormalizeTells | src/macos/recon.rs:1013-1018 | A path that is the data volume's prefix, a slash and something more is that without the prefix, resolved; any other is resolved as it is. |
| Paths.NormalizeIsNotIdempotent | src/macos/recon.rs:1014-1018 | A doubled data-volume prefix is stripped once a call, so a second call changes the result. |
| Paths.DataVolumeSpelling | src/macos/recon.rs:1014-1018 | A path spelled on the data volume normalizes to the path behind it. |
| Fragments.DecodeString | src/macos/recon.rs:999-1009 | The loop decodes little-endian words up to the first NUL. |
| Fragments.DecodedPack | src/macos/recon.rs:998-1009 | Any NUL-free name packed in words and padded decodes to itself. |
| Ordering.SortPermutes | src/macos/recon.rs:291 | Sorting keeps every message. |
| Ordering.SortSorts | src/macos/recon.rs:291 | The result is in time order. |
| Ordering.SortIsStable | src/macos/recon.rs:291 | Messages of one time keep their order. |
| Ordering.StrictOrderIsUnique | src/macos/recon.rs:291 | Messages of distinct times have one order. |
| DeliveryOrder.ObserveInOrder | src/macos/recon.rs:275-306 | A record in time keeps everything sent so far in order, whatever is held. |
| DeliveryOrder.TickInOrder | src/macos/recon.rs:263-268 | So does a tick, whatever the reads answer. |
| DeliveryOrder.DeliveredInOrder | src/macos/recon.rs:275-306 | Over any run in time, messages leave in the order they happened. |
| Overtaking.OvertakenRecording | src/macos/recon.rs:280-306 | If a program's start passes on anything later than an exit that is held, the whole recording is out of order, whatever else waits and however the program is read. |
| Overtaking.SortedJustWhenNotOvertaken | src/macos/recon.rs:280-306 | A recording in time, with no opens to place, that ends with a program's start in any followed process is in order if and only if the start overtakes no held exit, and the only exit it can overtake is of that process. |
| Overtaking.ARecordingOutOfOrder | src/macos/recon.rs:275-306 | Five records from a new collector that get there: an exit of time 3 is recorded after a fork of time 4. |
| DeliveryOrder.TickBoundsHold | src/macos/recon.rs:263-268 | After a tick, every queued message, pending program and held exit is inside the retry window. |
| DeliveryOrder.FlushEmpties | src/macos/recon.rs:463-492 | After the flush nothing is held or queued. |
| DeliveryOrder.FlushReleases | src/macos/recon.rs:271-273 | The flush delivers all that waited and all it adds, sorted. |
| DeliveryOrder.FlushInOrder | src/macos/recon.rs:463-492 | The flush's messages are sorted, and only opens it places can be earlier than what was sent before. |
| Ledger.ObserveBalances | src/macos/recon.rs:280-461 | A record: delivered and owed messages grow by exactly what the record reported, less the exits it cancelled. |
| Ledger.TickBalances | src/macos/recon.rs:263-268 | A tick neither makes nor loses a message. |
| Ledger.FlushBalances | src/macos/recon.rs:463-492 | The flush delivers exactly what is owed and the held opens. |
| Ledger.RecordingBalances | src/macos/recon.rs:254-306 | A whole recording delivers everything that happened, each once, but for exits whose pid was forked again. |
| Ledger.ExecsConserved | src/macos/recon.rs:566-650 | Each program a followed process started has exactly one exec message, with its pid and time. |
| Refinement.RecordingIsWhatHappened | src/macos/recon.rs:275-306 | For a quiet run, a recording is what the kernel reported, message for message and in order, opens the flush places aside. |
| Refinement.DelayedRefinesInstant | src/macos/recon.rs:503-669 | Reading late gives the recording of a collector that reads every command line at once, but for what exec messages say; the held opens are the same. |
| Refinement.RunMatches | src/macos/recon.rs:254-669 | The simulation: at every point a delayed collector is an instant one, but for the processes whose exits it holds. |
| Refinement.EndsLastIsQuiet | src/macos/recon.rs:534-564 | A held exit is one the kernel reported, so a run that uses no pid again after its process ended is quiet. |
| Naming.PendingFindsItsName | src/macos/recon.rs:371-391 | Over any run there is at most one pending program a process; it is marked named exactly when its own program was named, and then finds that name. |
| Naming.SettledUnderOwnName | src/macos/recon.rs:657-704 | A program reported without its command line goes by its own kernel name or its successor's passed-on arguments. |
| ExecTextsProofs.ExecsAreTold | src/macos/recon.rs:503-704 | The exec messages of a recording are one for each program started: the root's given command; or what the first deciding answer says, if it is of that program; or a successor's arguments, if they begin with its name; or its name; told as soon as an answer is of it, its window is over, it is decided and named, its process starts another, or at the flush. |
| ExecTextsProofs.ExecsAreReports | src/macos/recon.rs:503-704 | An exec message is recorded if and only if it is the report of a program, with its pid, time, directory and text. |
| ExecTextsProofs.ReadAtOnceIsRecorded | src/macos/recon.rs:523-596 | A program whose process answers for it as it starts is recorded with exactly the executable and arguments answered, in the directory its process is in by the records. |
| ExecTextsProofs.NameLeftIs | src/macos/recon.rs:371-381 | A name the collector has of a process is the one the kernel last told. |
| ExecTextsProofs.PassedOnIs | src/macos/recon.rs:671-687 | Arguments are passed on if and only if their first word, its directories and dashes aside, is the program's name, or begins with one of at least fifteen bytes. |
| ExitClassification.RunRemembers | src/macos/recon.rs:319-327 | The two tables are exactly the threads that are starting and those of replaced programs. |
| ExitClassification.ExitsAreRealEnds | src/macos/recon.rs:383-407 | For any mix of failed starts and replacements, exits delivered and cancelled are the real ends, one each, with their status. |
| ExitClassification.OneExitALife | src/macos/recon.rs:383-407 | A recording has no more exits of a pid than processes were started under it, and one that was there before. |
| Opens.OpensConserved | src/macos/recon.rs:740-797 | Every followed open that succeeded and logged a lookup, or opened a directory without one, has exactly one open message by the end of the flush. |
| Messages.FlagsKeepTheirMeaning | src/macos/event.rs:50-76 | The Linux flags of an open have the access mode of Darwin's, and append, create, truncate, exclusive and directory just where those have, and no other bit. |
| KernelFilesProofs.ProcessIsAsRecorded | src/macos/recon.rs:331-352 | Over any run, a followed process is in the directory of its last chdir or fchdir, or its parent's at its birth; and has just the descriptors of the last open, dup, dup2 or fcntl that made them, or its parent's, that were not closed since or by a program's start. |
| KernelFilesProofs.PathsAreAsRecorded | src/macos/recon.rs:408-430 | Each vnode is known where it was last looked up absolutely, and the files made are those that opens were to create. |
| KernelFilesProofs.RunAgrees | src/macos/recon.rs:731-942 | Over any run, what happened to files is what the records tell: each open and rename with its own flags and descriptor, each path by its own lookup under its own directory argument, its working directory, the root, or where its vnode was looked up, by conditions on the files present. |
| KernelFilesProofs.RecordingTellsFiles | src/macos/recon.rs:463-485 | A recording has exactly those opens and renames, each once, and the opens that nothing had placed, told at the end. |
| KernelFilesProofs.FactIsRecorded | src/macos/recon.rs:731-825 | What a call is worth when it ends is in the recording, whatever comes before or after. |
| KernelFilesProofs.AbsoluteRenameIsRecorded | src/macos/recon.rs:799-823 | A rename whose last two lookups are absolute is recorded as moving the last but one to the last, both normalized, whatever the tables hold. |
| KernelFilesProofs.LocatedIs | src/macos/recon.rs:895-958 | What the collector resolves a lookup to is the path that the first name, the files made and the files present call for. |
| Reassembly.RunOwn | src/macos/recon.rs:408-460 | A thread's call and gathered fragments depend on its own records alone. |
| Reassembly.FinishedCallSeesItsLookups | src/macos/recon.rs:408-460 | A finished call has exactly the lookups its thread recorded since it began, each path whole, however other threads interleave. |
| CanonicalPaths.InitialCanonical | src/macos/recon.rs:212-217 | A new collector knows only canonical paths. |
| CanonicalPaths.RunCanonical | src/macos/recon.rs:408-868 | In every reachable state each known directory, descriptor, vnode and created path is canonical, and so is every resolved open and rename. |
| CanonicalPaths.FlushCanonical | src/macos/recon.rs:463-484 | Each open the flush places is canonical, or is marked unresolved and is not absolute. |
| CanonicalPaths.ResolveCanonical | src/macos/recon.rs:895-942 | A resolved path is canonical. |
| TrackerObject.LiveTracker.constructor | src/macos/tracker.rs:121-156 | A new tracker follows the root, already running, and has written nothing. |
| TrackerObject.LiveTracker.HandleMessage | src/macos/tracker.rs:162-223 | One message: the table, the announced pids and the sink become those of the model's step. |
| TrackerObject.LiveTracker.AnnouncePid | src/macos/tracker.rs:347-352 | A pid is introduced unless it was. |
| TrackerObject.LiveTracker.Start | src/macos/tracker.rs:236-269 | A child's segment is named after its parent's, and its build parent is fixed now. |
| TrackerObject.LiveTracker.RunProgram | src/macos/tracker.rs:271-325 | A first program names the segment; a later one ends it and starts another: the model's step, whose texts `TrackerProofs.SegmentsTellLives` pins. |
| TrackerObject.LiveTracker.EndProcess | src/macos/tracker.rs:327-344 | An exit closes the segment, unless it is a failed spawn nothing was written of. |
| TrackerObject.LiveTracker.Finish | src/macos/tracker.rs:226-234 | Ends every open process, in any order of the table. |
| TrackerModel.ExitCodeTells | src/model.rs:52-61 | Of a status that tells of an exit, its code; of one that tells of a signal, 128 and the signal, core or not. |
| TrackerModel.NsTells | src/macos/tracker.rs:82-85 | The scaled ticks since the origin rounded down, zero before it, and the greatest 64-bit value if and only if they reach it. |
| TrackerModel.EndAtTells | src/model.rs:44-50 | A segment ends when it is to, or a nanosecond after it starts if that is later, and never past 64 bits. |
| TrackerProofs.StartsComeFirst | src/macos/tracker.rs:347-352 | In the whole trace, a process's start is written exactly where its first record is. |
| TrackerProofs.SegmentsTellLives | src/macos/tracker.rs:162-344 | For every pid, the segments written are exactly those its lives call for, with parent, build parent, name, command, directory, wrapper mark, bounds and exit code, the ends that leave nothing left out. |
| TrackerProofs.FinishedTellsLives | src/macos/tracker.rs:226-234 | When the tracker has finished, they are those, and one more of a process still open, ended then. |
| TrackerProofs.FinishedTellsFiles | src/macos/tracker.rs:190-221 | The records of files in the whole trace are one for each open or rename told of a process that is alive, or of any that was written of for an open, in order, with its time and all it says. |
| TrackerProofs.EndsAreConserved | src/macos/tracker.rs:327-344 | Each end of a process has one closing segment and one exit report, but for the ends that leave nothing, which messages alone decide. |
| TrackerProofs.FailedSpawnLeavesNothingJustWhen | src/macos/tracker.rs:327-333 | A child that ran nothing and ended with a failed spawn's status leaves no record if and only if nothing was written of its pid before; if something was, it leaves a segment and a report like any other. |
| TrackerProofs.FailedSpawnOfAReusedPid | src/macos/tracker.rs:327-333 | Four messages that show it: the pid of a child that ran and ended is forked again, and that spawn fails. |
| TrackerProofs.FinishClosesEach | src/macos/tracker.rs:226-234 | Finishing gives each live process exactly one more segment and no other process any. |
| TrackerProofs.RootExitCodeIsShown | src/macos/tracker.rs:334-337 | The build's exit code is always the one its root's last closing segment shows. |
| Lives.LifeIsTiled | src/model.rs:44-50 | A life's segments number one for each program or one in all, start at its fork, end at its exit, and each ends exactly where the next starts. |
| Lives.OnlyLifeEvents | src/macos/tracker.rs:180-221 | Opens and renames make no difference to who lived when, and ran what. |
| Lives.StrictNs | src/macos/tracker.rs:82-85 | A later tick is a later nanosecond when a tick is at least one and nothing overflows. |
| EndToEnd.SegmentsTellKernelHistory | src/macos/tracker.rs:162-344 | With the collector in front, and the processes still open ended, segments, their texts, parents and build parents are those of the kernel's order, each program as its report says, however late programs are announced. |
| EndToEnd.RecordingIsInFull | src/macos/recon.rs:275-306 | For a quiet run, a recording is what the kernel reported, in order, each program with the executable, arguments and directory that `ExecTexts` says, opens the flush places aside. |
| EndToEnd.SilenceIsKernelOrder | src/macos/tracker.rs:327-333 | An end that leaves nothing in the recording leaves nothing in the kernel's order either; one that does only there is of a process with an open the flush placed. |
| EndToEnd.KernelLivesAreTiled | src/macos/tracker.rs:271-344 | The segments written of a process that ended, and left anything, stand together in the sink, one a program or one in all, without gap from its fork to its exit. |
| EndToEnd.BuildParentsAreKernelOrder | src/model.rs:36-41 | Each segment is of one life of its pid, and its build parent is the walk up the kernel's fork tree from that life's own birth, past every ancestor that had run no program when it forked the next. |
| Wire.Encoder.Writing | src/perfetto/wire.rs:26-30 | A writing encoder starts from what its output already holds. |
| Wire.Encoder.Counting | src/perfetto/wire.rs:32-36 | A counting encoder starts from nothing. |
| Wire.Encoder.Write | src/perfetto/wire.rs:99-107 | Counting adds the length; writing appends the bytes. |
| Wire.Encoder.WriteVarint | src/perfetto/wire.rs:87-97 | The loop over a fixed ten-byte array writes the varint and never overruns. |
| Wire.Encoder.WriteKey | src/perfetto/wire.rs:83-85 | A field's key is the varint of its number and wire type. |
| Wire.Encoder.WriteUint | src/perfetto/wire.rs:38-41 | Writes the field's bytes. |
| Wire.Encoder.WriteInt | src/perfetto/wire.rs:44-46 | A signed value is written as its two's complement. |
| Wire.Encoder.WriteBytes | src/perfetto/wire.rs:56-60 | Writes key, length and bytes. |
| Wire.Encoder.WriteMessage | src/perfetto/wire.rs:62-81 | The length the counting pass finds is the number of bytes the writing pass emits. |
| Wire.Encoder.Encode | src/perfetto/wire.rs:62-81 | Encoding a message's fields counts or writes exactly their bytes. |
| Wire.VarintLength | src/perfetto/wire.rs:87-97 | A varint takes at most k bytes if and only if its value is below 128 to the k. |
| Wire.WordsFit | src/perfetto/wire.rs:14-14 | Every 64-bit value fits in ten bytes. |
| Wire.VarintRoundTrip | src/perfetto/wire.rs:87-97 | Reading what was written gives the value and what follows it. |
| Wire.VarintsAreUnique | src/perfetto/wire.rs:87-97 | No varint begins another. |
| Wire.SignedRoundTrip | src/perfetto/wire.rs:43-46 | Signed values read back, and a negative one always takes ten bytes. |
| Wire.WireRoundTrip | src/perfetto/wire.rs:38-97 | A parser recovers any message, of any depth, from its bytes. |
| Wire.WireIsInjective | src/perfetto/wire.rs:38-97 | Different messages of one schema have different bytes. |
| Wire.EncodedOncePerLevel | src/perfetto/wire.rs:62-81 | Writing encodes a scalar nested d messages deep exactly d + 1 times. |
| Wire.CountedOnce | src/perfetto/wire.rs:75-79 | Counting encodes each scalar once. |
| TraceObject.Intern | src/perfetto.rs:376-383 | A string keeps its id, or gets the next one. |
| TraceObject.Writer.constructor | src/perfetto.rs:293-296 | A new trace holds the root track and no strings. |
| TraceObject.Writer.WritePacket | src/perfetto.rs:317-323 | A packet's bytes are appended to the output. |
| TraceObject.Writer.WriteEvent | src/perfetto.rs:332-373 | New strings are declared in a packet before the event that refers to them. |
| TraceObject.Writer.InternDebugAnnotation | src/perfetto.rs:300-315 | Declares what of an annotation is new, and returns its ids. |
| TraceObject.Writer.ProcessStarted | src/perfetto.rs:113-134 | Declares a process's two tracks. |
| TraceObject.Writer.WriteSegment | src/perfetto.rs:136-175 | A segment is a slice's begin, with all its arguments, and its end. |
| TraceObject.Writer.FileOpen | src/perfetto.rs:177-197 | An open is one instant on the file track. |
| TraceObject.Writer.Rename | src/perfetto.rs:199-215 | So is a rename. |
| TraceObject.Writer.CompilerSlice | src/perfetto.rs:233-272 | A compiler slice, its detail interned first, and its end. |
| TraceReader.ItemsAreTold | src/perfetto.rs:326-374 | A reader with four id tables, going left to right, recovers every item with its strings in full, so each id is declared before it is used. |
| TraceReader.IdsAreDenseAndDeclaredOnce | src/perfetto.rs:376-383 | Each kind of string is declared once, with ids one, two, three and so on in order of first use. |
| TraceReader.EveryIdIsUsed | src/perfetto.rs:380-381 | In each of the four tables, after any items, every id from one to the table's size is one string's and no other's. |
| TraceReader.EventFound | src/perfetto/proto.rs:284-315 | A track event's fields are found by their numbers. |
| TraceReader.DeclarationsRead | src/perfetto/proto.rs:220-257 | A packet of declarations declares its strings and says nothing else. |
| TraceReader.TrackRead | src/perfetto/proto.rs:259-282 | A track descriptor reads back. |
| TraceRoundTrip.BytesTellItems | src/perfetto.rs:317-374 | Parsing a trace's bytes and reading its packets gives every item written. |
| TraceRoundTrip.BytesTellRecords | src/macos/tracker.rs:38-55 | Reading a file's bytes gives back every record in full and in order, segments too short lengthened; exit reports alone, which write nothing, are not there. |
| TraceRoundTrip.RecordsReadBack | src/perfetto.rs:113-215 | The records found among the items are those that were written. |
| TraceRoundTrip.SegmentReadsBack | src/perfetto.rs:136-175 | A segment's two items say all of it, an empty one lengthened to the shortest there is. |
| TraceRoundTrip.OpenReadsBack | src/perfetto.rs:177-197 | An open's item says all of it. |
| TraceRoundTrip.RenameReadsBack | src/perfetto.rs:199-215 | A rename's item says all of it. |
| TraceRoundTrip.SliceReadsBack | src/perfetto.rs:233-272 | A compiler slice's two items say all of it: owner, track, backend, category, name, start, end and detail, an end past 64 bits as the greatest there is. |
| TraceRoundTrip.TracksAreDistinct | src/perfetto.rs:385-398 | Processes, files, compilers and the build have tracks of their own. |
| TraceRoundTrip.CompilerTracksAreDistinct | src/perfetto.rs:393-407 | Two compiler tracks are one if and only if pid, backend and the thread's low 29 bits agree. |
| WholeRecording.FileTellsKernelHistory | src/macos.rs:397-397 | From kernel records to the bytes of the finished file: a reader finds every record; for every pid the segments of its lives in kernel order with the texts of its programs, one still open ended as recording did; and the files the recording tells of. |
| WholeRecording.RecordingNumbers | src/macos/recon.rs:319-342 | Every pid, descriptor and flag a recording reports fits its field if the kernel's pids do. |
| WholeRecording.SegmentsAsRead | src/perfetto.rs:136-175 | The segments among the records read are those the tracker wrote, pid by pid, lengthened as the writer does. |
| Seccomp.BuildFilter | src/linux/seccomp.rs:15-25 | The loop builds the program, and its length is passed in 16 bits. |
| Seccomp.FilterTracesJustTheList | src/linux/seccomp.rs:15-21 | For any list and any call, the program halts within n + 2 instructions, inside the program, and traces exactly the calls listed. |
| Seccomp.WorksJustWhenItFits | src/linux/seccomp.rs:22-25 | The filter works if and only if its length fits the 16 bits it is passed in. |
| Seccomp.TracedIsOpenOrRename | src/linux/seccomp.rs:44-86 | What is traced is exactly what the tracer tells apart as opens and renames. |
| LinuxObject.LiveTracer.constructor | src/linux.rs:76-115 | The tracer starts with the root known, started and let go. |
| LinuxObject.LiveTracer.HandleStatus | src/linux.rs:170-201 | One status: a task is registered, its first stop consumed once, and the stop handled. |
| LinuxObject.LiveTracer.HandleKind | src/linux.rs:194-233 | Dispatch of a stop by its kind. |
| LinuxObject.LiveTracer.RegisterNewborn | src/linux.rs:439-482 | Registers a task, and its process if that is new. |
| LinuxObject.LiveTracer.StartProcess | src/linux.rs:460-480 | Starts a process in the trace and the table, under the build parent of now. |
| LinuxObject.LiveTracer.RanProgram | src/linux.rs:356-437 | An exec adopts an unknown process; a first program names the segment, a later one ends it. |
| LinuxObject.LiveTracer.EnteredCall | src/linux.rs:235-304 | Reads what a filtered call means to do: the model's step, which `LinuxCalls.CallsLeaveWhatTheyPass` pins by the call's parameters. |
| LinuxObject.LiveTracer.LeftCall | src/linux.rs:306-354 | A call's end leaves a record if it succeeded. |
| LinuxObject.LiveTracer.TaskExited | src/linux.rs:484-511 | A task's exit forgets it, and ends its process if it was the last. |
| LinuxObject.LiveTracer.Forget | src/linux.rs:485-490 | Every table forgets the task. |
| LinuxObject.LiveTracer.EndIfLast | src/linux.rs:497-510 | A process ends once none of its tasks is left. |
| LinuxObject.LiveTracer.LetGo | src/linux.rs:521-523 | A task is let go on. |
| LinuxObject.LiveTracer.LetGoWithMode | src/linux.rs:513-519 | A task with a call pending is let go on only until the call's end. |
| LinuxObject.LiveTracer.Finish | src/linux.rs:203-209 | Ends every process still open, in any order of the table. |
| LinuxProofs.AlwaysWatches | src/linux.rs:513-519 | Over any run of one call at a time, a task with a call pending is always let go on in the mode that stops at its end. |
| LinuxProofs.StopLetsGo | src/linux.rs:187-201 | Every stop lets its task go on exactly once, with the signal it stopped for but for its first stop's, and until its call's end just if it enters one or has one pending. |
| LinuxProofs.RootExitCodeIsItsLast | src/linux.rs:484-495 | Over any run, the exit code of the build is that of its root's last exit. |
| LinuxProofs.FilesAreExactlyWhatSucceeded | src/linux.rs:235-354 | A task never waits for both an open and a rename, and the trace is told exactly the opens and renames that succeeded, each once, and none that failed. |
| LinuxCalls.CallsLeaveWhatTheyPass | src/linux.rs:235-354 | Over any run of calls as programs make them: an open that succeeded leaves its own path and flags, a rename its old and its new path, each under its own directory, in the order they end, and nothing else is left of files. |
| LinuxCalls.IntentIs | src/linux.rs:250-300 | Of each kind of call, what is read as it starts is what its parameters say. |
| LinuxProofs.ProcessesAreConserved | src/linux.rs:484-511 | Over any run, each process started has exactly one final segment and one exit report, unless it is still open. |
| LinuxProofs.FinishEndsEach | src/linux.rs:203-209 | When the loop ends, each process still open has its last segment written once, ended then, and no other process has any. |
| LinuxKernel.FollowedJustWhenOrderly | src/linux.rs:178-211 | Of the runs the kernel may report, the tracer takes births, programs and deaths for what they are at every point if and only if the run is orderly. |
| LinuxKernel.TakenRightJustWhen | src/linux.rs:213-230 | Of any one report: it is taken for what it is if and only if the tracer can follow it; otherwise an exit is taken for its process's end though a task is left, or a thread for the parent of a process not known. |
| LinuxKernel.TasksAreLive | src/linux.rs:213-230 | Along any orderly run, the tracer's tasks are the kernel's live tasks that have been named, and its open processes are those that have a task, if their leader has been named. |
| LinuxKernel.RunTracks | src/linux.rs:178-211 | Along any orderly run, the tracer's tables and what it takes of lives are what the kernel's task table says. |
| LinuxKernel.EndsWithItsLastTask | src/linux.rs:484-511 | At any exit after an orderly run, the last segment of the process is written, with the exit's code, if it was the last live task or no task left has been named, and nothing is written otherwise. |
| LinuxKernel.ParentIsRightJustWhen | src/linux.rs:213-226 | At any clone event after an orderly run, the process that starts, if one does, has the cloner's process for its parent if and only if the tracer can follow the event; otherwise it has the thread. |
| LinuxKernel.RacesAreOrderly | src/linux.rs:144-145 | The orders of a child's clone event, first stop, program and exit that the tracer is made for are orderly. |
| LinuxKernel.ThreadsMayCloneThreads | src/linux.rs:215-226 | So is a run in which a thread of the root clones another before it has been named. |
| LinuxKernel.ExecByAThreadStays | src/linux.rs:356-357 | From a new tracer: a program run by a thread of the root leaves the thread's entry, so the root stays open after its last exit. |
| LinuxKernel.UnnamedThreadIsTakenForAParent | src/linux.rs:215-222 | From a new tracer: a thread of the root that forks a process before its own clone event is reported is told as its parent. |
| LinuxKernel.UnnamedThreadIsNotWaitedFor | src/linux.rs:497-499 | From a new tracer: the root is ended as it exits, though a thread of it that has not been named is left. |
| LinuxEndToEnd.SegmentsTellKernelLives | src/linux.rs:155-211 | Along any orderly run, and with what is still open ended, the segments written of every pid are exactly those of the kernel's processes, with parent, build parent, name, command, directory, wrapper mark, bounds and exit code. |
| LinuxEndToEnd.LinuxLivesAreTiled | src/linux.rs:383-406 | The segments written of a process that ended stand together in the sink, one a program or one in all, without gap from the naming of its leader to its last task's exit. |
| LinuxEndToEnd.LinuxBuildParents | src/linux.rs:529-536 | Each segment is of one process of its pid, and its build parent is the walk up the fork tree from that process's own birth, past every ancestor that had run no program then. |
| WholeLinuxRecording.LinuxFileTellsLives | src/linux.rs:155-211 | From the kernel's reports to the bytes of the finished file: a reader finds every record, and for every pid the segments of the kernel's processes with the texts read of their programs, one still open ended as recording did. |
| CloneRace.OrderDoesNotMatter | src/linux.rs:178-233 | Whatever order a new process's clone event, first stop and exec come in, and whatever stops of these two tasks and of others come between, the tracer ends with the same task, process, parent and build parent, started once. |
| CloneRace.RaceCanBegin | src/linux.rs:83-113 | The race can be on as soon as the root runs. |
| CloneRace.TheThreeOrders | src/linux.rs:144-145 | The three orders there are lead to where all has been reported. |
| CloneRace.AsideStands | src/linux.rs:178-233 | Calls, signals and further clones of the child or the task that cloned it, and any stop or exit of another, leave the race where it stands. |
| CloneRace.NextStopClears | src/linux.rs:178-181 | A leftover registration is cleared by the child's next stop, which changes nothing else of it. |
| LateClones.ExitForgets | src/linux.rs:484-490 | A task's exit leaves none of its entries. |
| LateClones.OnlyItsExitForgets | src/linux.rs:155-201 | No other stop takes a task from the tables, and one that does not tell of it leaves its entries as they were. |
| LateClones.EntriesAfterAnExit | src/linux.rs:215-226 | Over any run, a task has an entry after its last exit if and only if a stop of it or a clone event that names it was reported since; after such a clone event it is waited for to the end. |
| LateClones.LateCloneIsForGood | src/linux.rs:215-226 | Four reports from a new tracer that get there: all has exited, and the tracer still waits for the child and has it open. |

## Left out

- Kernel calls and `/proc` reads: `sysctl`, `ptrace`, `waitpid`, `process_vm_readv` and the file system are oracles, one answer for each step or each read.
- `io::Error` propagation, tracees that die while a stop is handled, and sinks that fail.
- `CollectorModel.State.window`: the retry window is any fixed number of ticks; `ticks_per_ns`, a floating-point quotient, is not modelled, nor is a deadline past 64 bits.
- Counters of events, descriptors and lengths are unbounded; timestamps, arguments and ids have the source's 64 bits. Nothing is proved of the counts `dropped`, `started` and `unnamed`, which are only shown.
- Which processes are followed (`KernelFiles.Follows`) is taken from the collector's table: it depends on when exits are believed.
- Text is bytes: lossy UTF-8 decoding, and a program's display name (`file_name`, the wrapped compiler), are not modelled; `TrackerModel.Titles` and `LinuxModel.Program` stand for the latter.
- EndToEnd.SegmentsTellKernelHistory: which ends leave nothing is told by the recording, where opens the flush places come last; `EndToEnd.SilenceIsKernelOrder` says how that differs from kernel order.
- CloneRace.OrderDoesNotMatter: when the segment starts differs between orders, as it does in the source.
- Wire.Encoder.Encode: a closure that encodes a message is a tree of its fields, so one that wrote different fields on its two passes is not modelled.
- TraceObject.Writer.WritePacket: packets are taken to be shorter than 2^64 bytes; compression, buffering and file creation are left out.
- The extension descriptor and the trace attributes (`extension_descriptor`, `trace_attributes`, `collection_options`, `data_loss`), and the display names of compiler tracks: fixed contents that no id depends on.
- Seccomp.BuildFilter: system call numbers are parameters of the architecture; installing the filter is left out.
- The command line, browser hand-off, downloads, reports, compiler wrappers, profile import, blind spots and the Python tooling: separate from what is proved here.
