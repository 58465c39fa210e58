# Agent Overflow, verified core

A Dafny model of the parts of Agent Overflow whose behaviour is hard to see from any one
function, with proofs about every input, every run or every reachable state. Code that
changes state in the repository changes state here: classes with the source's fields,
arrays sorted and compacted in place, loops with invariants. Each is proved against a
specification, and what the repository promises is proved of that specification.

| module | what it models |
|---|---|
| Trace, TraceLaws | forced-layout trace events folded into call-site tallies, ranked, merged over repeats and cut to 15 |
| Supervisor, SupervisorProtocol, SupervisorSteps, SupervisorSafety, SupervisorProgress, SupervisorCalm | the update request slot with its one-way "outcome unknown" latch, and every interleaving of requesters, reader and timeouts |
| Reverb, ReverbLaws, ReverbImpulse | the notification sounds' comb and all-pass loop over circular buffers, its recurrences, and 16-bit quantising |
| ProcStat, ProcTree, ProbeScript | `/proc` stat lines, the breadth-first process tree, and the shell probe's fixpoint loop |
| Launcher, LaunchGuard | launch, probe, stop, migrate and relaunch, with errors as trees; overlapping picks and Retry presses |
| PortPin | the pinned listen port over sequences of boots |
| DesktopApplier | the desktop update helper and its one-shot Retry, interleaved |
| Fingerprint, Canonical, DistHash | length-framed fingerprints, canonical lists, the bundle digest's stream |
| FlagParse, PidList | flags between positionals, and the pid list flag |
| BenchMetrics, Baseline | nearest-rank aggregates and the drift gate |
| Sorting, Text, Decimal | what the standard library promises: sorted permutations, string order, split and join, decimal text |

Sorting is modelled by the contract of a comparison sort, any sorted permutation, so nothing
can depend on the algorithm; ranging over a map takes its keys in an arbitrary order.

Where the code does less than its documentation or a natural reading says, the code is
modelled as it is, the reading is shown to fail on a concrete input, and the exact condition
is proved:

- *No request is sent once the update's outcome is unknown.* The guard is checked when a call
  takes the slot, and the send follows outside the mutex, so a caller holding the slot can
  still send (`SendAfterLatchHappens`). A request can follow the latch exactly when a caller
  admitted before it has not sent yet (`SendsAfterTheLatchIff`), then at most once, and that
  caller is only told that the outcome is unknown.
- *Any added, removed, renamed or rewritten file changes the bundle digest.* Two files are
  imitated by one whose content spells the second (`OneFileImitatesTwo`). The trees whose
  stream no other tree has are exactly the empty one and a single file whose content holds no
  path between zero bytes (`IdentifiedIff`); among trees without zero bytes in contents
  there are no two with one stream.
- *Flags may stand anywhere.* A flag whose separate value is `--` ends flag parsing and loses
  its value: `-m --` fails with nothing set (`DashesMessageIsLost`). The reading is right
  exactly when there is none (`ReadAsIntendedIff`).
- *A pin never fails two boots running.* With port 8080 pinned, out of reach, and a file that
  cannot be removed, it does (`PinFailsTwice`); the next boot asks for the same pin exactly
  when the removal failed (`FailedPinIsDropped`).
- *A recorded backend refuses another launch.* A stop that failed has already forgotten the
  backend it left behind: a pick whose evidence cannot be written and whose backend is not
  confirmed stopped, then a clean pick, and the second launch begins beside the first's
  backend (`PickBesideAStrandedBackend`). A life of picks one after another is safe exactly
  when no pick that starts or migrates something comes, while nothing is recorded, after one
  whose stop fails (`PickInTurn`, `SafeLifeIff`); each of these is told from the picks' scripts.
- *The launcher is single-shot for a process lifetime.* The recorded backend is read before
  the flag that keeps launches apart is taken, and the boot's own launch never reads it, so
  two picks, or a pick and the boot, can both launch (`SecondPickLaunchesToo`,
  `BootLaunchesBesideAPick`). From any state with a backend recorded another launch can begin
  beside it exactly when some thread is past that check (the boot's, a pick, or a Retry with an
  offer standing), is a Retry about to take an offer, or is launching: a launch that stops one
  backend and starts another leaves the record empty in between (`AnotherLaunchIff`). These
  are statements about calls to the bound methods; the pages decide what a person can press,
  and with a distro chosen the window opens on the loading page, not the picker.

One law needs a hypothesis that the source's data meets: a report gated on its own aggregate
drifts exactly for a metric whose median is negative (`SelfComparison`). Every metric of the
vocabulary is a count, a size, a time, a rate or a score, so a negative one can only come from
a malformed page report, as in `NegativeMedianDrifts`; non-negative samples never drift
(`NonNegativeNeverDrifts`).

## Model

| member | source | states |
|---|---|---|
| Trace.GroupCell.Add | cmd/ao-harness/bench_trace.go:349-352 | the in-place update of a tally adds the row and touches nothing else |
| Trace.Tally | cmd/ao-harness/bench_trace.go:256-268 | one row more: the map of cells, no two of them shared, holds exactly the table of the rows so far |
| Trace.TallyEvent | cmd/ao-harness/bench_trace.go:247-269 | one event adds a row exactly if it is a forced pass with a stack, counts as scheduled exactly if it has none |
| Trace.SummarizeForcedLayout | cmd/ao-harness/bench_trace.go:242-274 | the one summary of the events |
| Trace.OneSummary | cmd/ao-harness/bench_trace.go:242-274 | which is the totals, and the ranking of the table of the events' contributions |
| Trace.RankingExists | cmd/ao-harness/bench_trace.go:276-295 | every table has a ranking |
| Trace.SortGroups | cmd/ao-harness/bench_trace.go:276-295 | whatever order the map is ranged over, the result is the ranking of its values |
| Trace.RanksAboveIsStrictWeakOrder | cmd/ao-harness/bench_trace.go:281-293 | the three-key comparator is one a sort may be given |
| Trace.RanksAboveIsTotalOnFrames | cmd/ao-harness/bench_trace.go:281-293 | on groups with distinct frames it leaves no ties |
| Trace.RankingIsUnique | cmd/ao-harness/bench_trace.go:276-295 | a map has one ranking |
| Trace.GroupingConserves | cmd/ao-harness/bench_trace.go:242-274 | grouping by frame keeps the sum of counts, passes and milliseconds |
| Trace.SummaryConserves | cmd/ao-harness/bench_trace.go:242-274 | forced events equal the sum of counts and the sum of style and layout passes; forced ms the sum of ms |
| Trace.TallyAll | cmd/ao-harness/bench_trace.go:342-353 | the inner merge loop adds every group of one summary |
| Trace.AddUp | cmd/ao-harness/bench_trace.go:335-354 | after the outer loop the counters are the totals and the map the table of all the groups |
| Trace.KeepTop | cmd/ao-harness/bench_trace.go:355-360 | the first 15, and how many are left out |
| Trace.MergeTraceSummaries | cmd/ao-harness/bench_trace.go:331-362 | nil exactly for no summaries; otherwise the one merge of them; no input summary is written, and none shares its groups |
| Trace.OneMerge | cmd/ao-harness/bench_trace.go:331-362 | the merge is the sums of the totals and the top of the ranking of all the groups |
| Trace.MergeIsSummaryOfConcatenation | cmd/ao-harness/bench_trace.go:331-362 | merging the summaries of any event lists is summarising their concatenation and cutting it |
| Trace.TruncatedIsTheRest | cmd/ao-harness/bench_trace.go:355-359 | Truncated is the number of distinct frames past 15 |
| Trace.CutOfRanking | cmd/ao-harness/bench_trace.go:355-360 | the cut and the number left out are settled by the table |
| Trace.CutKeepsTheTop | cmd/ao-harness/bench_trace.go:355-360 | every group the cut drops ranks below every group kept |
| TraceLaws.CountsAtTheFirstFrame | cmd/ao-harness/bench_trace.go:245-270 | a Layout or UpdateLayoutTree event counts once, as what it is, with its milliseconds, at the first frame of its stack, whatever is below |
| TraceLaws.NothingElseCounts | cmd/ao-harness/bench_trace.go:248-255 | no other event counts, and none without a stack; of those only the two names are scheduled passes |
| TraceLaws.KeysTellFramesApart | cmd/ao-harness/bench_trace.go:318-327 | two named functions of scripts share a key exactly when name, script, line and column agree |
| TraceLaws.KeysReadAsWritten | cmd/ao-harness/bench_trace.go:318-327 | the parts stand as name@url:line:column; without a name or a script there is still a key |
| TraceLaws.DroppedIsOutranked | cmd/ao-harness/bench_trace.go:285-293 | every one of the fifteen kept has more forced passes than a dropped one, or as many and more milliseconds, or as many of both and an earlier name |
| TraceLaws.MostForcedFirst | cmd/ao-harness/bench_trace.go:281-294 | a summary and a merge list their call sites in that order |
| Supervisor.ServeSupervisor.constructor | main_serve_supervisor.go:90-134 | starts unlatched, with an empty slot and committed open |
| Supervisor.ServeSupervisor.BeginRequest | main_serve_supervisor.go:250-264 | refused by the latch first, then by a waiting request; otherwise takes the slot |
| Supervisor.ServeSupervisor.Deliver | main_serve_supervisor.go:200-208 | empties the slot and gives the waiter, if any, exactly this answer |
| Supervisor.ServeSupervisor.FailPending | main_serve_supervisor.go:215-234 | keeps the first cause, closes restart on that call only, gives the waiter the latched failure |
| Supervisor.ServeSupervisor.CloseCommitted | main_serve_supervisor.go:190-198 | committed is closed, however often it is asked |
| Supervisor.ReplyChannel.Put | main_serve_supervisor.go:251-251 | a channel with room for one value takes one |
| SupervisorSafety.StepKeeps | main_serve_supervisor.go:166-294 | every step of every thread keeps the protocol invariant |
| SupervisorSafety.RunKeeps | main_serve_supervisor.go:166-294 | every run keeps it |
| SupervisorSafety.AnswersAreTheCallersOwn | main_serve_supervisor.go:250-294 | an answer returned to a caller is the answer to the request that caller sent |
| SupervisorSafety.PutsNeverBlock | main_serve_supervisor.go:200-234 | every put finds its channel empty and never used: no sender blocks, each waiter gets at most one value |
| SupervisorProgress.EveryCallCanMove | main_serve_supervisor.go:250-294 | until a call returns it has a step of its own that waits for nobody |
| SupervisorProgress.CallsReturnInFour | main_serve_supervisor.go:250-294 | and returns within four of them |
| SupervisorSafety.RestartClosesWithTheLatch | main_serve_supervisor.go:215-222 | restart is closed exactly once, exactly when the outcome is unknown |
| SupervisorSafety.LatchIsForever | main_serve_supervisor.go:215-222 | the latch is never lifted, keeps its cause, and admits no call |
| SupervisorSafety.LateSendIsTheHolders | main_serve_supervisor.go:266-270 | at most one request follows the latch, from the caller admitted and unsent at that moment, who learns only that the outcome is unknown |
| SupervisorSafety.SendsAfterTheLatchIff | main_serve_supervisor.go:253-270 | a request can follow the latch exactly when an admitted caller has not sent |
| SupervisorSafety.SendAfterLatchHappens | main_serve_supervisor.go:253-270 | a run in which one does |
| SupervisorSafety.SlotHolderGetsWhateverArrives | main_serve_supervisor.go:200-208 | the slot is uncorrelated: whoever waits gets the next answer, a refusal with its reason, an acceptance with its receipt |
| SupervisorCalm.BeginTells | main_serve_supervisor.go:252-264 | a call is told at once that the outcome is unknown or another waits, and then takes no slot |
| SupervisorCalm.ReceiveTells | main_serve_supervisor.go:271-293 | a waiting caller is told exactly what its channel holds; only an acceptance without a receipt makes it fail |
| SupervisorCalm.OnlyTroubleLatches | main_serve_supervisor.go:166-294 | over every run the outcome becomes unknown only by a failed send, a late answer, a broken channel or an acceptance without a receipt; no refusal does it |
| SupervisorCalm.TroubleIff | main_serve_supervisor.go:166-294 | in every run there has been trouble exactly when the outcome is unknown or a thread is about to make it so |
| SupervisorCalm.RestsUnknownIff | main_serve_supervisor.go:166-294 | once every call has returned and the reader is not failing, the outcome is unknown exactly if there was trouble |
| SupervisorCalm.TroubleSettles | main_serve_supervisor.go:215-232 | a caller in trouble latches the first cause, closes restart, empties the slot, tells the waiter that cause and returns it |
| SupervisorCalm.TroubleNamed | main_serve_supervisor.go:267-281 | a failed send and a late answer each give their own cause |
| SupervisorCalm.BreakTells | main_serve_supervisor.go:168-181 | a channel that breaks tells a waiting caller so and stops the reader; with nobody waiting it only stops it |
| Reverb.RingStep | scripts/gen-notification-sounds.py:239-243 | a ring buffer with a wrapping index holds the last len values: the cell read is the one written len samples ago |
| Reverb.CombTick | scripts/gen-notification-sounds.py:239-244 | one sample through a comb's buffer and store is the recurrence y(n)=w(n-L), s(n)=(1-damp)y(n)+damp s(n-1), w(n)=x(n)+room s(n) |
| Reverb.AllpassTick | scripts/gen-notification-sounds.py:246-250 | one sample through an all-pass is out=y-in, b(n)=in+y/2, y=b(n-L) |
| Reverb.CombOne | scripts/gen-notification-sounds.py:239-244 | one comb's turn moves its buffer, index and store on and no other's |
| Reverb.CombPass | scripts/gen-notification-sounds.py:238-244 | the comb loop sums the eight recurrences and leaves every buffer at n+1 |
| Reverb.AllpassPass | scripts/gen-notification-sounds.py:245-250 | the all-pass loop is the four stages in series |
| Reverb.Tick | scripts/gen-notification-sounds.py:236-251 | one sample of a channel |
| Reverb.FillChannel | scripts/gen-notification-sounds.py:235-251 | the sample loop fills the channel with the buffer-free wet signal |
| Reverb.ReverbChannel | scripts/gen-notification-sounds.py:229-252 | the same from zeroed buffers, for any input length and parameters |
| Reverb.ReverbStereo | scripts/gen-notification-sounds.py:213-253 | left and right are the wet signal without and with the spread |
| ReverbLaws.WetStartsSilent | scripts/gen-notification-sounds.py:226-251 | zero before predelay + 1116 samples (+ the spread) |
| ReverbLaws.WetIsCausal | scripts/gen-notification-sounds.py:226-251 | a wet sample depends only on input at least that old |
| ReverbLaws.CombBounded | scripts/gen-notification-sounds.py:239-243 | a comb's cells, store and output stay within a level its loop cannot leave |
| ReverbLaws.StageBounded | scripts/gen-notification-sounds.py:245-250 | each all-pass stage at most triples its input bound |
| ReverbLaws.WetBounded | scripts/gen-notification-sounds.py:226-251 | for input within M every store and cell is within M/(1-room), the output within 8*81*M/(1-room) |
| ReverbLaws.WetLinear | scripts/gen-notification-sounds.py:226-251 | the wet signal of a mix of inputs is the mix of the wet signals |
| ReverbImpulse.CombEcho | scripts/gen-notification-sounds.py:239-243 | a comb gives a unit hit back after its length, keeps 1 - damp of it, fading by damp a sample, and gives room times that a length later |
| ReverbImpulse.DefaultEcho | scripts/gen-notification-sounds.py:213-218 | 0.75 kept and 0.69 given back with the sounds' own room and damping |
| ReverbImpulse.AllpassEcho | scripts/gen-notification-sounds.py:245-250 | an all-pass gives it at once turned over, whole after its length and halved after twice that, less what comes in by then |
| ReverbImpulse.FirstSound | scripts/gen-notification-sounds.py:226-251 | the first wet sample is the first dry one, after the predelay and the shortest comb |
| ReverbImpulse.SamplesInNumbers | scripts/gen-notification-sounds.py:291-293 | full, half and no scale in 16-bit numbers, and the cut past full scale |
| ReverbImpulse.GainFades | scripts/gen-notification-sounds.py:290-291 | the gain is 1 until the last frames, then the share of the fade that is left |
| ReverbLaws.QuantiseFrame | scripts/gen-notification-sounds.py:292-293 | one frame is a sample of every channel |
| ReverbLaws.Quantise | scripts/gen-notification-sounds.py:284-294 | the frames in order, each sample fitting 16 bits |
| ReverbLaws.FramesFit | scripts/gen-notification-sounds.py:289-293 | whatever the channels hold, every sample of the frames does |
| ReverbLaws.GainWithin | scripts/gen-notification-sounds.py:290-291 | the fade's gain lies in (0, 1] |
| ReverbLaws.FramesInterleave | scripts/gen-notification-sounds.py:284-294 | sample c of frame i lands at i times the channels plus c |
| ReverbLaws.SampleLaws | scripts/gen-notification-sounds.py:291-293 | a sample fits 16 bits, keeps its input's sign and never grows in the fade |
| ProcStat.AcceptedIff | cmd/agent-overflow-windows/wsl_memory_watchdog_windows.go:40-68 | a line is accepted exactly when it reads as a positive pid, a space, a name, its last closing delimiter and accepted fields, and then it says what they say |
| ProcStat.FieldsAcceptedIff | cmd/agent-overflow-windows/wsl_memory_watchdog_windows.go:50-67 | fields are accepted exactly when there are twenty-two and the four read are numbers in range |
| ProcStat.MalformedIff | cmd/agent-overflow-windows/wsl_memory_watchdog_windows.go:41-49 | a line is malformed exactly when only an empty pid can be read from it, and its pid is invalid exactly when what it reads as is no positive number |
| ProcStat.FieldsRejectedIff | cmd/agent-overflow-windows/wsl_memory_watchdog_windows.go:51-66 | which of the four errors fields that are not accepted get |
| ProcStat.CutIsTheReading | cmd/agent-overflow-windows/wsl_memory_watchdog_windows.go:41-45 | a line has one reading, and the cut at its first space and last closing delimiter finds it |
| ProcStat.AcceptedShape | cmd/agent-overflow-windows/wsl_memory_watchdog_windows.go:40-68 | whatever is accepted has the shape of a printed line, cut at its first space and last closing delimiter |
| ProcStat.LastClose | cmd/agent-overflow-windows/wsl_memory_watchdog_windows.go:42-42 | the last place a command name can close |
| ProcStat.ParseOfRender | cmd/agent-overflow-windows/wsl_memory_watchdog_windows.go:40-68 | a printed line is read by its fields alone, whatever the command name holds |
| ProcStat.ParseUndoesRender | cmd/agent-overflow-windows/wsl_memory_watchdog_windows.go:36-68 | pid, parent, start time and resident pages come back |
| ProcTree.LoadLines | cmd/agent-overflow-windows/wsl_memory_watchdog_windows.go:77-88 | the table of the lines, or the first thing wrong with them |
| ProcTree.Admit | cmd/agent-overflow-windows/wsl_memory_watchdog_windows.go:71-91 | what passes the checks has one entry a line, within the limit, the root among them |
| ProcTree.AdmittedIff | cmd/agent-overflow-windows/wsl_memory_watchdog_windows.go:70-91 | the walk is reached exactly with positive limits, few and short enough lines that all parse, no pid twice and the root among them, and walks the table of what they say |
| ProcTree.ChecksInOrder | cmd/agent-overflow-windows/wsl_memory_watchdog_windows.go:71-76 | limits that are not positive are reported first, then too much input |
| ProcTree.FirstBadLineIsReported | cmd/agent-overflow-windows/wsl_memory_watchdog_windows.go:79-83 | the first line that does not parse is what is reported |
| ProcTree.FirstRepeatIsReported | cmd/agent-overflow-windows/wsl_memory_watchdog_windows.go:84-86 | so is the first that repeats a pid |
| ProcTree.LinkChildren | cmd/agent-overflow-windows/wsl_memory_watchdog_windows.go:92-94 | every process is listed under its parent, in whatever order the map is ranged over |
| ProcTree.QueueChildren | cmd/agent-overflow-windows/wsl_memory_watchdog_windows.go:105-111 | queues every unseen child once |
| ProcTree.Visit | cmd/agent-overflow-windows/wsl_memory_watchdog_windows.go:98-111 | emits one process and keeps the walk's invariant |
| ProcTree.Walk | cmd/agent-overflow-windows/wsl_memory_watchdog_windows.go:95-113 | ends, for any parent graph with or without cycles, with the tree; the limit tested inside never fires |
| ProcTree.CollectTree | cmd/agent-overflow-windows/wsl_memory_watchdog_windows.go:70-114 | fails exactly with the first failed check; otherwise the processes reachable from the root, each once, root first, each after its parent |
| ProcTree.TreesAgree | cmd/agent-overflow-windows/wsl_memory_watchdog_windows.go:92-113 | any two listings of the tree hold the same entries, so map order does not show |
| ProbeScript.SubstringIsMembership | cmd/agent-overflow-windows/wsl_memory_watchdog_windows.go:386-388 | searching the padded list for " token " is looking the token up |
| ProbeScript.ListedIffMember | cmd/agent-overflow-windows/wsl_memory_watchdog_windows.go:386-388 | the case patterns decide membership of the numbers |
| ProbeScript.ShellReadsTheFields | cmd/agent-overflow-windows/wsl_memory_watchdog_windows.go:381-385 | stripping up to the last ") " leaves exactly the fields, whatever the name holds |
| ProbeScript.LoadOfSnapshot | cmd/agent-overflow-windows/wsl_memory_watchdog_windows.go:77-88 | the walk reads a snapshot's lines as the table the script works on |
| ProbeScript.Consider | cmd/agent-overflow-windows/wsl_memory_watchdog_windows.go:380-388 | one entry: adds the child of a member, and nothing else |
| ProbeScript.Scan | cmd/agent-overflow-windows/wsl_memory_watchdog_windows.go:378-389 | one pass in any order; unchanged means every entry is settled |
| ProbeScript.Closure | cmd/agent-overflow-windows/wsl_memory_watchdog_windows.go:375-391 | the loop ends, on a limit or with exactly the processes under the target, then within the limits |
| ProbeScript.LimitIff | cmd/agent-overflow-windows/wsl_memory_watchdog_windows.go:376-387 | it ends on a limit exactly for a tree that is too big, in whatever order it scans |
| ProbeScript.BoundedClosure | cmd/agent-overflow-windows/wsl_memory_watchdog_windows.go:375-391 | so whether it ended on a limit tells of the whole tree, and which limit of its size |
| ProbeScript.PagesOf | cmd/agent-overflow-windows/wsl_memory_watchdog_windows.go:395-402 | the number read for a member is its resident pages; the numeric test never fails |
| ProbeScript.Total | cmd/agent-overflow-windows/wsl_memory_watchdog_windows.go:392-404 | page size times the sum over the members |
| ProbeScript.SumPagesOfPermutation | cmd/agent-overflow-windows/wsl_memory_watchdog_windows.go:393-404 | the sum does not depend on the order |
| ProbeScript.Sample | cmd/agent-overflow-windows/wsl_memory_watchdog_windows.go:363-406 | stops early exactly for a missing target, another executable or a tree over its limits; else prints page size times the pages of any listing of the tree |
| ProbeScript.WalkAndScriptAgree | cmd/agent-overflow-windows/wsl_memory_watchdog_windows.go:70-114 | on one snapshot the walk and the script's loop hold the same processes |
| Launcher.Wrap | cmd/agent-overflow-windows/main.go:916-916 | a wrapped or joined error carries the kinds inside it and is never itself one of them |
| Launcher.LauncherApp.LaunchBackend | cmd/agent-overflow-windows/main.go:977-1038 | a start that fails carries the launch-failed class and leaves nothing running; one that succeeds is recorded |
| Launcher.LauncherApp.StopLaunchedBackend | cmd/agent-overflow-windows/main.go:1043-1121 | forgets the live backend first; nil exactly when the wrapper exited, the job stopped, and a published backend's shutdown was confirmed and its reservation released |
| Launcher.LauncherApp.LaunchAndProbe | cmd/agent-overflow-windows/main.go:883-919 | an unreachable backend that was stopped is started once more, and no other failed probe starts anything; launch-failed and bare refusal leave nothing running; a backend is left running exactly when its stop failed or the second failed its probe |
| Launcher.LauncherApp.LaunchAtPath | cmd/agent-overflow-windows/main.go:760-779 | one more attempt exactly when the recorded path was stale and reinstalled |
| Launcher.LauncherApp.ReconcileUpdate | cmd/agent-overflow-windows/update_trial.go:427-489 | proceeds exactly with nothing to recover or after a resumed migration that asks for a launch; that migration runs with nothing launched |
| Launcher.LauncherApp.MigrateBeforeLaunch | cmd/agent-overflow-windows/main.go:782-787 | migrates only once the refusing backend is retired, then launches again |
| Launcher.LauncherApp.LaunchOrMigrate | cmd/agent-overflow-windows/main.go:760-787 | the attempts a script makes and what the last of them leaves; only a bare migration refusal migrates, and launches again only if the migration lets it |
| Launcher.LauncherApp.Present | cmd/agent-overflow-windows/main.go:788-808 | the page, and the teardown when evidence cannot be written |
| Launcher.LauncherApp.LaunchAndShow | cmd/agent-overflow-windows/main.go:730-850 | whatever was recorded before, no launch and no migration begins while a backend of the run is unretired; at most five starts; from the script, whether anything begins, whether a stop fails, whether a backend is recorded and whether its page is shown |
| Launcher.LauncherApp.PickDistro | cmd/agent-overflow-windows/main.go:649-671 | for picks that do not overlap, refused exactly while a backend is recorded; one let through keeps the whole safe exactly unless a stop had failed and its script begins something |
| Launcher.LauncherApp.PickInTurn | cmd/agent-overflow-windows/main.go:649-671 | any list of scripts picked in turn: whether a backend is recorded, a stop has failed and the whole life is safe, all told from the scripts |
| Launcher.SafeLifeIff | cmd/agent-overflow-windows/main.go:649-671 | a life is safe exactly when no pick let through begins something after one whose stop failed |
| Launcher.StrandThenPickCollides | cmd/agent-overflow-windows/main.go:798-808 | two picks that do |
| Launcher.PickBesideAStrandedBackend | cmd/agent-overflow-windows/main.go:649-671 | the same two, made: the second launch begins beside the first's backend |
| Launcher.SafeMeans | cmd/agent-overflow-windows/main.go:898-905 | in a safe run every backend up before a launch or migration has been retired in between |
| Launcher.AfterIdle | cmd/agent-overflow-windows/main.go:649-671 | a launch begun with nothing running is safe within the whole exactly if it is safe itself |
| Launcher.AfterStranding | cmd/agent-overflow-windows/main.go:1043-1056 | a backend left behind stays, and makes whatever begins later unsafe |
| LaunchGuard.OneLaunchAtATime | cmd/agent-overflow-windows/main.go:1555-1566 | with the boot's launch, picks and Retries interleaved, at most one launch runs at a time, exactly while the flag is set, and each offered Retry runs at most one |
| LaunchGuard.OffersStand | cmd/agent-overflow-windows/main.go:684-691 | an offer stands until a Retry takes it, which removes it |
| LaunchGuard.AnotherLaunchIff | cmd/agent-overflow-windows/main.go:649-693 | from any state with a backend recorded, launching or not, another launch can begin beside it exactly when some thread is past the check with a launch to begin, is launching, or is about to take an offer |
| LaunchGuard.LauncherLetsAPickIn | cmd/agent-overflow-windows/main.go:898-908 | a running launch can let a pick read an empty record between its two backends |
| LaunchGuard.SecondPickLaunchesToo | cmd/agent-overflow-windows/main.go:640-661 | a run in which two picks both launch, the second beside the first's backend |
| LaunchGuard.BootLaunchesBesideAPick | cmd/agent-overflow-windows/main.go:1555-1566 | a run of calls in which the boot's launch does, never reading the record |
| PortPin.Pinned | main_transport_port.go:172-190 | a port in range that the file holds, or none |
| PortPin.PinFile.PinTransportPort | main_transport_port.go:79-114 | flag, then setting, then pin; fallback only for a pin; what the file becomes |
| PortPin.PinFile.Adopt | main_transport_port.go:116-140 | records the bound port unless it is the one asked for |
| PortPin.PinFile.ClearOnFailedBind | main_transport_port.go:141-151 | empties the file only for a pinned port |
| PortPin.PinFile.Clear | main_transport_port.go:153-170 | no pin afterwards, if removing works |
| PortPin.PinFile.Store | main_transport_port.go:192-207 | the pin afterwards, if writing works |
| PortPin.Listen | internal/transport/server.go:760-778 | one ephemeral retry, only for a preferred port that was unavailable |
| PortPin.PinFile.Run | main.go:579-638 | a boot's outcome and the file it leaves are the specification's |
| PortPin.ListenLeavesTheFile | main_transport_port.go:79-87 | boots given a port leave the file alone |
| PortPin.ServedIsPinned | main_transport_port.go:116-140 | what a boot serves on is what the next finds |
| PortPin.PortSticks | main_transport_port.go:46-78 | a recorded port, the setting's included, is kept by the next automatic boot unless it cannot be had then |
| PortPin.SettingsNeverFallBack | main_transport_port.go:92-103 | a settings port is served or the boot fails; it is recorded when served |
| PortPin.WhoIsAsked | main_transport_port.go:79-114 | the flag wins over the setting, the setting over the pin, and a reset over the pin |
| PortPin.ListenNeverFallsBack | main_transport_port.go:79-87 | a --listen port is served or the boot fails |
| PortPin.ResetMovesOn | main_transport_port.go:104-114 | a reset boot takes any port and pins it |
| PortPin.PinGivesWay | main_transport_port.go:116-151 | a taken pin gives way to the port that is then pinned; one refused otherwise fails the boot and is dropped |
| PortPin.FailedPinIsDropped | main_transport_port.go:141-151 | after a failed pinned boot the next asks for the same pin exactly if the file could not be removed |
| PortPin.PinFailsTwice | main_transport_port.go:141-170 | two boots in which it does |
| PortPin.ChangesArePaidFor | main_transport_port.go:116-140 | over any run of automatic boots, changes of port are at most the boots whose pin could not be had |
| PortPin.TakenForGoodCostsOne | main_transport_port.go:116-140 | ports taken for good are refused once, however long the run |
| DesktopApplier.Helper.Run | main_update_apply.go:258-316 | every path ends in one page or quit; work only behind the lock |
| DesktopApplier.Helper.LockAndMigrate | main_update_apply.go:260-267 | the lock or a page; behind the lock the migration and what it leads to |
| DesktopApplier.Helper.LockAndApply | main_update_apply.go:298-316 | the lock or a page; behind the lock the apply and what it leads to |
| DesktopApplier.Helper.Lock | main_update_apply.go:318-337 | a lock another backend holds ends the run on a page with nothing begun |
| DesktopApplier.Helper.FinishMigration | main_update_apply.go:339-355 | launch, or a page, with Retry offered exactly when the end asks for it |
| DesktopApplier.Helper.RetryMigration | main_update_apply.go:357-370 | accepted exactly if a page offered it, which it uses up |
| DesktopApplier.Helper.RelaunchApp | main_update_apply.go:372-386 | starts and quits, or a page |
| DesktopApplier.StepKeepsInv | main_update_apply.go:258-390 | every interleaved step keeps the invariant |
| DesktopApplier.WorkFollowsTheLock | main_update_apply.go:318-337 | every apply and migration follows a lock taken |
| DesktopApplier.StartedOnce | main_update_apply.go:302-316 | the app is started at most once, only after an apply that settled or a migration that ended in a launch, in the same thread |
| DesktopApplier.OffersAreEarned | main_update_apply.go:342-355 | a Retry is offered only after a migration that ended in no launch and may be retried |
| DesktopApplier.QuitsAreEarned | main_update_apply.go:372-386 | the helper quits only after starting the app |
| DesktopApplier.IdleRunsInFull | main_update_apply.go:272-296 | a run without work or without the lock is one page |
| DesktopApplier.ApplyRunsInFull | main_update_apply.go:298-316 | an apply's run, event by event: start and quit exactly after a settled apply whose start works |
| DesktopApplier.MigrationRunsInFull | main_update_apply.go:260-296 | a migration's run, by flag or record, event by event |
| DesktopApplier.EachOfferIsTakenOnce | main_update_apply.go:357-370 | offers are acceptances plus the one standing; every thread works at most once |
| DesktopApplier.EndsExactlyOnce | main_update_apply.go:258-390 | the run and every accepted press end in exactly one quit or page, a refused press in none, and can always move on till then |
| DesktopApplier.MovesRunOut | main_update_apply.go:258-390 | six moves of its own finish a thread |
| DesktopApplier.RunLogsTheRun | main_update_apply.go:258-316 | the run of the protocol left alone does what the run method does, on every path |
| DesktopApplier.WorkAlone | main_update_apply.go:302-386 | so does any thread's work and what follows it |
| DesktopApplier.LeavingLogsTheRest | main_update_apply.go:342-386 | and a thread from its outcome on |
| DesktopApplier.PressLogsTheRetry | main_update_apply.go:357-370 | an accepted press left alone does what RetryMigration does |
| Fingerprint.WriteParts | cmd/ao-harness/bench_report_types.go:25-34 | what the hash is fed decodes to the parts |
| Fingerprint.StreamAsWritten | cmd/ao-harness/bench_report_types.go:28-32 | the parts "ab" and "" are written as 2:ab0: |
| Fingerprint.DecodeStream | cmd/ao-harness/bench_report_types.go:28-32 | a reader recovers the parts |
| Fingerprint.DecodedIsStreamed | cmd/ao-harness/bench_report_types.go:28-32 | and reads nothing but streams |
| Fingerprint.StreamInjective | cmd/ao-harness/bench_report_types.go:28-32 | two lists have one stream exactly if they are one list |
| Canonical.Compact | cmd/ao-harness/bench_identity.go:96-96 | compacting a sorted slice in place leaves each element once, in order |
| Canonical.Canonicalise | cmd/ao-harness/bench_identity.go:94-99 | copy, sort, compact: the same elements, strictly increasing |
| Canonical.CanonicalIff | cmd/ao-harness/bench_identity.go:94-99 | one canonical form exactly for the same set |
| Canonical.MonitorIdsIff | cmd/ao-harness/bench_identity.go:94-96 | for monitor ids |
| Canonical.BudgetsIff | cmd/ao-harness/bench_identity.go:97-99 | for budgets |
| DistHash.WriteFile | main_harness_distcheck.go:145-157 | path, zero, content, zero; fails exactly if the file cannot be read |
| DistHash.HashInput | main_harness_distcheck.go:129-160 | the hash is fed the files in path order, from whatever walk order |
| DistHash.ListingIsUnique | main_harness_distcheck.go:126-143 | the stream is settled by the set of paths and contents |
| DistHash.ZeroFreeTreesAreToldApart | main_harness_distcheck.go:126-158 | trees without zero bytes in contents are told apart |
| DistHash.IdentifiedIff | main_harness_distcheck.go:126-158 | the trees no other tree imitates: none or one file, its content holding no path between zero bytes |
| DistHash.MergedImitates | main_harness_distcheck.go:145-158 | two or more files are imitated by one |
| DistHash.PartedImitates | main_harness_distcheck.go:145-158 | a file holding a path is imitated by two |
| DistHash.OneFileImitatesTwo | main_harness_distcheck.go:145-158 | two trees, a with x 0 b 0 y, and a with x and b with y, have one stream |
| DistHash.CompareDist | main_harness_distcheck.go:83-103 | unknown exactly for a file that cannot be read, else match exactly for equal hashes; stale means different files for any hash; match means the same, given no collision and no zero bytes |
| FlagParse.ParseOneIff | cmd/ao-harness/cli.go:149-149 | one argument's parse stops before a positional or the end, ends at --, takes exactly what starts with a well-formed unit, and fails on anything else |
| FlagParse.FlagSet.ParseArgs | cmd/ao-harness/cli.go:149-151 | takes flags up to a positional; Set calls made before an error stay made, the failing one included |
| FlagParse.FlagSet.ParseRounds | cmd/ao-harness/cli.go:147-158 | the rounds end, each dropping an argument |
| FlagParse.FlagSet.ParsePermuted | cmd/ao-harness/cli.go:138-159 | what is set and returned, or set before the failure |
| FlagParse.TakesUnit | cmd/ao-harness/cli.go:149-149 | a well-formed flag unit is taken whole, whatever follows |
| FlagParse.ReadsAsIntended | cmd/ao-harness/cli.go:135-159 | any interleaving leaves every unit's setting in order and returns the positionals in order, then everything after the first -- verbatim |
| FlagParse.DashesValueFails | cmd/ao-harness/cli.go:140-146 | a separate value -- fails the call with only the earlier settings made |
| FlagParse.DashesMessageIsLost | cmd/ao-harness/cli.go:140-146 | -m -- fails with nothing set |
| FlagParse.FailingArgumentFails | cmd/ao-harness/cli.go:149-151 | an argument that fails ends the call with nothing returned and only the Set calls up to it |
| FlagParse.WhatFails | cmd/ao-harness/cli.go:149-149 | an unknown flag, a malformed one and a refused value are such arguments |
| FlagParse.LoneDashIsPositional | cmd/ao-harness/cli.go:149-149 | a lone dash and what does not start with a dash are positionals |
| FlagParse.RefusedLine | cmd/ao-harness/cli.go:138-159 | and refuse the whole line |
| FlagParse.ReadAsIntendedIff | cmd/ao-harness/cli.go:135-159 | read as intended exactly when no separate value is -- |
| FlagParse.SameAsUnitsAlone | cmd/ao-harness/cli.go:135-159 | the flag state is that of parsing the units alone |
| PidList.List.String | main_entry.go:217-223 | the pids, comma-separated |
| PidList.List.Set | main_entry.go:225-234 | appends the fields up to the first that is no pid, fails on that one, keeps what it appended |
| PidList.SetUndoesString | main_entry.go:217-234 | every non-empty list of positive 64-bit pids is read back whole |
| PidList.EmptyListIsRefused | main_entry.go:217-234 | the empty list prints as a value Set refuses |
| PidList.PidReads | main_entry.go:227-230 | space around a pid does not matter, and a number that is not positive, or past 64 bits, is no pid |
| PidList.SetPrinted | main_entry.go:217-234 | on top of whatever a list holds |
| BenchMetrics.MeasuredValues | cmd/ao-harness/bench_report_metrics.go:289-294 | the measured values, in order, the unmeasured absent |
| BenchMetrics.AggregateOver | cmd/ao-harness/bench_report_metrics.go:287-310 | over a vocabulary of distinct names a metric is present exactly if some repeat measured it, with the aggregate of those values |
| BenchMetrics.FixedNamesDiffer | cmd/ao-harness/bench_report_metrics.go:209-266 | the fixed names are distinct |
| BenchMetrics.OnlyTheFrameRateIsBetterHigher | cmd/ao-harness/bench_report_metrics.go:209-266 | of the fixed metrics only the frame rate is better higher |
| BenchMetrics.VocabularyIsDistinct | cmd/ao-harness/bench_report_metrics.go:286-286 | and with the budgets' names still are |
| BenchMetrics.AggregateBenchMetrics | cmd/ao-harness/bench_report_metrics.go:285-310 | the fixed metrics and one for each budget the repeats carry, each present exactly if some repeat measured it, and nothing else |
| BenchMetrics.BenchBudgetMetrics | cmd/ao-harness/bench_report_metrics.go:159-193 | one metric for each budget any repeat carries, in budget order |
| BenchMetrics.RankIsCeil | cmd/ao-harness/bench_report_metrics.go:319-325 | for a fraction in (0, 1] the clamps never act |
| BenchMetrics.PercentileLaws | cmd/ao-harness/bench_report_metrics.go:312-327 | a percentile is a measured value with at least ceil(f n) at or below it and n - ceil(f n) + 1 at or above |
| BenchMetrics.AggregateOrder | cmd/ao-harness/bench_report_metrics.go:298-307 | Min <= P50 <= P95 <= Max, and Min and Max bound every sample |
| BenchMetrics.MediansAndTails | cmd/ao-harness/bench_report_metrics.go:298-307 | P50 and P95 are samples: at least half, or 95 in 100, no greater, and more than half, or 5 in 100, no smaller |
| BenchMetrics.BudgetReading | cmd/ao-harness/bench_report_metrics.go:178-191 | a budget is read exactly when the page was there, measured, ticked and has a fit for it, and what is read is its first |
| BenchMetrics.OneRepeat | cmd/ao-harness/bench_report_metrics.go:312-314 | one repeat is every percentile |
| BenchMetrics.RepeatsInAnyOrder | cmd/ao-harness/bench_report_metrics.go:281-310 | permuting the repeats changes no metric's aggregate, nor whether it has one |
| BenchMetrics.BudgetsInAnyOrder | cmd/ao-harness/bench_report_metrics.go:153-193 | nor the budgets' metrics |
| BenchMetrics.AggregateInAnyOrder | cmd/ao-harness/bench_report_metrics.go:285-310 | so the whole answer is the same map |
| Baseline.Tolerances | cmd/ao-harness/bench_report_baseline.go:56-65 | one tolerance a name, an explicit budget winning |
| Baseline.CompareToBaseline | cmd/ao-harness/bench_report_baseline.go:55-85 | every baseline name lands once, compared if measured and unmeasured if not, in name order |
| Baseline.VerdictIsUnique | cmd/ao-harness/bench_report_baseline.go:55-85 | map order does not show |
| Baseline.WorseDriftsToo | cmd/ao-harness/bench_report_baseline.go:87-143 | a worse number never passes where a better one drifts |
| Baseline.DriftIff | cmd/ao-harness/bench_report_baseline.go:87-143 | an explicit limit decides alone; else the reference by more than the percentage given, or 25; never without a reference |
| Baseline.ExplicitBudgetWins | cmd/ao-harness/bench_report_baseline.go:55-110 | in a verdict an explicit ceiling or floor decides whatever the aggregate says; a name only the aggregate has is held to its median, 25 percent either way |
| Baseline.SelfDriftIff | cmd/ao-harness/bench_report_baseline.go:87-143 | against its own aggregate a metric drifts exactly when its median is negative |
| Baseline.SelfComparison | cmd/ao-harness/bench_report_baseline.go:55-143 | a report against itself: all compared, none unmeasured, drift exactly for negative medians |
| Baseline.NonNegativeNeverDrifts | cmd/ao-harness/bench_report_baseline.go:87-143 | non-negative samples never drift from their own aggregate |
| Baseline.OwnAggregatePasses | cmd/ao-harness/bench_report_baseline.go:55-143 | a bench of non-negative samples gated on its own aggregate has nothing unmeasured and nothing drifting |
| Baseline.GateOnItself | cmd/ao-harness/bench_report_baseline.go:55-85 | the same from the repeats on, with the fold and the gate called |
| Baseline.NegativeMedianDrifts | cmd/ao-harness/bench_report_baseline.go:87-143 | one negative sample does |
| Sorting.SortSlice | cmd/ao-harness/bench_trace.go:281-293 | a sort leaves a sorted permutation and promises no more |
| Sorting.SortedUnique | cmd/ao-harness/bench_trace.go:281-293 | without ties there is one |
| Text.LessIsStrictWeakOrder | main_harness_distcheck.go:143-143 | the order of strings is total |
| Text.LessIff | main_harness_distcheck.go:143-143 | a proper prefix is less, and else the first difference decides |
| Text.SplitJoin | main_entry.go:226-226 | splitting undoes joining when no part holds the separator |
| Text.FieldsOfJoin | cmd/agent-overflow-windows/wsl_memory_watchdog_windows.go:50-50 | the fields of words joined by spaces are the words |
| Decimal.AtoiOfItoa | main_entry.go:220-227 | a printed number is read back within a 64-bit int |
| Decimal.AtoiOfSigned | main_entry.go:220-227 | one sign before the digits is read as a sign |
| Decimal.ParseUintOfItoa | cmd/agent-overflow-windows/wsl_memory_watchdog_windows.go:60-66 | and within 64 unsigned bits |

## Left out

- Processes, sockets, pipes, timers, files and locks as effects: each is an oracle answer in a script or a step of a protocol.
- The packages behind an update's apply and migration, the store and Wails: only the outcomes they report. The transport server is modelled only in its bind with one retry.
- Text is sequences of characters: UTF-8 encoding is not modelled, and a character of Fingerprint and DistHash stands for a byte.
- Numbers are exact: rounding, infinities and NaN are not modelled, percentile fractions are rationals, and the probe's 64-bit shell arithmetic does not wrap.
- SHA-256 and JSON: injectivity is of the bytes fed to the hash; CompareDist takes any hash.
- Reverb.ReverbStereo: requires a predelay of zero samples or more; a negative one reads past the end of the input, and for any non-empty input Python stops with an IndexError.
- ProbeScript: a process that comes or goes during a sample. The snapshot is fixed and holds what the kernel prints, so entries that became unreadable and exit 43 do not occur.
- SupervisorSafety.AnswersAreTheCallersOwn: takes the supervisor to answer each request at most once and in order, as its frames carry no correlation; SlotHolderGetsWhateverArrives shows what it rests on.
- Supervisor: the start, prepare, commit and activation exchange, except that committed closes once.
- Launcher: the memory watchdog's own stop, shutdown hooks running beside a launch, a window applying an update, and window pages other than which one is shown. "Retired" is a stop that returned nil.
- Launcher.LauncherApp.LaunchAndProbe: takes stop errors to carry neither the launch-failed class nor a refusal and probe errors not to carry the launch-failed class, since only launchBackend and the probe make those.
- Launcher.LauncherApp.LaunchAndShow: what it tells from the script takes reservation and profile errors to be neither launch failures nor refusals, which nothing that makes them does; without that it promises safety and six starts.
- PortPin: settings-driven rebinds during a run, and which bind errors count as unavailable. Two boots never run at once.
- DesktopApplier: progress reports, and the choice of page text.
- FlagParse: usage output, and what a flag's value means: a flag set's state is the list of its Set calls, and whether a value is accepted does not depend on the values set before.
- BenchMetrics: the field each fixed metric reads, modelled as a name looked up in a repeat's readings; the spelling of a budget only needs to tell the budgets of the repeats apart.
- Baseline: the notes and the identity check before a comparison.
- Meters in the benchmark identity, profiles, flag-conflict tables, entry dispatch and rendering, each settled by one branch.
