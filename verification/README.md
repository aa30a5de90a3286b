# Mill lifecycle, custody, quality and board verification

Dafny models of the stateful parts of the Millstrand command line and its tools, with proofs of
what they promise.

- **Restart and invoke admission** (`RestartRecord`, `RestartProtocol`, `RestartInvariant`,
  `RestartRuns`, `RestartCutover`, `RestartTheorems`, `RestartOutcomes`, `RestartAnswers`,
  `RestartEnds`, `RestartReach`, `RestartServer`, `InvokeRelay`): one isolated workspace shared by any number of start, restart and invoke callers.
  Each lock-held section of the server is one step; start calls, restart goroutines and invocations
  are program counters; every answer of the outside world is a parameter of the step that reads it.
  The invariant is proved for every step, and the theorems range over every run from a Mill that has
  just started. The history holds every answer a transition got, so how it ends is stated by what it
  was answered (`RestartEnds`), and what can still be reached from any run is constructed
  (`RestartReach`).
- **Process custody** (`Custody`, `CustodyProtocol`, `CustodyRuns`, `CustodyReturns`): launches, wait goroutines,
  cancellations, shutdowns and acknowledgements race over the rows of one store. The store is a class
  whose methods are the locked sections; the protocol interleaves the same sections.
- **Land-quality scheduler** (`LandQuality`, `LandQualityRun`, `LandQualityProgress`,
  `LandQualitySchedule`, `LandQualityReasons`, `LandQualityScheduler`): depth-first validation of the
  check graph, the bounded, out-of-order scheduler over it, and what its reports owe to the order.
- **Kanban tree** (`KanbanExport`, `KanbanTree`, `KanbanOpen`, `KanbanScope`, `KanbanLayout`,
  `KanbanDraw`, `KanbanPage`, `KanbanRender`, `KanbanText`): from the exported board to the drawn lines.
- **JVM pools** (`PoolRegistry`, `PoolRecord`, `PoolRuns`, `PoolCrash`): the membership registry, the
  lifecycle record of a pooled host and serialised runs over both.
- **Suggestions and stealth** (`EditDistance`, `Stealth`): edit distance with ranking, and the
  marker-block editor.
- `Basics`, `Graphs`, `Ordering` and `Keys` hold what these share.

Specifications are values and functions; the code that updates fields or runs loops is a class or a
method proved against them. `dafny verify dfyconfig.toml` checks everything.

## Hypotheses

- Custody: the exit observer succeeds (its error branch reaps without a claim,
  cli/internal/process/custody.go:335-347), and handles are fresh.
- Restart: messages, times and opaque identifiers are not blank; a record found on disk at start is
  valid and, if it tells of a failed launch, names its generation. A failed launch can be retried only
  if no process and no metadata remain, as the source demands (cli/cmd/mill/restart.go:575-599).
- Pools: a ready marker that can be read carries a valid fingerprint, probe results are well formed
  and report failure when they fail, and operations do not overlap.

## Findings

- A stopped generation may only be followed by a launch failure: failures in the state or retry-probe
  stage build records that their own validator refuses (`RestartRecord.StoppedFailureAcceptedIff`), so
  the durable record then keeps saying restarting and, without a process, no restart is begun from it
  (`RestartOutcomes.StoppedFailureIsLost`, reached in `RestartOutcomes.LostFailureIsReachable`).
- A retry whose first record cannot be written is retained in the restarting state with no goroutine;
  no start, restart or invocation leads out of it (`RestartOutcomes.StuckStays`), and stop refuses too
  (cli/cmd/mill/lifecycle.go:919-921). Nothing else gets stuck (`RestartOutcomes.StuckIff`,
  `RestartOutcomes.FinishedIsDroppedIff`), and the state is reachable
  (`RestartOutcomes.StuckIsReachable`).
- Custody compares specifications by value only when no environment value is empty
  (`Custody.SameSpecIsEqualityIff`), and joined keys are unambiguous only without NUL
  (`Keys.JoinCollidesIff`).
- A pool host that crashed while marked live is not protected by the registry's guard: its members can
  be withdrawn (`PoolRuns.CrashedMemberLeaves`), and once all are, restarting the pool is refused
  (`PoolRuns.CrashedHostBlocksRestart`, reached in `PoolCrash.RefusalIsReachable`). In every run a
  restart is refused at its first record exactly for a dead host, or for one that went live without its
  marker and whose first member published a basis that is no fingerprint
  (`PoolRuns.RestartIsRefusedIff`, `PoolCrash.LivingHostIsRefused`): admission asks only that a member's
  basis is not empty (cli/cmd/mill/pool_host.go:279), and the record falls back to it
  (cli/cmd/mill/pool_lifecycle.go:702-710).
- The status of a blocked check is the same in every schedule. The prerequisite its reason names is the
  first failed one at that moment: one failing prerequisite fixes it
  (`LandQualityReasons.OneFailingDepFixesTheReason`), two that can start at once do not
  (`LandQualityReasons.SameReasonIff`, `LandQualityReasons.TheReasonCanDiffer`).
- The open filter is documented to keep a closed card with live tasks under it
  (tools/kanban-tree/tree.go:110-112). It keeps this promise in every export exactly under the
  `all` filter (`KanbanOpen.PromiseKeptIff`). Otherwise it fails for two reasons: the climb starts only from kept
  strands, so a live task saves nobody when tasks are not shown (`KanbanOpen.UnkeptWorkSavesNobody`), and
  it stops after as many steps as there are kept strands but also passes strands that are not kept
  (`KanbanOpen.LongWayIsCut`). `KanbanOpen.ClosedStaysIff` is the exact condition for each strand.

## Model

| member | source | states |
|---|---|---|
| RestartTheorems.RestartedMeansInterrupted | cli/cmd/mill/forward.go:38-106 | In every interleaving, an invocation is answered as restarted for a transition only if its frame went to a target matching that transition's old generation and the same transition entered its cutover later in the history |
| RestartAnswers.AnsweredRestartedIff | cli/cmd/mill/forward.go:91-105 | In every run, the answer to an invocation says restarted for a transition if and only if its connection was lost before, it was admitted while that transition was current, its frame went to the generation that transition replaces, and the transition had entered its cutover by then |
| RestartAnswers.AnsweredOnce | cli/cmd/mill/forward.go:38-106 | In every run no invocation is answered twice |
| RestartAnswers.EndIsAnswered | cli/cmd/mill/forward.go:38-106 | A step that ends an invocation whose caller is still there answers it |
| RestartReach.CanBeAnsweredRestarted | cli/cmd/mill/forward.go:202-211 | Whatever happened before, an invocation that waits for its answer while the transition it was admitted under may still go through can yet be answered as restarted for it |
| RestartReach.InterruptionIsReachable | cli/cmd/mill/forward.go:202-211 | A run from a Mill that has just started: it finds a process, restarts it, admits an invocation while the restart probes, cuts over, loses the connection and answers restarted |
| RestartTheorems.TargetIs | cli/cmd/mill/forward.go:275-335 | Where an invocation is sent: it waits exactly for a restarting transition; without one, or once the old generation runs on, it reaches the published process unless that names a blank generation; while a restart probes it takes the old name only if the process published none; a failed transition has no target |
| RestartTheorems.NeverRelabelledByALaterRestart | cli/cmd/mill/forward.go:186-211 | A relabelled invocation was admitted while exactly that transition was current; one admitted with no transition is never relabelled |
| RestartTheorems.FrameSentOnce | cli/cmd/mill/forward.go:91-105 | No invocation sends its request frame twice, whatever the interleaving |
| RestartRuns.BoundaryIsEarly | cli/cmd/mill/forward.go:275-335 | While an invocation holds the admission lock and is given a target, the current transition, if it replaces a generation, has not entered its cutover |
| RestartTheorems.OneGenerationAtATime | cli/cmd/mill/lifecycle.go:244-303 | In every run a start claim and a transition never coexist, at most one launched generation is alive, and it is the registered one |
| RestartTheorems.CutoverIsOrdered | cli/cmd/mill/restart.go:649-726 | In every run an old generation is signalled or confirmed gone only after its transition's probe passed, and a replacement is launched only after the very generation it names was confirmed gone: by the same transition when it replaces a process, and in any case before the launch or before this Mill found the record that names it |
| RestartEnds.HowTransitionsEnd | cli/cmd/mill/restart.go:649-804 | In every run, for every finished transition: the replacement took over if and only if the first write and everything asked for later was answered with yes (probe, writes, stop, launch, boot, a generation that is not blank); the old generation was kept if and only if a replacement's first write or probe was refused; it failed if and only if a later stage, or any stage of a retry, was refused; only a retry whose first write was refused is left restarting |
| RestartEnds.SuccessIsEarned | cli/cmd/mill/restart.go:705-725 | In every run a transition that ends with its replacement carries the generation that process became ready with, not blank; it launched that process, and unless it is a retry its probe had passed and the old generation was confirmed gone |
| RestartEnds.FailureHasItsCause | cli/cmd/mill/restart.go:777-804 | In every run a transition about to fail at a stage was refused that stage and no other: a launch failure means a launch or boot that was answered not ok; the record it writes names that stage |
| RestartEnds.OutcomeIsRecorded | cli/cmd/mill/restart.go:705-804 | If the disk takes it, a published replacement is recorded running under its own generation, a refused probe running under the old one with the probe's failure, and a failed launch failed under the stopped one |
| RestartEnds.FirstWriteRefusedIff | cli/cmd/mill/restart.go:626-644 | The first write is refused if and only if the disk refuses it, an identifier is blank, or a retry carries an ill-formed probe |
| RestartEnds.StepKeepsEnds | cli/cmd/mill/restart.go:649-804 | Every step of every caller keeps what the history says of every transition, at work or finished |
| RestartReach.EveryStepAdvances | cli/cmd/mill/restart.go:649-804 | Whatever it is answered, every step of a transition brings it nearer to its end: it takes at most seventeen |
| RestartReach.CanSucceed | cli/cmd/mill/restart.go:649-726 | Whatever happened before, a transition to which nothing was refused can be brought to an end in which its replacement runs |
| RestartReach.RestartCanSucceed | cli/cmd/mill/restart.go:528-726 | Whatever happened before, a restart that retries a failed launch, or replaces a process whose identifiers are not blank, can bring its replacement up when nobody holds the admission lock |
| RestartReach.SuccessIsReachable | cli/cmd/mill/restart.go:649-726 | A run from a Mill that has just started and finds a process in the metadata to the end of its successful restart |
| RestartTheorems.ChoiceIs | cli/cmd/mill/restart.go:556-624 | What a restart does: it replaces exactly the live child, under its name or a minted one; without one it retries exactly a retryable record when nothing is published, or replaces exactly the usable process the metadata names when the record has not failed; everything else is refused |
| RestartOutcomes.RetryReplacesItsRecord | cli/cmd/mill/restart.go:556-624 | In every run, whatever a retry launches, however much later, replaces exactly the generation the failed record named when the retry began, and that generation was confirmed gone before |
| RestartTheorems.StepKeepsGood | cli/cmd/mill/restart.go:474-726 | Every step of every start, restart and invoke caller and of every restart goroutine keeps the whole protocol invariant |
| RestartCutover.StepRunKeeps | cli/cmd/mill/restart.go:649-804 | Each of the nineteen positions of a restart, from the first durable write to the release of the admission lock, keeps the invariant on success and on every failure; where it leads is RestartEnds.HowTransitionsEnd |
| RestartRuns.StepInvokeKeeps | cli/cmd/mill/forward.go:38-106 | Waiting, selecting, sending, releasing, relaying and answering keep the invariant, including for callers that disappear |
| RestartRuns.StepStartKeeps | cli/cmd/mill/lifecycle.go:296-454 | Registering, launching, failing, discarding and releasing a start keep the invariant |
| RestartReach.StartCanSucceed | cli/cmd/mill/lifecycle.go:296-454 | Whatever happened before, a start that may begin can bring a process up, which then lives as the supervised child under whatever identity it reported, with the claim free again |
| RestartRuns.BeginRestartKeeps | cli/cmd/mill/restart.go:528-625 | Dropping a retained failure or a dead child, refusing, replacing and retrying keep the invariant |
| RestartTheorems.RecordIsAlwaysSound | cli/cmd/mill/restart.go:355-399 | In every reachable state the durable record passes its validator, and a recorded launch failure is retryable and names a generation that was confirmed gone |
| RestartRecord.StoppedFailureAcceptedIff | cli/cmd/mill/restart.go:453-455 | After a stop, a failure record is accepted if and only if the failing stage is the launch: the state and probe stages build records that are refused |
| RestartOutcomes.StoppedFailureIsLost | cli/cmd/mill/restart.go:777-783 | In every run, a failure of any stage but the launch after the stop leaves the durable record as it was, still saying that this transition is restarting; with no process and no metadata this Mill and the next one then refuse to restart |
| RestartOutcomes.LostFailureIsReachable | cli/cmd/mill/restart.go:649-662 | A run from a Mill that finds a failed launch: its retry writes the first record, cannot resolve the launch source, and its failure is lost |
| RestartRecord.RunningAcceptedIff | cli/cmd/mill/restart.go:429-436 | After a stop, the running record is accepted if and only if the replacement published a generation that is not blank |
| RestartRecord.WrittenRecordReadsBack | cli/cmd/mill/restart_record.go:59-120 | A record accepted for writing validates again when it is read from disk with the writer's time stamp |
| RestartRecord.LaunchFailureIsRetryable | cli/cmd/mill/restart.go:558-573 | Every persisted launch failure is valid and meets the retry guard, and its retry's first record is valid and ready to launch with the same probe and generation |
| RestartRecord.RetriesPreserveEvidence | cli/cmd/mill/restart.go:619-624 | The record function: after any number of failed retries the record is still valid and retryable, with the same probe result and generation identity |
| RestartOutcomes.RetriesKeepTheRecord | cli/cmd/mill/restart.go:556-624 | Over runs: as long as only retries of the failed launch are at work and none has got to publishing, the durable record keeps the probe result and generation of the first failure, and says restarting or failed at the launch |
| RestartTheorems.FailedLaunchIsRetried | cli/cmd/mill/restart.go:556-624 | With no live child and no metadata, a restart after a failed launch installs a retry that needs no probe and whose first write is accepted |
| RestartOutcomes.FailedFirstWriteSticks | cli/cmd/mill/restart.go:626-644 | A retry whose first record cannot be written leaves its transition in the restarting state with nobody running it |
| RestartOutcomes.StuckStays | cli/cmd/mill/restart.go:537-546 | From a stuck state every step of every caller leads to a stuck state again, and no start or restart can begin |
| RestartOutcomes.StuckIff | cli/cmd/mill/restart.go:626-644 | In every run, a transition is stuck (current, restarting, run by nobody) if and only if it is the current finished retry whose first record was refused: nothing else gets stuck |
| RestartOutcomes.FinishedIsDroppedIff | cli/cmd/mill/restart.go:528-546 | In every run, a finished transition that is still current has failed, and a new restart may begin and drops it, if and only if it is not a retry whose first record was refused |
| RestartOutcomes.StuckIsReachable | cli/cmd/mill/restart.go:626-644 | A run from a Mill that finds a failed launch, begins its retry and cannot write the first record ends stuck |
| RestartServer.Server.SetTransitionState | cli/cmd/mill/restart.go:355-399 | The in-place update: the transition's new state, cutover mark and probe, and the record replaced exactly when it is valid and the write succeeds |
| RestartServer.Server.BeginRestart | cli/cmd/mill/restart.go:528-625 | The in-place section makes the same choice and reaches the same state as the protocol's step |
| RestartServer.Server.AdmittedInvokeTarget | cli/cmd/mill/forward.go:275-335 | The target handed to an invocation equals the protocol's, branch by branch; a status never carries an empty generation, because it is only set when it is not blank (cli/cmd/mill/lifecycle.go:1148-1150, cli/cmd/mill/restart_record.go:233-236) |
| RestartServer.Server.AdmissionBoundary | cli/cmd/mill/forward.go:186-200 | The captured boundary is the current transition exactly when it replaces a matching generation in the current epoch |
| RestartServer.SameIdentityThroughIff | cli/cmd/mill/restart_process.go:82-86 | Identity comparison is transitive through an identity if and only if that identity names its generation |
| InvokeRelay.Relay | cli/cmd/mill/forward.go:412-464 | Complete lines are relayed verbatim and in order, nothing after the end of the response, no partial line, and each fault names what the next read was |
| InvokeRelay.FaultlessIffWhole | cli/cmd/mill/forward.go:436-462 | With a writable caller, the relay ends without a fault if and only if the frames hold one whole response: one line, or a stream up to its terminator |
| RestartTheorems.OneEpochPerTransition | cli/cmd/mill/restart.go:609-613 | Every transition has its own admission epoch, and the current one the latest |
| RestartTheorems.LockHolderCanMove | cli/cmd/mill/restart.go:680-681 | The admission lock is never lost: its holder exists, stands where it must hold it, and can take its next step |
| CustodyRuns.NoSignalAfterReaping | cli/internal/process/custody.go:329-366 | In every interleaving with a succeeding exit observer, no signal or scan of a row's group follows the start of its leader's reaping, and all of them come from one call |
| CustodyRuns.TreesEndInOrder | cli/internal/process/custody.go:643-665 | In every run the first thing sent to a group is the terminate signal; it is killed only after a scan whose grace period was up; every scan follows a delivered signal or a scan that saw it alive; and the tree closes as graceful, forced or uncertain by what was seen last |
| CustodyRuns.CancelIsAccepted | cli/internal/process/custody.go:458-478 | A cancel by the owner of a started row that is neither terminal nor claimed for reaping marks it; the first such call, and no other, becomes the terminator of its tree |
| CustodyRuns.ShutdownCancels | cli/internal/process/custody.go:530-549 | A shutdown does the same, with its own reason, to every such row it finds |
| CustodyRuns.CancelledEndsCancelled | cli/internal/process/custody.go:368-388 | In every run a started row once cancelled keeps its reason, is never reaped as an ordinary exit, and if it ends it ends with a cancellation of that reason and with what its tree termination returned |
| CustodyRuns.FirstCancelTerminates | cli/internal/process/custody.go:458-478 | In every run, after the first accepted cancel of a started row every signal and scan of its group is that very call's, and the row ends, if it does, cancelled by its owner |
| CustodyRuns.ExitIsObserved | cli/internal/process/custody.go:368-388 | In every run the exit on record, ordinary or inside a cancellation, is the one the wait observed |
| CustodyReturns.TerminatorReports | cli/internal/process/custody.go:471-495 | In every run the call that terminated a row's tree reports success if and only if the group was seen gone |
| CustodyReturns.ShutdownSucceeds | cli/internal/process/custody.go:517-606 | In every run a shutdown that reports success has seen the group gone of every process that was started, unfinished and not yet claimed for reaping when it began |
| CustodyRuns.RecordsAreTruthful | cli/internal/process/custody.go:368-388 | A live record has no outcome and a terminal one exactly one; a cancellation carries what the row's tree termination returned; a graceful stop means no kill signal was ever sent and a forced one that it was; an ordinary exit means the group was never killed |
| CustodyRuns.TerminalIsFinal | cli/internal/process/custody.go:441-445 | A terminal record never changes again in any continuation of the run |
| CustodyRuns.NothingHappensTwice | cli/internal/process/custody.go:226-282 | Each owner and key start at most one process ever, each row is reaped at most once and each of its channels closed at most once, also after acknowledgement |
| CustodyRuns.MapsStayOneToOne | cli/internal/process/custody.go:497-515 | Handles and reservations stay one to one in every run, acknowledged rows included |
| CustodyRuns.QuietAfterShutdown | cli/internal/process/custody.go:517-606 | Once a Shutdown has returned without error, every remaining record is terminal and nothing is started any more |
| CustodyRuns.StepKeepsGood | cli/internal/process/custody.go:217-606 | Every step of every launch, wait, cancel, shutdown and acknowledge keeps the custody invariant, and rows only move on |
| CustodyRuns.WaitKeeps | cli/internal/process/custody.go:329-388 | Each section of the wait goroutine keeps the invariant: reaping starts only once it is claimed or the tree termination is over |
| CustodyRuns.SignalKeeps | cli/internal/process/custody.go:643-665 | Each signal, scan and result of a tree termination keeps the invariant |
| CustodyRuns.ShutdownKeeps | cli/internal/process/custody.go:519-575 | The shutdown sweep keeps the invariant: it takes over only trees nobody terminates yet and leaves claimed rows alone |
| Custody.SameSpecIsEqualityIff | cli/internal/process/custody.go:189-207 | Comparing with a specification decides equality if and only if none of its environment values is empty |
| Custody.AnswerIsOwn | cli/internal/process/custody.go:226-241 | For owners without a NUL a launch answers with the caller's own row: its owner, its key and a matching specification |
| Keys.JoinCollidesIff | cli/internal/process/custody.go:226 | A joined owner and key is shared with another pair if and only if one of the two parts contains a NUL |
| Custody.CompareSpecs | cli/internal/process/custody.go:189-207 | The field, argument and key loops decide exactly the comparison used above |
| Custody.ValidateSpec | cli/internal/process/custody.go:285-306 | The first failing check of a launch specification, in the order command, arguments, directory, environment keys; none fails exactly when all hold |
| Custody.CustodyStore.Launch | cli/internal/process/custody.go:219-283 | Refused exactly for blank owners or keys and bad specifications; no output files, no row; reserved pairs start nothing, a fresh pair gets one row, started or failed: the whole new store |
| Custody.CustodyStore.Cancel | cli/internal/process/custody.go:430-470 | A row of another owner stays as it is; an own row that is not over and not claimed for reaping is cancelled, keeping an earlier reason; the call is told to terminate the tree if and only if it is the first and the row was started, and only then opens the tree channel; it awaits the reaping or the tree exactly when those are under way; nothing else of the row changes |
| Custody.CustodyStore.BeginShutdown | cli/internal/process/custody.go:519-549 | The locked sweep of Shutdown: the closed store and exactly which trees are terminated, which awaited and which rows waited for |
| CustodyRuns.WaitIsNeverStuck | cli/internal/process/custody.go:349-365 | As long as a started row is unfinished, its wait goroutine or whoever terminates its tree can take a step |
| Custody.CustodyStore.Acknowledge | cli/internal/process/custody.go:497-515 | Succeeds if and only if the handle is mapped to a terminal row of this owner and its output is removed; exactly then the handle leaves the map |
| LandQuality.ValidateChecks | tools/land-quality/main.go:288-338 | Accepts a list if and only if every check is named, runnable and within its budget, names are unique, dependencies known and their graph acyclic; every refusal is true, and a reported cycle goes through the reported name |
| LandQuality.SearchCycles | tools/land-quality/main.go:313-337 | The depth-first search accepts exactly the acyclic graphs and otherwise names a node that lies on a cycle |
| LandQuality.CycleSearch.Visit | tools/land-quality/main.go:315-333 | One visit reports only nodes that really lie on a cycle, or else restores the search path and leaves the node visited |
| LandQualityScheduler.Run | tools/land-quality/main.go:141-235 | Never stops for lack of progress; refuses exactly invalid lists and limits below one; with no error every status is the one the graph determines, whatever the completion order and limit: a check is blocked if and only if some transitive prerequisite, itself not blocked, exceeded its deadline or was failed by its executor; of the others TIMEOUT means exactly that the deadline passed, FAIL that it did not and the executor failed, WARN neither but ten times the elapsed time above eleven times the baseline, PASS the rest; and the whole report, reasons included, is that of a schedule of the loop |
| LandQualityReasons.ReasonIsAFailingDep | tools/land-quality/main.go:159-166 | In every complete schedule a check without failing direct dependencies gets its own verdict, and any other one is blocked naming a failing direct dependency with the status the graph gives that one |
| LandQualityReasons.OneFailingDepFixesTheReason | tools/land-quality/main.go:349-356 | With at most one failing direct dependency the result of a check, reason included, is the same in every complete schedule |
| LandQualityReasons.SameReasonIff | tools/land-quality/main.go:349-356 | When the failing direct dependencies wait for nothing and fit the heavy class, the result is the same in every complete schedule if and only if at most one of them fails |
| LandQualityReasons.ReasonsAreTheFailingDeps | tools/land-quality/main.go:159-166 | In that case the dependencies that some complete schedule names are exactly the failing ones |
| LandQualityReasons.TheReasonCanDiffer | tools/land-quality/main.go:159-166 | A list, an executor and two complete schedules that block the same check naming different dependencies, for every limit |
| LandQualityReasons.OneReport | tools/land-quality/main.go:55-70 | A list in which no check has two different dependencies, as the shipped one, has the same report, reasons included, under every completion order |
| LandQualitySchedule.CanFinish | tools/land-quality/main.go:155-211 | From every state the loop can be in, some completion order finishes every check without changing a result already there |
| LandQualityScheduler.Runner.Loop | tools/land-quality/main.go:149-212 | The main loop ends, keeps the log and the counters sound and returns the right result for each check |
| LandQualityRun.HeavyNeverExceedsLimit | tools/land-quality/main.go:162-190 | At no point of any run are more heavy checks in flight than the limit |
| LandQualityRun.StartedAtMostOnce | tools/land-quality/main.go:162-190 | No check is started twice |
| LandQualityRun.PrerequisitesFinishFirst | tools/land-quality/main.go:340-347 | Every dependency of a started check had finished with a pass or a warning before |
| LandQualityRun.BlockedIffPrerequisiteFailed | tools/land-quality/main.go:349-356 | A check is blocked if and only if some transitive prerequisite really failed or timed out |
| LandQualityProgress.AlwaysProgress | tools/land-quality/main.go:196-206 | If nothing is running and no pending check can be blocked or started, every check has its result: the scheduler is never stuck with work left |
| LandQualityScheduler.DependenciesPassed | tools/land-quality/main.go:340-347 | Holds exactly when every dependency passed or warned |
| LandQualityScheduler.FailedDependency | tools/land-quality/main.go:349-356 | The first failed dependency in declaration order, if there is one |
| LandQualityScheduler.OrderedResults | tools/land-quality/main.go:365-371 | The results of all checks in list order |
| KanbanExport.NulFreeKeysAreLinks | tools/kanban-tree/export.go:183-202 | For ids without NUL, equal link keys mean equal links |
| KanbanExport.ValidateExport | tools/kanban-tree/export.go:126-202 | Accepts an export if and only if strands, links, single parents, acyclic containment and the attributes the tree reads are as it needs them |
| KanbanExport.ValidateAttributes | tools/kanban-tree/export.go:70-124 | Accepts exactly the strands whose read attributes are scalars within their vocabulary, and otherwise names a bad one of the first bad strand |
| KanbanExport.ValidateParents | tools/kanban-tree/export.go:163-181 | Detects two parents and every containment cycle, and only those |
| KanbanTree.Build | tools/kanban-tree/tree.go:42-108 | What the filters keep, exactly; containment below the root is a forest that relates each strand to its nearest kept ancestor, blockers are as exported, and all lists are in board order |
| KanbanTree.PruneClosed | tools/kanban-tree/tree.go:113-133 | The open filter drops a kept strand if and only if it is not the root and no active kept strand lies at most as many parent steps below it as there are kept strands |
| KanbanOpen.ClosedStaysIff | tools/kanban-tree/tree.go:113-133 | In every export a closed strand other than the root that the filters keep stays if and only if some active strand below it is itself kept and the way up from there has no more steps than there are kept strands |
| KanbanOpen.KeptPathStays | tools/kanban-tree/tree.go:110-112 | If every strand on the way up is kept itself, the climb is not cut short and its end survives |
| KanbanOpen.LongWayIsCut | tools/kanban-tree/tree.go:120-126 | Under any filters but all, a valid export in which a closed card is dropped although an active card below it is kept: the way up is too long |
| KanbanOpen.UnkeptWorkSavesNobody | tools/kanban-tree/tree.go:115-118 | Without tasks, a valid export in which a closed card is dropped although an active task hangs right under it: the task is not kept |
| KanbanOpen.PromiseKeptIff | tools/kanban-tree/tree.go:110-112 | The filters keep every closed strand with active work below it, in every export, if and only if they are set to keep all strands |
| KanbanTree.FindNearestKept | tools/kanban-tree/tree.go:136-143 | Finds the nearest kept ancestor if there is one; the hop limit never cuts the climb short |
| KanbanTree.NearestKeptIsUnique | tools/kanban-tree/tree.go:136-143 | There is at most one nearest kept ancestor |
| KanbanScope.ScopeIsGood | tools/kanban-tree/tree.go:180-234 | In every layout each child is reachable from the tops and has one place; a child promoted against its blockers proves a dependency cycle among the siblings |
| KanbanScope.AcyclicScopePromotesNothing | tools/kanban-tree/tree.go:219-234 | Without a dependency cycle among the siblings nothing is promoted |
| KanbanScope.PromoteReachesAll | tools/kanban-tree/tree.go:219-234 | As many promotions as there are unreached children leave none unreached |
| KanbanLayout.Reachable | tools/kanban-tree/tree.go:238-254 | The breadth-first sweep finds exactly the nodes reachable from the tops |
| KanbanLayout.PromoteUnreached | tools/kanban-tree/tree.go:219-234 | The loop computes the specified promotion, first unreached child first |
| KanbanLayout.Model.Layout | tools/kanban-tree/tree.go:180-214 | With or without its cache, the layout of a container is always the same specified scope |
| KanbanDraw.WholeTreeIsDrawn | tools/kanban-tree/render.go:86-163 | If everything drawn is expanded and every queued section printed, the drawn nodes are exactly the containment tree of the root |
| KanbanPage.ArrivalMeansCycle | tools/kanban-tree/render.go:142-147 | A second arrival at a node means that its siblings' dependencies hold a cycle, so the cycle mark is true |
| KanbanPage.PageIsComplete | tools/kanban-tree/render.go:71-78 | When the worklist is done every node of the tree has been drawn |
| KanbanRender.Renderer.Render | tools/kanban-tree/render.go:56-82 | Terminates and draws each node of the root's tree in full exactly once, also with cycles and shared nodes; cycle marks are true; the footer total equals the node count, its tally the counts per status in order, and its key the marks used |
| KanbanRender.Renderer.Branch | tools/kanban-tree/render.go:115-152 | One branch draws its own line first, everything below it under its prefix, expands all it draws and draws nothing that belongs elsewhere |
| KanbanRender.Renderer.ChildItems | tools/kanban-tree/render.go:95-111 | The lines under a node: contained children, then exclusive dependents, then stubs |
| KanbanRender.CountUp | tools/kanban-tree/render.go:233-258 | The total is the number of drawn nodes and the tally lists every status with its exact count, most frequent first |
| KanbanRender.View | tools/kanban-tree/render.go:56-82 | From export to view: a view is drawn exactly for valid exports, over exactly the strands the filters show, and it is a finished view of the tree the export describes |
| KanbanPage.ReadStatus | tools/kanban-tree/tree.go:290-320 | A live task is blocked exactly if one of its blockers is a live strand of the tree, and ready otherwise; a live card shows its lane, in review as review and none as ready; a closed strand its outcome, abandoned as dropped, or without one its state |
| Keys.NumberedIsInjective | tools/kanban-tree/render.go:156-163 | Section keys of different sections differ, whatever the container is called |
| KanbanText.Clip | tools/kanban-tree/render.go:304-337 | Clipped text shows exactly n columns, a prefix of what the text shows followed by the marker, and no colour stays open; text that fits is returned as it is |
| KanbanText.ClippedShows | tools/kanban-tree/render.go:304-337 | What a terminal shows of clipped text, for any text with colour sequences |
| KanbanText.FitLine | tools/kanban-tree/render.go:273-301 | With room, the line fills the width exactly, shows the text or its beginning and the ellipsis, then at least two spaces and the detail; without a detail or without room it is the prefix and the whole text when these fit, and otherwise shows the prefix, as much of the text as fits and the ellipsis; it is too wide if and only if the ellipsis leaves no place to cut |
| KanbanText.VisibleLen | tools/kanban-tree/render.go:340-355 | Counts exactly the characters a terminal shows |
| PoolRecord.CollectPending | cli/cmd/mill/pool_lifecycle.go:729-741 | The loop over the registered directories computes the pending ones |
| PoolRegistry.Registry.Reconcile | cli/internal/jvmpool/registry.go:243-273 | The stored document refines the finite map with one row set; refused exactly when the workspace is live and its owner, or the row it already has, is in another pool; unchanged means same rows and same revision; the document stays valid and sorted |
| PoolRegistry.Registry.Remove | cli/internal/jvmpool/registry.go:277-298 | The stored document refines the map with one row dropped, refused exactly for a live owner |
| PoolRegistry.Registry.ValidateDocument | cli/internal/jvmpool/registry.go:322-348 | Accepts exactly the well formed, strictly sorted documents |
| PoolRegistry.Registry.Snapshot | cli/internal/jvmpool/registry.go:173-188 | Refused exactly for a blank pool name or a document that is not valid; otherwise the rows of one pool, strictly sorted, as the map has them, with the revision |
| PoolRegistry.LiveRowsStay | cli/internal/jvmpool/registry.go:258-289 | A row with a live owner is never removed and never moved to another pool |
| PoolRegistry.RowsDetermineMembers | cli/internal/jvmpool/registry.go:322-348 | Two valid documents with the same rows list the same members |
| PoolRecord.RecordValidIffCovered | cli/cmd/mill/pool_restart_record.go:87-252 | Every record a restart builds, at every moment of its lifecycle, is valid if and only if the host is fingerprinted and its live members are registered |
| PoolRecord.StartedRecordIsValid | cli/cmd/mill/pool_lifecycle.go:206 | The initial record of a freshly launched host is valid |
| PoolRecord.GoodHostIsValid | cli/cmd/mill/pool_lifecycle.go:698-727 | Whatever order a host lists its members in, its record lists the same members sorted, and passes the host check if and only if the host or some member carries a proper basis fingerprint |
| PoolRecord.RecordNamesMembers | cli/cmd/mill/pool_lifecycle.go:712-727 | The record lists every member of its host under the identity it has published, or failing that under the one it was launched with |
| PoolRecord.CheckSetRelations | cli/cmd/mill/pool_restart_record.go:229-291 | The set loops decide the relation between registered, admitted, previous and pending members |
| PoolRecord.ValidateDirs | cli/cmd/mill/pool_restart_record.go:178-193 | Accepts exactly canonical, strictly sorted lists |
| PoolRecord.PendingIsTheRest | cli/cmd/mill/pool_lifecycle.go:729-741 | Pending are exactly the registered directories the host does not serve, still sorted |
| PoolRuns.EveryRecordIsValid | cli/cmd/mill/pool_lifecycle.go:498-658 | Along every serialised run of init, start, restart, stop and crashes, a record built for a host is valid if and only if the host's process was alive when the operation began, except for a host without its marker whose first member published a malformed basis; with proper member bases, exactly if alive |
| PoolRuns.LiveMembersStayRegistered | cli/cmd/mill/pool_membership.go:162-175 | While a host runs, its members stay registered in its pool |
| PoolRuns.StepKeepsGood | cli/cmd/mill/pool_lifecycle.go:498-658 | Every serialised operation keeps the members of running hosts registered and the built records decided as above, also when a launch fails after the new host went live |
| PoolRuns.RestartLeaves | cli/cmd/mill/pool_lifecycle.go:555-658 | After a restart that got past its first record: a replacement, or a host left over from a failed launch, serves exactly the registered directories; after a failed cutover the old host stays on record, down; an outright failed launch leaves no host; an earlier failure leaves all as it was |
| PoolRuns.CrashedHostBlocksRestart | cli/cmd/mill/pool_lifecycle.go:552-554 | Once none of the members of a crashed host that is still marked live is left in the pool, every restart of the pool builds a refused record and changes no host |
| PoolRuns.RestartIsRefusedIff | cli/cmd/mill/pool_lifecycle.go:552-554 | In every run, a restart that gets to its first record is refused there if and only if the host's process has died, or the host went live without its marker and its first member published a malformed basis; with proper member bases, exactly if dead |
| PoolCrash.RefusalIsReachable | cli/cmd/mill/pool_lifecycle.go:498-554 | Six operations from an empty registry that end in a refused record, with the dead host in place and a registered workspace unserved |
| PoolCrash.LivingHostIsRefused | cli/cmd/mill/pool_lifecycle.go:186-204 | Three operations from an empty registry after which the restart of a living host is refused: its marker was not read back and its member's basis is not empty but no fingerprint |
| PoolRuns.CrashedMemberLeaves | cli/cmd/mill/pool_membership.go:162-175 | In every run, any member of a host whose process died can be withdrawn although the host is still marked live, because ownership skips dead processes |
| EditDistance.Levenshtein | cli/internal/errfmt/suggest.go:26-45 | The two-row loop returns the length of a shortest script of single-rune insertions, deletions and substitutions |
| EditDistance.DistanceIsShortest | cli/internal/errfmt/suggest.go:26-45 | Some script of that length exists and none is shorter |
| EditDistance.DistanceIsSymmetric | cli/internal/errfmt/suggest.go:26-45 | The distance is symmetric |
| EditDistance.TriangleInequality | cli/internal/errfmt/suggest.go:26-45 | The distance obeys the triangle inequality |
| EditDistance.DistanceZeroIff | cli/internal/errfmt/suggest.go:168-170 | The distance is zero exactly for equal strings |
| EditDistance.Rank | cli/internal/errfmt/suggest.go:155-183 | Nothing for an empty token or one on the list after folding; otherwise exactly the first three names by distance and list position within the bound |
| Stealth.EditIsIdempotent | cli/internal/config/stealth.go:205-266 | Applying any plan that is not a refusal and preflighting again reports that nothing is to be done |
| Stealth.UserTextSurvives | cli/internal/config/stealth.go:218-227 | The user's bytes remain a prefix; an edit only completes the last line, leaves a blank one and adds the block |
| Stealth.UnchangedIff | cli/internal/config/stealth.go:234-259 | A file is left alone if and only if it holds the block as written and each marker exactly once; the block then occurs once |
| Stealth.RefusalIsTrue | cli/internal/config/stealth.go:234-259 | A file is refused if and only if it holds some marker without being installed, and the refusal names the true state of the markers |
| Stealth.CountMeans | cli/internal/config/stealth.go:214-217 | The counts distinguish no occurrence, exactly one and several |
| Stealth.ExcludeSpecIsGood | cli/internal/config/stealth.go:11-14 | The exclude markers and block meet what the editor relies on |

## Left out

- Sockets, JSON, file writes and durability, clocks, deadlines as durations, subprocess launch, signals'
  delivery and process scans: their results are parameters of steps.
- Temporary weavers, pooled workspaces in the restart protocol, launch-token admission, autostart, and
  the probe subprocess.
- Stopping a weaver in the restart protocol: it checks claim and transition before it takes the lock
  (cli/cmd/mill/lifecycle.go:915-938), so it is not part of the one-generation theorem.
- Overlapping pool restarts: they share no transition; the pool runs are serialised.
- PoolRuns: a record write that fails on disk in the middle of a restart (for instance after the old
  host stopped, cli/cmd/mill/pool_lifecycle.go:614-617), and a crashed host reached through a workspace
  registered in another pool.
- Diagnostic rows of probe results: whether they are well formed is one flag.
- A generation discovered in metadata is not a process of the model; that it is gone is the answer of
  the stop step. Only processes launched by this Mill have a phase.
- RestartProtocol and CustodyProtocol steps are functions on values; the fields they update in place are
  classes in RestartServer and Custody, whose rows and transitions are values in maps, so aliasing of one
  row by several goroutines is expressed by its handle.
- Custody output files, their directories and close errors, except that a shutdown fails on them.
- LandQualityReasons.SameReasonIff: outside the stated class (failing prerequisites that themselves wait,
  or that compete for the heavy class) the exact condition depends on list order and limit; there only
  one direction is stated, by LandQualityReasons.OneFailingDepFixesTheReason.
- JSON decoding of attribute values: a value is text, a flag, a number with the text it prints as, or
  none of these.
- The converse of the cycle mark: a cycle entered through a shared node is drawn with stubs and no mark.
- Progress counts, the external-blocker note, colours and glyphs of the
  drawn lines: a line keeps its lead, kind, id, container and status.
- EditDistance.Rank: case folding is a parameter; which token an error suggests for is not modelled.
- Stealth: the git queries before the edit, and read errors.
- PoolRegistry: file decoding; a damaged document is one that is not valid, and every document the
  registry writes is proved valid.
- Discovery of pool hosts by a restarted Mill, and pool status and probe manifests.
