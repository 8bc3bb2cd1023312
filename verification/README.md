# autonous: a verified model

autonous is an agent that rebuilds and redeploys itself. A *supervisor* runs a *worker* through a symlink,
watches how it exits, deploys artifacts the user has approved and rolls back those that crash. The worker
reads chat messages into a durable inbox, answers them with a language model that may ask for tools, and
builds, tests and stages new artifacts on command. Everything durable is in one SQLite file: the tables
`artifacts`, `inbox` and `history`, and an append-only log `events`.

This project models that system in Dafny and proves what it keeps, over every run.

**Self-update** (`ArtifactStatus`, `ArtifactTable`, `ArtifactStore`, `UpdateProtocol`, `UpdateInvariant`,
`UpdateRuns`, `UpdateSafety`, `UpdateSteps`, `UpdateWatch`, `ActiveArtifact`, `UpdateScenarios`,
`RollbackDrain`, `UpdateRestart`, `Supervisor`, `UpdatePipeline`, `UpdateRefinement`, `PipelineRefinement`).
`ArtifactStore.Store` has the repository's statements as methods over the table and the log.
`Supervisor.SupervisorProcess` and `UpdatePipeline.UpdateWorker` are the routines of the two programs over
that store. `UpdateProtocol` is the same code as a state machine: any number of supervisors,
auto-promote watchers and workers, one atomic step per statement, transaction or file operation, any
interleaving, and a kill possible between any two steps. The theorems of `UpdateSafety` hold in every state
of every run; the two refinement modules show that a process of the machine that is left alone does what
the routine does. `RollbackDrain` is the drain of pending rollbacks with kills and restarts anywhere in it,
and `UpdateRestart` shows that these are runs of the machine. `UpdateSteps` and `ActiveArtifact` say exactly
which steps do what a document rules out, `UpdateWatch` what a promotion goes back to, and `UpdateScenarios` has runs from the installed bootstrap that
take these steps.

**Inbox and control** (`InboxTable`, `InboxRuns`, `InboxSteps`, `InboxIntake`, `InboxRetry`, `InboxStall`,
`Stall`, `Control`, `CircuitBreaker`, `ProcessTask`). `InboxTable.Inbox` has the statements on the inbox.
`InboxRuns` is the worker's main loop as a state machine, again with any number of workers and kills
anywhere; `InboxSteps` says what one step does to a task, and the three modules after it prove intake, retry
and give-up over its runs. `ProcessTask` is one task against an adversarial model.

**Kernels** (`JsonScanner`, `EventTree`, `EventTreeShape`, `EventTreeView`, `CrashWindow`, `Output`).

Conventions. Ids of rows and events are positions: rows are never deleted and ids grow in insertion order.
Clock readings, outcomes of commands, files, the model's replies and the source's updates are inputs, and
the theorems on self-update hold for all of them. Three parts need a clock that does not go back: a step of
the inbox machine with an earlier reading is not taken, `CircuitBreaker.OpeningsAreApart` and
`OpeningsAreBounded` assume `Clocked` iterations, and the theorems of `CrashWindow` assume `Ordered` exits.
A file is known by its digest; the hash itself is not computed. A path for which the code has several
messages (a digest that differs, a file that cannot be read) takes its message as an input.

Where code and documents differ the model follows the code. Each difference has its exact condition and,
where the promise fails, a run or an input on which it does:

- docs/milestone-5.md makes `promoted` final; in the code a promoted artifact becomes `rollback_pending`
  exactly when a user's rollback request hits it (`UpdateSteps.LeavesPromotedIff`,
  `UpdateScenarios.PromotedIsLeft`).
- docs/milestone-5.md has every status change logged in its transaction; startup cleanup, the deploy claim,
  the `Mark...` functions and the end of a build whose file cannot be read write the status without an
  event, and nothing else does (`UpdateSteps.ChangeIsLoggedIff`, `UpdateScenarios.ClaimIsNotLogged`).
- docs/milestone-5.md has cleanup log a failure per artifact; the code logs one `update.cleanup.completed`
  if anything was cleaned, and nothing else (`UpdateRestart.StartupAlone`).
- docs/milestone-5.md decides promotion only when the worker exits; the code also has a watcher goroutine
  that promotes while the worker runs (`UpdateSteps.BecomesPromotedIff`,
  `UpdateScenarios.PromotedWhileRunning`).
- docs/milestone-3.md opens the breaker after errors of one class in a row; the code counts the errors of a
  class since the last success, whatever other errors came between (`CircuitBreaker.OpensOnStreakIff`,
  `CircuitBreaker.OpensWithoutStreak`).
- docs/milestone-3.md gives the backoff for every attempt; in the code the shift leaves the 64-bit integer at
  the 64th attempt, after which nothing is waited for (`Control.BackoffIsTheWait`).

Two things one would expect of the active artifact fail too, with no document behind them: that its
deployment has not failed (`ActiveArtifact.BecomesFailedIff`, and `FreshStartsNeverRunFailed` for how to
start supervisors so that it holds) and that it has not been rolled back
(`ActiveArtifact.BecomesRolledBackIff`, `RollbackDrain.DrainEndsRolledBackIff`).

And `toDecimal` takes any int64, but for the smallest one it prints only a sign (`Output.ToDecimal`).

## Model

| member | source | states |
|---|---|---|
| ArtifactTable.CasTouchesOneRow | internal/db/artifacts.go:205-224 | Under the UNIQUE constraint a status update guarded by tx_id and status changes exactly the row of that transaction, if it has that status, and else nothing |
| ArtifactStatus.Transitions | internal/db/artifacts.go:55-92 | The transition table is exactly these sixteen moves |
| ArtifactStore.Store.GetArtifactByTxID | internal/db/artifacts.go:172-203 | The row of the transaction, or "not found" as an error |
| ArtifactStore.Store.LatestArtifactByStatus | internal/db/artifacts.go:176-203 | The newest row with the status, or "not found" as an error |
| ArtifactStore.Store.LatestPromotedTxID | internal/db/artifacts.go:407-420 | The tx_id of the newest promoted row, empty when there is none |
| ArtifactStore.Store.Update | internal/db/artifacts.go:211-223 | A guarded UPDATE rewrites exactly the matching rows and reports whether there was one |
| ArtifactStore.Store.LogEvent | internal/db/db.go:186-209 | The log grows by this event at its end |
| ArtifactStore.Store.InsertArtifactWithEvent | internal/db/artifacts.go:123-153 | One transaction: a new row with every column and its event, or no change and an error, exactly for blank fields and for a known tx_id |
| ArtifactStore.Store.EnsureBootstrapPromotedArtifact | internal/db/artifacts.go:155-170 | Adds a promoted row without base unless the trimmed tx_id is known; an error exactly for blank fields |
| ArtifactStore.Store.TransitionArtifactStatus | internal/db/artifacts.go:205-224 | A move outside the transition table is refused; otherwise exactly the rows with tx_id and status get the new status, the error (NULL when blank) and the time, and the result says whether there was one |
| ArtifactStore.Store.TransitionArtifactStatusWithEvent | internal/db/artifacts.go:226-260 | The same with an event in the same transaction, written exactly when the row changed |
| ArtifactStore.Store.CleanupInProgressArtifacts | internal/db/artifacts.go:262-285 | Building becomes build_failed, testing test_failed, self_checking self_check_failed and deploying deploy_failed, each with the error and the time; every other row is as before, nothing is left in progress, and the result is the number of rows that were |
| ArtifactStore.Store.ClaimApprovedArtifactForDeploy | internal/db/artifacts.go:287-340 | Takes the approved row that is oldest by creation time, then id, to deploying with its start time, and returns it; nothing exactly when none is approved |
| ArtifactStore.Store.MarkArtifactDeployCompleted | internal/db/artifacts.go:342-357 | Compare-and-set from deploying to deployed_unstable with the finish time |
| ArtifactStore.Store.MarkArtifactDeployFailed | internal/db/artifacts.go:359-374 | Compare-and-set from deploying to deploy_failed with the finish time and the first 2000 characters of the error |
| ArtifactStore.Store.ApproveArtifactWithEvent | internal/db/artifacts.go:376-405 | Compare-and-set from staged to approved that records the approving chat, with its event |
| ArtifactStore.Store.SetArtifactBuildMetadata | internal/db/artifacts.go:422-430 | Records the digest (NULL when blank) and the time on the row of the transaction only |
| ArtifactStore.Store.MarkArtifactPromoted | internal/db/artifacts.go:452-454 | Compare-and-set from deployed_unstable to promoted, clearing the error |
| ArtifactStore.Store.MarkArtifactRollbackPending | internal/db/artifacts.go:456-458 | Compare-and-set from deployed_unstable to rollback_pending, clearing the error |
| ArtifactStore.Store.MarkArtifactRolledBack | internal/db/artifacts.go:488-490 | Compare-and-set from rollback_pending to rolled_back, clearing the error |
| ArtifactStore.Store.RequestArtifactRollbackWithEvent | internal/db/artifacts.go:460-486 | A deployed or promoted row with a base becomes rollback_pending with its event; any other row is left alone and its status returned |
| ArtifactTable.BaseIffNotBlank | internal/db/artifacts.go:471-473 | A row has a base iff its base column is neither NULL nor blank |
| Text.TrimTakesBlanks | cmd/worker/main.go:464-464 | Trimming takes all white space off both ends of a text and nothing else |
| Text.SpaceCodes | cmd/worker/main.go:464-464 | White space is exactly these code points |
| UpdateInvariant.ApplyKeeps | internal/db/artifacts.go:123-430 | Whatever statement a process may issue, the store invariant, row identities, the transition table and the other processes' builds survive it |
| UpdateInvariant.TrailAdvances | internal/db/artifacts.go:55-92 | A legal move with the event that belongs to it takes a log trail that fits the old status to one that fits the new |
| UpdateInvariant.BinPathInjective | cmd/worker/main.go:934-934 | Artifacts of different transactions have different binaries |
| UpdateProtocol.Alphabets | cmd/worker/main.go:738-741 | The characters a command's tx_id can have, and those of a digest |
| UpdateRuns.ProcStable | cmd/supervisor/main.go:263-382 | What a process knows about the rows it has read stays true through every statement of the others |
| UpdateRuns.NextAllowed | cmd/worker/main.go:810-1027 | From what it knows, every next statement of a supervisor, watcher or worker is one the invariant allows |
| UpdateRuns.NextOk | cmd/supervisor/main.go:72-176 | After its own statement a process knows what its next place needs |
| UpdateRuns.StepKeeps | cmd/supervisor/main.go:72-323 | Every action, including kills, restarts of the container and files overwritten by others, keeps the invariant |
| UpdateRuns.InvAlways | cmd/supervisor/main.go:23-177 | The invariant holds after every run from an installed bootstrap record |
| UpdateRuns.SomePromoted | internal/db/artifacts.go:407-420 | There is always a promoted transaction, and it is one that was promoted when read |
| UpdateSafety.ActiveArtifactIsVetted | cmd/supervisor/main.go:263-382 | In every state of every run the active link is the binary of exactly one row: bootstrap, or one that went through build, test, self-check, staging, approval and claim in this order; its digest is recorded, and unless someone else wrote files the active file has it |
| UpdateSafety.DeploySwitchWasVerified | cmd/supervisor/main.go:339-366 | Even with files tampered with, a supervisor about to switch has earlier found the file to have the digest its row recorded and still records |
| UpdateSafety.TestedBinaryIsRecorded | cmd/worker/main.go:958-983 | After any run every artifact that reached the tests, whatever became of it later, records the digest of its binary, and unless someone else wrote files the binary is there and has it |
| ActiveArtifact.BecomesFailedIff | cmd/supervisor/main.go:45-57 | A step makes the active artifact one whose deployment failed iff it is a startup cleanup while the active row is deploying, or a switch to a row that another supervisor's cleanup has already failed |
| ActiveArtifact.FreshStartsNeverRunFailed | startup.sh:26-32 | If every start is a start of the container, which resets the link, made when no supervisor runs, the deployment of the active artifact has never failed, whatever else happens |
| ActiveArtifact.BecomesRolledBackIff | cmd/supervisor/main.go:263-296 | A step makes the active artifact one that has been rolled back iff it switches back to a base that has been, or marks the pending rollback of the artifact another supervisor switched to |
| UpdateScenarios.LoneStartRunsFailed | cmd/supervisor/main.go:361-375 | From the installed bootstrap, for every transaction: killed between switch and mark and started without its container, the supervisor runs an artifact marked deploy_failed |
| UpdateScenarios.SecondSupervisorRunsFailed | cmd/supervisor/main.go:49-57 | From the installed bootstrap, for every transaction: a container started while another supervisor is about to switch leads to the same |
| UpdateScenarios.DrainEndsRolledBack | cmd/supervisor/main.go:72-78 | From the installed bootstrap, for any two transactions: when the base is rolled back before the artifact built on it, the drain leaves the rolled-back base active |
| UpdateSteps.LeavesPromotedIff | internal/db/artifacts.go:460-486 | In every reachable state a promoted row leaves that status in a step iff the step is a worker's request to roll it back |
| UpdateScenarios.PromotedIsLeft | cmd/worker/main.go:894-913 | From the installed bootstrap, for every transaction: a promoted artifact becomes rollback_pending |
| UpdateSteps.ChangeIsLoggedIff | internal/db/artifacts.go:205-374 | In every reachable state a change of status comes with an event of its transaction iff the step is none of the cleanup, the claim, the marks and the end of an unreadable build; in these the log does not change |
| UpdateScenarios.ClaimIsNotLogged | internal/db/artifacts.go:287-340 | From the installed bootstrap, for every transaction: the claim changes the status and not the log |
| UpdateSteps.BecomesPromotedIff | cmd/supervisor/main.go:208-229 | In every reachable state a row becomes promoted in a step iff it is deployed_unstable and the step is a supervisor's or a watcher's mark of it |
| UpdateWatch.PromotionHasCause | cmd/supervisor/main.go:135-147 | In every run a row becomes promoted only by a supervisor that found its worker's run stable, or a watcher whose timer fired before it was told of its worker's exit |
| UpdateWatch.ToldWatcherGivesUp | cmd/supervisor/main.go:309-315 | A watcher that was told of its worker's exit stays at its timer or is gone, and when the timer fires it gives up and changes nothing |
| UpdateWatch.LateWatcherNeverPromotes | cmd/supervisor/main.go:105-116 | In every run, once a supervisor notices its worker's exit while the watcher's timer runs, that watcher never promotes, whatever follows; and it leaves the wait only when the worker has exited |
| UpdateWatch.OthersStay | cmd/supervisor/main.go:115-116 | A step changes no other process, except that leaving the wait tells the watcher, if its timer still runs |
| UpdateWatch.CrashLoopWasDetected | cmd/supervisor/main.go:159-172 | In every run a supervisor that handles a crash loop has earlier detected one |
| UpdateSteps.CleanupStepSweeps | cmd/supervisor/main.go:49-57 | The machine's cleanup step leaves nothing in progress: each of the four statuses becomes its failure, with error and time, every other row stays |
| UpdateScenarios.PromotedWhileRunning | cmd/supervisor/main.go:305-323 | From the installed bootstrap, for every transaction: the artifact is promoted with its worker still running |
| UpdateSafety.LogAgreesWithTable | internal/db/artifacts.go:123-260 | After any run each success-path event of a transaction is in the log exactly once if the row's status lies on or past its edge, never otherwise, in pipeline order; bootstrap and unknown transactions have none |
| UpdateSafety.ApprovedOrCancelled | cmd/worker/main.go:836-892 | Approve and cancel never both succeed |
| UpdateSafety.StepFollowsTransitionTable | internal/db/artifacts.go:55-92 | Every status write of every action, including those that do not consult it, is a move of the transition table |
| UpdateSafety.AtMostTenStatusChanges | internal/db/artifacts.go:55-92 | Over any run a row changes status at most ten times |
| UpdateSafety.EachStatusEnteredOnce | internal/db/artifacts.go:55-92 | An artifact is approved, deployed, promoted and rolled back at most once each, however often asked |
| UpdateSafety.BaseChainEndsAtBootstrap | cmd/worker/main.go:930-947 | From every row the bases lead strictly back through artifacts that have been promoted to bootstrap, which stays promoted without a base |
| UpdateSafety.PromotedEverIsHistory | internal/db/artifacts.go:452-454 | "Has been promoted" in these theorems means that some earlier state of the run had the row promoted |
| UpdateSafety.RollbackTargetAlwaysFound | cmd/supervisor/main.go:263-271 | A rollback always finds its base, a promoted transaction always exists, and no supervisor is ever about to insert bootstrap again, under any path |
| UpdateSafety.EveryRunIsDrainable | cmd/supervisor/main.go:72-78 | After every run the pending rollbacks can be drained, and the drain ends at none of their binaries |
| RollbackDrain.StepCounts | cmd/supervisor/main.go:252-296 | With a working switch each pass of the loop head takes exactly one row off the pending ones |
| RollbackDrain.StepKeepsFinal | cmd/supervisor/main.go:273-284 | A complete pass changes neither the final table nor the final link of the drain |
| RollbackDrain.CleanupSpares | internal/db/artifacts.go:262-285 | The startup cleanup leaves identities, paths, pending rows and rolled-back rows as they are |
| RollbackDrain.PassKeeps | cmd/supervisor/main.go:45-78 | A pass, whole or killed before the switch, before the mark or after it and restarted through the cleanup: what it keeps of the final table and link, and that it takes a row off the pending ones exactly if it marked one |
| RollbackDrain.KilledDrainEndsTheSame | cmd/supervisor/main.go:45-78 | However often the drain is killed and restarted, with its container or without, it ends with the table of an undisturbed drain, cleaned if there was a restart, and at the same base, unless the container was restarted after the last mark; then at bootstrap |
| RollbackDrain.DrainEndsRolledBackIff | cmd/supervisor/main.go:252-296 | The drain ends at a rolled-back artifact iff the base of the lowest pending row is rolled back when it begins |
| UpdateRestart.EnsureAlone | cmd/supervisor/main.go:45-47 | The machine's first steps of a start have the outcome of ensureBootstrapArtifactRecord |
| UpdateRestart.FirstStartInstalls | startup.sh:26-32 | The first container start ever, over an empty store, installs and links bootstrap, and the invariant of all later runs holds |
| UpdateRestart.StartupAlone | cmd/supervisor/main.go:45-58 | From a start to the loop head: the table is cleaned, the link kept, and the log grows by one cleanup event iff anything was cleaned |
| UpdateRestart.RestartReachesHead | cmd/supervisor/main.go:45-72 | A supervisor killed at any place and started again comes to the loop head over the cleaned table, with the link reset if its container was started |
| UpdateRestart.KilledPassInMachine | cmd/supervisor/main.go:45-78 | The machine's steps of a pass cut off by a kill at any of its places, the start and the startup make one killed pass of the drain |
| UpdateRestart.PassesInMachine | cmd/supervisor/main.go:45-78 | Every sequence of whole and killed passes is a run of the machine from loop head to loop head |
| RollbackDrain.FinalLinkIsNoneOfThem | cmd/supervisor/main.go:263-296 | The drain ends at the base of the lowest pending row, which is none of the rows rolled back |
| Supervisor.SupervisorProcess.AtomicSwitchSymlink | cmd/supervisor/main.go:397-414 | The link is switched completely or not at all |
| Supervisor.SupervisorProcess.ExecuteArtifactRollback | cmd/supervisor/main.go:263-296 | Table, log, link and result of a rollback, for a missing base, a failed switch and a lost mark |
| Supervisor.SupervisorProcess.ProcessPendingRollback | cmd/supervisor/main.go:252-261 | The newest pending row is rolled back; none pending is an error, not a success |
| Supervisor.SupervisorProcess.AttemptArtifactRollback | cmd/supervisor/main.go:231-250 | On a crash loop the newest deployed_unstable row with a base is marked and rolled back |
| Supervisor.SupervisorProcess.PromoteLatestDeployedArtifact | cmd/supervisor/main.go:208-229 | The newest deployed_unstable row is promoted and logged, if it still is one |
| Supervisor.SupervisorProcess.DeployApprovedArtifact | cmd/supervisor/main.go:325-382 | Claim, check of the digest, switch and mark, with every failure recorded |
| Supervisor.SupervisorProcess.EnsureBootstrapRecord | cmd/supervisor/main.go:178-206 | At startup the bootstrap record is made and logged exactly when no artifact is promoted and the active binary is there |
| Supervisor.SupervisorProcess.BeforeWorker | cmd/supervisor/main.go:72-82 | One pass of the loop before a worker: again from the top after a rollback, else the deployment |
| Supervisor.SupervisorProcess.AfterWorker | cmd/supervisor/main.go:135-173 | The end of a worker: promotion after a stable run, nothing after a short one, after a crash loop a rollback or the note that there was none |
| Supervisor.SupervisorProcess.DrainPendingRollbacks | cmd/supervisor/main.go:72-78 | The loop head repeats exactly once per pending row and ends at the base of the lowest one |
| Supervisor.PendingIsDrainStep | cmd/supervisor/main.go:252-261 | A pass of the loop head is one step of the drain |
| UpdateRefinement.RollbackAlone | cmd/supervisor/main.go:263-296 | The machine's supervisor alone has the outcome of executeArtifactRollback |
| UpdateRefinement.PendingAlone | cmd/supervisor/main.go:252-261 | Likewise for processPendingRollback |
| UpdateRefinement.DeployAlone | cmd/supervisor/main.go:325-382 | Likewise for deployApprovedArtifact |
| UpdateRefinement.PromoteAlone | cmd/supervisor/main.go:208-229 | Likewise for promoteLatestDeployedArtifact |
| UpdateRefinement.CrashAlone | cmd/supervisor/main.go:231-250 | Likewise for attemptArtifactRollback |
| UpdateRefinement.HeadAlone | cmd/supervisor/main.go:72-82 | The machine's supervisor alone has the outcome of one pass before a worker |
| UpdateRefinement.ExitAlone | cmd/supervisor/main.go:135-173 | The machine's supervisor alone has the outcome of the end of a worker |
| UpdateRefinement.StartStep | cmd/supervisor/main.go:93-106 | A worker and its watcher are started and waited for, or the supervisor ends |
| UpdateRefinement.KillStep | cmd/worker/main.go:958-958 | Of a killed process only a running build command stays behind |
| UpdateRefinement.OrphanStep | cmd/worker/main.go:958-958 | The build command left behind writes its output until it ends, and nothing else |
| UpdateRefinement.ContainerStep | startup.sh:26-32 | A container start rebuilds bootstrap, links it and launches a supervisor, and leaves the store alone |
| UpdatePipeline.UpdateWorker.RunUpdateStagePipeline | cmd/worker/main.go:918-1027 | A known tx_id changes nothing, and the reply asks for a new one exactly in the six statuses that are final failures; otherwise the table grows by one row whose status, digest, base and error, and the log by exactly the events, are those of the first failing step, and the reply says success iff the row is staged |
| UpdatePipeline.UpdateWorker.Approve | cmd/worker/main.go:836-864 | The staged row becomes approved, with the chat and its event, and the worker exits exactly then |
| UpdatePipeline.UpdateWorker.Cancel | cmd/worker/main.go:866-892 | The staged row becomes cancelled with its event, and the reply says so exactly then |
| UpdatePipeline.UpdateWorker.RequestRollback | cmd/worker/main.go:894-913 | A deployed or promoted artifact with a base becomes rollback_pending with its event, anything else is left alone, and the worker exits iff the artifact is now rollback_pending |
| PipelineRefinement.StageAlone | cmd/worker/main.go:918-1027 | For every outcome of the commands and every reading of the clock at each statement the machine's worker alone leaves the table and log of the pipeline |
| PipelineRefinement.StageRefused | cmd/worker/main.go:918-929 | The machine's worker leaves everything as it is for a known transaction |
| PipelineRefinement.StageUnprepared | cmd/worker/main.go:930-940 | And when the directory cannot be made |
| PipelineRefinement.CommandHeard | cmd/worker/main.go:810-835 | What the machine's worker does with each command |
| PipelineRefinement.ApproveAlone | cmd/worker/main.go:836-864 | The machine's worker alone makes the compare-and-set of approve |
| PipelineRefinement.CancelAlone | cmd/worker/main.go:866-892 | The machine's worker alone makes the compare-and-set of cancel |
| PipelineRefinement.RequestRollbackAlone | cmd/worker/main.go:894-913 | The machine's worker alone makes the compare-and-set of rollback, from the status it read, if the artifact can be rolled back |
| InboxTable.OffsetIsNextId | internal/db/db.go:169-173 | The derived offset is one past the largest stored update id, zero for an empty inbox |
| InboxTable.Inbox.EnqueueMessage | cmd/worker/main.go:1127-1137 | One queued row per update id with all its columns: a known id is ignored, and the result says which |
| InboxTable.Inbox.DeriveOffset | internal/db/db.go:169-173 | Computes that offset |
| InboxTable.Inbox.HasRunnableTasks | cmd/worker/main.go:1139-1161 | True iff a row is queued or one of the first 100 failed rows has an attempt left and has waited 1, 2, 4, 8, 16 or 30 seconds since its last |
| InboxTable.Inbox.ClaimNextTask | cmd/worker/main.go:1163-1220 | Takes some queued row, else the first of the first 200 failed rows that has waited and has an attempt left, to in_progress with one attempt more; nothing exactly when there is neither |
| InboxTable.ReadyIff | cmd/worker/main.go:1296-1305 | For up to 63 attempts a failed task is ready iff it has an attempt left and its wait is over; after that at once |
| InboxTable.Inbox.MarkTaskDone | cmd/worker/main.go:1222-1224 | The row is done, all others as before |
| InboxTable.Inbox.MarkTaskFailed | cmd/worker/main.go:1226-1229 | The row is failed with its attempts kept |
| InboxTable.Inbox.MarkTaskExhausted | cmd/worker/main.go:1231-1242 | The row is failed with its attempts used up |
| InboxTable.Inbox.TakeUpdates | cmd/worker/main.go:227-247 | The loop over a batch stores its text messages, each at its own time, and moves the offset past its last update |
| InboxTable.RunnableIsPicked | cmd/worker/main.go:1139-1220 | If hasRunnableTasks is true, claimNextTask on the same inbox at the same or a later time returns a task |
| InboxTable.SomethingMayBePicked | cmd/worker/main.go:1163-1204 | Every table offers claimNextTask one of its two outcomes |
| InboxIntake.StepKeepsIntake | cmd/worker/main.go:206-247 | Every step of every worker keeps the intake invariant |
| InboxIntake.InboxIsThePrefixOfTheTexts | cmd/worker/main.go:1127-1137 | After any run the rows are exactly the source's text messages below the derived offset, each once, in order |
| InboxIntake.RestartLosesNothing | cmd/worker/main.go:164-177 | No text message lies between the derived offset and a worker's own, but the one it is about to store |
| InboxIntake.PassedTextsAreStored | cmd/worker/main.go:227-247 | Every text message a worker has passed has exactly one row |
| InboxIntake.DerivedOffsetNeverAhead | internal/db/db.go:169-173 | With one worker at a time the derived offset never exceeds the one in memory |
| InboxIntake.BatchIsTheLoop | cmd/worker/main.go:227-247 | The machine's steps over an undisturbed batch, under any forward clock, do what the loop does |
| InboxSteps.RowAfterStep | cmd/worker/main.go:1163-1242 | What any step of any worker does to a task's row: the claim, done, failed, given up, in every column, and nothing else |
| InboxSteps.RowsAfterStep | cmd/worker/main.go:1127-1137 | A row is added exactly when a text message without a row is stored, and it is queued |
| InboxSteps.PlaceAfterStep | cmd/worker/main.go:328-388 | Where a worker goes with a task in hand: it gives the task up exactly on the third equal fingerprint in the newest 200 retry events, and schedules a retry exactly when there is an attempt left and no stall |
| InboxSteps.PollStep | cmd/worker/main.go:201-206 | A poll brings a batch and confirms everything below its offset, for good |
| InboxSteps.PollBringsTheNext | cmd/worker/main.go:206-206 | A batch is the next updates from the id asked for, in order, none left out |
| InboxSteps.GivingUpHasCause | cmd/worker/main.go:328-351 | In every run a worker about to give a task up has found it failing for the third time in the same state with attempts left |
| Control.BackoffIsTheWait | internal/control/control.go:86-95 | The wait is the doubling one with a cap of thirty seconds iff the attempt is at most the 63rd |
| Control.WaitTable | internal/control/control.go:86-95 | One, two, four, eight and sixteen seconds, then always thirty |
| Control.BackoffBeyond | internal/control/control.go:86-95 | No wait before the first attempt and after the 64th; at the 64th the smallest 64-bit integer |
| Control.NoProgress | internal/control/control.go:103-114 | True iff the last k fingerprints exist, k is at least two and all are equal |
| InboxRetry.StepKeepsRetry | cmd/worker/main.go:1163-1242 | Every step of every worker keeps the count of attempts, the spacing of claims and one worker per task |
| InboxRetry.ClaimsAreBounded | cmd/worker/main.go:1163-1220 | Over any run a task is claimed at most MaxRetries + 1 times (once when MaxRetries is negative) |
| InboxRetry.ClaimsKeepTheSchedule | cmd/worker/main.go:1296-1305 | The claim after k attempts comes no earlier than the first plus the k waits, up to the 64th claim |
| InboxRetry.LateRetriesDoNotWait | internal/control/control.go:86-100 | A task in its 64th failure is ready the moment it fails iff MaxRetries is at least 64 |
| InboxRetry.ClosedIsNeverClaimed | cmd/worker/main.go:1222-1242 | A task that is done or given up is never claimed again, whatever the run does afterwards |
| Stall.RecentFingerprints | cmd/worker/main.go:1350-1386 | The last fingerprints of the task among the newest 200 retry events, oldest first |
| Stall.ProgressStalled | cmd/worker/main.go:1339-1348 | True iff the last k-1 fingerprints of the task in that window exist and all equal the current one |
| InboxStall.StepKeepsStall | cmd/worker/main.go:328-360 | Every step keeps the account of a task's claims against its filed and unfiled failures |
| InboxStall.StuckTaskIsGivenUp | cmd/worker/main.go:328-351 | Over any run a task that always fails with the same, still visible fingerprint is claimed at most three times, plus once for each failure that was not filed |
| InboxStall.StuckTaskIsClaimedThrice | cmd/worker/main.go:328-351 | In a run with one worker at a time and at most 200 retries, a task all of whose failures are filed with the same fingerprint is claimed at most three times |
| InboxStall.OneWorkerNeverOverlaps | cmd/worker/main.go:189-388 | With one worker at a time no task is claimed before its last failure is filed or its worker gone |
| InboxStall.NothingSlipsEarly | cmd/worker/main.go:1354-1359 | Events leave the window only after more than 200 retries were scheduled |
| CircuitBreaker.Breaker.Allow | internal/control/circuit.go:44-54 | Refuses exactly while open and cooling; turns half-open at the end of the cooldown |
| CircuitBreaker.Breaker.RecordSuccess | internal/control/circuit.go:56-61 | Closed, with all counts forgotten |
| CircuitBreaker.Breaker.RecordFailure | internal/control/circuit.go:63-79 | Counts by class and opens at the threshold, or at once from half-open |
| CircuitBreaker.Breaker.WorkerIteration | cmd/worker/main.go:189-225 | One turn of the main loop as the breaker sees it, and whether it opened in it |
| CircuitBreaker.ClosedCountsFailures | internal/control/circuit.go:56-79 | After any calls a closed breaker's count of a class is the number of its failures since the last success, and below the threshold |
| CircuitBreaker.ClosedIff | internal/control/circuit.go:44-79 | After any calls the breaker is closed iff since the last success no class has failed as often as the threshold (five if none is set) |
| CircuitBreaker.SuccessCloses | internal/control/circuit.go:56-61 | A success closes the breaker, which stays closed while every class fails fewer times than the threshold |
| CircuitBreaker.FailedProbeReopens | internal/control/circuit.go:63-72 | A failure from half-open opens it at its own time and for its class |
| CircuitBreaker.CooldownGrants | internal/control/circuit.go:44-54 | An open breaker refuses until the cooldown (thirty seconds if none is set) is over, then grants and is half-open |
| CircuitBreaker.OpenedByFailure | internal/control/circuit.go:63-79 | A breaker that is not closed was opened by one failure, whose time and class it holds, and not closed since |
| CircuitBreaker.ProbeDecides | cmd/worker/main.go:189-230 | The turn after the cooldown: a failed poll opens it again, a finished task closes it, a successful poll closes it exactly if polling had failed |
| CircuitBreaker.OpensAtThreshold | internal/control/circuit.go:63-79 | A closed breaker opens at a failure iff it is the threshold-th of its class since the last success |
| CircuitBreaker.OpensOnStreakIff | internal/control/circuit.go:63-79 | Opening exactly on a streak of one class holds at a failure iff it is not the threshold-th of its class with another class's failure in between |
| CircuitBreaker.OpensWithoutStreak | internal/control/circuit.go:63-79 | With threshold two, failures of two classes in turn open the breaker at the third |
| CircuitBreaker.OpeningsAreApart | cmd/worker/main.go:189-225 | In the worker's use consecutive openings are at least the cooldown apart |
| CircuitBreaker.OpeningsAreBounded | cmd/worker/main.go:315-377 | A run that spans time T opens the breaker at most 1 + T / cooldown times |
| ProcessTask.ParseToolProtocol | cmd/worker/main.go:583-596 | The whole reply is decoded, or else the first JSON object in it |
| ProcessTask.WholeReplyIsParsed | cmd/worker/main.go:584-587 | A reply that decodes as a whole is taken as it is |
| ProcessTask.WrappedObjectIsParsed | cmd/worker/main.go:588-595 | When the whole reply does not decode, a JSON object after text without a brace and before any text is what is decoded |
| ProcessTask.ProseIsNotParsed | cmd/worker/main.go:588-591 | Without a balanced stretch such a reply is no protocol message |
| ProcessTask.AskFirst | cmd/worker/main.go:405-462 | The checks before the first completion and that completion, with the failure, log and messages of each way out |
| ProcessTask.NextTurn | cmd/worker/main.go:470-503 | One more turn within the turns left: two messages more, the reply, its budgets and its events |
| ProcessTask.ToolLoop | cmd/worker/main.go:470-516 | Goes on exactly as long as the replies ask for tools |
| ProcessTask.LastChance | cmd/worker/main.go:517-555 | A protocol reply that says nothing gets one more turn, whose answer counts whatever it is |
| ProcessTask.ProcessTask | cmd/worker/main.go:391-571 | For any model, clock and tools the task ends; its completions, their messages, its event log, its failure and its reply are those of the specification |
| ProcessTask.WrappedAnswerIsSent | cmd/worker/main.go:464-469 | A first reply within the limits that wraps an answer in prose sends exactly the trimmed answer |
| ProcessTask.WrappedToolsAreRun | cmd/worker/main.go:470-471 | A first reply within the limits that wraps tool calls in prose runs them |
| ProcessTask.BlankReplyIsEmpty | cmd/worker/main.go:556-558 | A first reply of white space alone fails as empty and sends nothing |
| ProcessTask.TaskStaysWithinPolicy | internal/control/control.go:46-83 | At most MaxTurns completions and tool rounds; one turn started for each completion, and on success completed too; at most one reply, only on success, non-empty and within the tokens |
| ProcessTask.MessagesGrowByTwo | cmd/worker/main.go:476-480 | Each further completion carries all earlier messages and exactly two more |
| ProcessTask.GoesOnAfter | cmd/worker/main.go:495-503 | Every completion but the last came back within the limits on time and tokens and called for the next |
| ProcessTask.OutcomeIsDetermined | cmd/worker/main.go:391-571 | The specification leaves nothing open: two outcomes for the same inputs are equal |
| JsonScanner.ExtractJSONObject | cmd/worker/main.go:764-808 | Returns the shortest prefix from the first brace that is balanced outside strings, and fails iff there is none |
| JsonScanner.TrimmingIsHarmless | cmd/worker/main.go:765-765 | Trimming the reply first does not change what is found |
| JsonScanner.ObjectIsShortest | cmd/worker/main.go:764-808 | A written JSON object is balanced and none of its proper prefixes is |
| JsonScanner.WrittenObjectIsExtracted | cmd/worker/main.go:764-808 | For every JSON object, with strings in every spelling of section 7 of RFC 8259, any prefix without an opening brace and any suffix, exactly the object is returned |
| EventTree.KidsAreKids | cmd/event-tree/main.go:138-151 | The children of an id are the events that name it as parent, each once, strictly increasing by id |
| EventTree.BuildTree | cmd/event-tree/main.go:131-154 | Every node ends with exactly its children, in order; the root is the node with the root id, or nil |
| EventTreeShape.BuildShape | cmd/event-tree/main.go:131-154 | When parents are logged before children, the heap under the root is the tree of the list |
| EventTreeShape.PreorderIsTheDescendants | cmd/event-tree/main.go:102-154 | The preorder of that tree is exactly the root and its descendants in the list, each once |
| EventTreeShape.TreeIsOrdered | cmd/event-tree/main.go:146-151 | At every node the children strictly increase by id and name the node as their parent |
| EventTreeView.VisitsArePreorder | cmd/event-tree/main.go:187-199 | The visits both views are compared with are the preorder of the tree |
| EventTreeView.JsonIsTheTreeCut | cmd/event-tree/main.go:253-275 | The JSON document with limit L holds exactly the nodes down to depth L, in preorder, at their own depths |
| EventTreeView.RootJsonIsTheTreeCut | cmd/event-tree/main.go:277-284 | The document printed for a root is that cut from depth one, the whole tree when there is no limit |
| EventTreeView.LineReadsBack | cmd/event-tree/main.go:158-168 | The line of a node at depth d carries exactly 4(d-1) runes before its text |
| EventTreeView.PrintShowsTheVisits | cmd/event-tree/main.go:156-200 | The lines printed are those of the visits down to the limit, in order, with one "[...]" line under exactly the cut nodes that have children |
| EventTreeView.PrintedIsDrawn | cmd/event-tree/main.go:156-200 | Every rune left of a text: a rail for each node above but the root, open iff a sibling follows it, then the branch, closed iff the node is the last child |
| EventTreeView.PayloadIsShown | cmd/event-tree/main.go:244-251 | The payload is shown unless left out by request, missing, empty or undecodable |
| EventTreeView.PrintingIsUndone | cmd/event-tree/main.go:156-200 | Without a limit, regrowing the tree from the indentation gives it back |
| EventTreeView.PrintingIsInjective | cmd/event-tree/main.go:156-200 | Without a limit the lines determine the tree |
| CrashWindow.CrashTimes.Append | cmd/supervisor/main.go:149-149 | The list grows by one, in place or in a larger buffer |
| CrashWindow.CrashTimes.FilterInPlace | cmd/supervisor/main.go:151-157 | The aliased filter keeps exactly the times in the window, in order: no unread element is overwritten |
| CrashWindow.CrashTimes.RecordExit | cmd/supervisor/main.go:138-173 | One worker exit: reset after a stable run, else append, filter, compare, and reset on detection |
| CrashWindow.ListIsTheWindow | cmd/supervisor/main.go:138-173 | Over any exits in time order the list is the short runs since the last reset that lie in the window |
| CrashWindow.DetectedIffThresholdInWindow | cmd/supervisor/main.go:159-172 | A crash loop is detected iff at least the threshold of them do |
| Output.ApplyOutputLimits | internal/tool/output.go:15-32 | The longest prefix within both limits; each flag is set iff its own cut shortened the text |
| Output.ApplyTwice | internal/tool/output.go:15-32 | A second application changes nothing and sets no flag |
| Output.ToDecimal | internal/tool/output.go:40-60 | Reading the text gives the value back iff it is not -2^63; no index below zero and no leading zero; for -2^63 only a sign is printed |

## Left out

- Columns git_revision, build_*_at, test_summary, self_check_summary, approval_message_id, locked_at and the inbox's error text; parents and payloads of the update and agent events.
- SQL errors: every single statement succeeds; kills carry the failure behaviour. A full disk or a locked database is not modelled.
- The fallback of rebuilding in place with git (attemptRollback): AutoRollback is off, so a failed rollback only logs.
- `ensureBootstrapArtifactRecord` interleaved with other processes before the record exists: runs start with bootstrap installed and active, as `UpdateRestart.FirstStartInstalls` leaves it; `UpdateSafety.RollbackTargetAlwaysFound` shows that the insert is then never reached.
- atomicSwitchSymlink is one atomic step; the temporary link and the window inside `rename` are not modelled.
- Progress: no theorem says that a run makes progress, that a queued task is ever claimed or that a failed one is retried; the code's scans are bounded and its queued pick is unordered.
- The queue is not claimed to be first-in first-out: the pick among queued rows is the database's choice.
- Dropping pending messages on the first start (bootstrapOffset), and updates whose enqueue failed with an SQL error.
- What happens inside build, test and self-check commands and inside tools: each is an outcome.
- JSON decoding of envelopes and payloads, formatting of event lines and the regular expressions of commands: functions given as inputs.
- Rows of the history table: the two entries added after a reply, and the window read from them; the assembled context is an input.
- Fixed wording of prompts and replies; messages of the exchange are named by their kind instead.
- HTTP clients, notifications, redaction of secrets, path policy, configuration, history compression and system prompt loading.
- Task ids above 2^53, which the stall scan reads through a JSON number.
- The circuit breaker's gate in the inbox machine: it only skips turns of the loop, so every run with it is a run without it.
- InboxStall.StuckTaskIsGivenUp: the bound of three holds for a task whose failures were all filed; a worker killed between the failed mark and the retry event, or a failing direct command, adds one claim each, because the code then records no fingerprint.
- UpdateSafety.ActiveArtifactIsVetted: says that the active artifact was approved and claimed, not that its deployment succeeded or that it is not rolled back; these are false, and `ActiveArtifact.BecomesFailedIff` and `BecomesRolledBackIff` say exactly when.
- ArtifactStore.Store.LogEvent: the parent, the payload and the returned id of an event are not modelled here; parents are in `EventTree`.
- ArtifactStore.Store.SetArtifactBuildMetadata: the columns git_revision and build_finished_at are not modelled.
- Supervisor.SupervisorProcess.AtomicSwitchSymlink: the checks of the path, the temporary link and the rename are one outcome, success or failure.
- A watcher outlives its killed supervisor in the machine, though it is a goroutine of that process: the runs include more than the program's.
- InboxTable.Inbox.MarkTaskDone: the error column is not modelled.
- InboxTable.Inbox.MarkTaskFailed: the error column is not modelled.
- InboxTable.Inbox.MarkTaskExhausted: the error column is not modelled.
