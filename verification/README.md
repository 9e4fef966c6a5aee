# Verified model of the Dirextalk updater

The updater keeps one message server up to date on a host. It has one durable state
record, one physical backup slot and three kinds of actor that share the host: the job
engine, the watchdog and the control API. This project models them and proves what their
code relies on, in every interleaving, with failing saves and with crashes between any two
steps.

## How it is built

| file | models |
|---|---|
| Text.dfy, Release.dfy, State.dfy | versions, digests, manifests, the release index, and everything `normalizeAndValidate` checks |
| Changes.dfy | every transaction on the record, as a function of the record |
| System.dfy | the whole updater as a state machine: threads with program counters, any number of requests, the host gate, saves that may fail or not reach the disk, crashes |
| Ledger.dfy, Safety.dfy, Images.dfy, Runs.dfy | the invariant and the results about every state of every run |
| Progression.dfy, Acceptance.dfy, Races.dfy, Outcomes.dfy, Tokens.dfy, Versions.dfy | progress, validation, the weak spots with their exact conditions, what a run's transactions do and which answer each needs, where tokens come from, and the version a job starts from |
| Start.dfy, Driving.dfy, Witnesses.dfy | a first upgrade, and runs from a fresh installation that end in each weak spot |
| Process.dfy, Machine.dfy, Runtime.dfy, Engine.dfy | the daemon, the host's commands and data, the host operations and the job engine as the code runs them; every change they make to record and host is an event of the state machine |
| WatchdogLoop.dfy, ControlApi.dfy | the watchdog's round and the request handlers, on the same daemon |
| Timeline.dfy, History.dfy, Rounds.dfy | the watchdog's arithmetic as a replay of kept notes, its link to runs, and a published round from begin to end |
| Backup.dfy | the backup directories, with an ordered crash model |
| Store.dfy, Migration.dfy | the state file: transactions, and the migration of older schemas |
| Paths.dfy | index validation, the path search and the plans it makes |
| Environment.dfy, Archive.dfy | the Compose environment file and the host-state archive |

`World.visible` is the record in the state file as the process reads it and `World.durable`
what is on disk; they differ only after a save that replaced the file and then failed to
sync its directory, until the system writes the directory back on its own. A crash finds
either. `Host.image` is the image in the environment file and `Host.kept` every image a
crash may leave there, the last synced one and those written since. `Host` also holds the
committed backup, whether a rotation is under way, and two counters the code does not have,
used to state how often a backup was restored or a service restarted.

Three constants say what may go wrong: `reliable` (no save, load or file operation fails),
`cooperative` (every host command and probe answers yes) and `alone` (the other threads do
nothing). Nothing is assumed of them: every contract holds whatever they are, and those that
mention them say what must happen when nothing goes wrong. What the host answered is on
record in `HostMachine.log` and returned as ghost results, so that the contracts of the
operations and of the engine can say which answer leads where.

A job's record is one flat structure in the source; here it is split into what no
transaction changes (`JobSpec`), its tokens, and its progress (`JobRun`). Statuses, steps,
error codes and messages are enumerations with a case for any other text. Times are whole
seconds, with zero for the unset time.

The backup crash model is ordered: a crash keeps some prefix of the directory operations
that were not synced, a failed sync makes nothing durable, a removal may stop half way, and
a directory whose files were never synced may come back incomplete.
`ReorderedRemovalLosesTheBackup` shows that the order is needed.

Where the code does not do what one might expect, the model follows the code:

- A job whose process dies after the third durable count and before the outcome stays active for good (`Races.StuckJobsStayStuck`), because validation refuses the fourth count.
- A resumed activation whose pull fails is reported as failed before mutation even when the target is already configured.
- A cancellation between taking the repair lock and publishing the session is missed; exclusion still holds.
- A cancellation before the second reload keeps the repair attempt spent (`Witnesses.AttemptIsSpentInVain`); `Rounds.CancelledRoundsAttempt` says exactly which cancellations give it back.
- The healthy observation is written without looking at the desired state again.
- A creation records the version it read before its transaction, so a job can be queued for a version that has just been replaced (`Witnesses.StaleJobIsCreated`), only when a job was active at the read (`Versions.JobsStartFromTheVersionRead`); such a job only fails.
- A failed image write may have replaced the file without syncing its directory. If the job then ends without a synced write, the next job can start from an image that a crash takes away again while it pulls (`Witnesses.CrashUndoesImageWrite`, `Witnesses.RestoresHideImageWrite`). That can happen if and only if an image a crash may leave disagreed with the configured one when the job came on record (`Runs.ImageFollowsPhase`, `Witnesses.SureImageIsNeeded`).
- An archive that leaves a directory out would be restored with that directory not synced; the walk leaves none out.
- A restart's transaction does not look for other active jobs; the validation of the record does.
- The check that a backup's time is in UTC compares instants and so only rejects the unset time.

## Model

| member | source | states |
|---|---|---|
| Runs.RepairNeverOverlaps | internal/updater/watchdog.go:189-201 | in no state of any run does a watchdog repair overlap an engine operation on the host; during the repair the desired state is running, no job is active and no request is inside the gate |
| Runs.RollbackFindsItsBackup | internal/updater/execution.go:183-243 | from pulling to the health check and throughout a rollback, in memory and on disk, the job's recovery point is valid, its own, for its current version, and equal to the committed backup |
| Runs.ImageFollowsPhase | internal/updater/host_runtime.go:545-566 | whichever copy of the record and whichever of the images in doubt a crash leaves, the image is the target from migrating on and the recovery image once a restore is recorded; when every image a crash could leave as the job came on record agreed with the configured one, it is also the source while pulling, and source or target while stopping or restoring |
| Images.StepKeepsSource | internal/updater/host_runtime.go:1388-1394 | no event, image writes without a synced directory and crashes included, makes a job that started from a sure image lose track of it before the target is configured for good |
| Witnesses.SureImageIsNeeded | internal/updater/host_runtime.go:1388-1394 | the condition is needed: from any reachable idle state in which an image in doubt disagrees with the configured one, a job created now reaches pulling with an image configured that is not its source |
| Witnesses.UnsureJobsLoseTheirSource | internal/updater/host_runtime.go:1388-1394 | whatever image a crash may leave, a job created now can find it configured while it pulls |
| Witnesses.CrashUndoesImageWrite | internal/updater/host_runtime.go:1388-1394 | a run from a fresh installation in which a crash brings back the file before an unsynced image write, under a pulling job that started from the image it had written |
| Witnesses.RestoresHideImageWrite | internal/updater/host_runtime.go:635-637 | a run in which the last written image is again the source's, after three restores without a sync, and a crash still leaves the target under the next pulling job |
| Runs.RecordFollowsPhase | internal/updater/execution.go:427-448 | an active job announces the service as running exactly while queued, validating or pulling, names its step, reports no error before a rollback and calls the version it started from safe |
| Runs.StepsFollowPhase | internal/updater/execution.go:427-448 | in an upgrade phase the completed steps are seven times the finished hops plus the phase's rank, and no recovery attempt is counted |
| Runs.RecordStaysConsistent | internal/updater/state.go:383-400 | in every state jobs and idempotency keys name each other, at most one job is active, and the desired state is upgrading exactly when one is |
| Runs.RecordsMakeSense | internal/updater/execution.go:57-108 | in every state, in memory and on disk, a finished job is complete, a failure names its error, a success has reached its target without error, an unfinished job has its place among hops and steps of at most three attempts, a recovery point is valid and the job's own, and a job stands at a version of its plan's chain or below its direct target |
| Runs.RecordOnlyGrows | internal/updater/http.go:277-320 | whatever reached the disk stays: no job, key, target or token is lost or rebound for the rest of the run |
| Runs.TokensStayAccepted | internal/updater/http.go:595-606 | a token handed to a caller is among its job's tokens in every later state, crashes included |
| Runs.AtMostThreeRestores | internal/updater/execution.go:482-502 | however often the process crashes, a job's backup is restored at most three times, and each restore is already counted on disk when it begins |
| Runs.AtMostThreeRestarts | internal/updater/execution.go:561-591 | an accepted restart is carried out at most three times, each already counted on disk |
| Runs.RunKeepsInv | internal/updater/state.go:561-575 | the invariant that carries these results holds in every state of every interleaving, save outcome and crash |
| Safety.StepKeepsInv | internal/updater/state.go:561-575 | one step of any thread, or a crash, keeps the invariant, and the record on disk only grows |
| Safety.EditTracks | internal/updater/execution.go:140-416 | every engine transaction leads to a phase that the host already matches |
| Safety.CommandTracks | internal/updater/http.go:277-320 | a creation, a replay, a restart or a change of desired state leaves every active job matched by the host |
| Safety.StepKeepsGate | internal/updater/host_gate.go:26-52 | whoever stands inside the gate owns the lock |
| Safety.StepKeepsRepairWindow | internal/updater/watchdog.go:189-230 | from the reload that lets a repair start until its outcome is saved the desired state is running |
| Safety.StepKeepsTokens | internal/updater/http.go:277-331 | a token is on disk before its caller sees it |
| Safety.RestoresStayBounded | internal/updater/execution.go:486-493 | restores are counted only for jobs on disk and never beyond three |
| Safety.OthersLeaveJobAlone | internal/updater/http.go:393-401 | no request and no watchdog step touches the active job's progress, the plans or the host |
| Progression.StepMovesForward | internal/updater/execution.go:427-448 | no step, save failure or crash lets the record on disk fall behind, nor the visible one behind the disk |
| Progression.CompletedStepsNeverDecrease | internal/updater/execution.go:427-448 | the completed steps on disk never decrease while the job stays in its upgrade phases, although resumed activations report earlier phases again |
| Acceptance.RollbackKeepsHop | internal/updater/execution.go:511-530 | a finished rollback records the hop the job started from |
| Acceptance.FinishesAtTarget | internal/updater/execution.go:269-288 | the last hop of a valid chain installs the plan's target, so a job can only succeed at its target version |
| Acceptance.DesiredFollowsEdit | internal/updater/state.go:393-399 | after every engine transaction the desired state is upgrading exactly while the job is active |
| Acceptance.CreationAcceptedIffFresh | internal/updater/http.go:277-320 | a creation for a newer version is accepted if and only if the drawn job id is not in use |
| Ledger.AcceptedChangeExtends | internal/updater/http.go:371-391 | no accepted transaction loses or rebinds a job, a key or a token |
| State.ChainVersionsIncrease | internal/updater/state.go:74-113 | versions strictly increase along a valid chain |
| State.CompletedHopInverts | internal/updater/execution.go:533-543 | the hop found for a version is exactly the hop at which the chain installs it |
| State.PhasesInOrder | internal/updater/execution.go:30-55 | the phases' ranks follow the order in which they are reported, and every known status is active or terminal, never both |
| Acceptance.WatchdogAcceptedIffValid | internal/updater/state.go:561-575 | a write of the watchdog is accepted if and only if its own record stays valid |
| Acceptance.DesiredAcceptedIffIdle | internal/updater/desired_state.go:16-51 | a change of the desired state is accepted if and only if no job is active and it does not ask for the reserved state |
| Start.FirstJobIsPickedUp | internal/updater/http.go:217-331 | from a fresh installation a creation request goes through the gate, its job and token are on disk, and the engine picks the job up |
| Outcomes.EngineWritesAreAccepted | internal/updater/execution.go:655-666 | in every run validation accepts each transaction of the engine, if and only if it is not the count of a fourth recovery attempt |
| Outcomes.FinishedJobsMatchTheImage | internal/updater/execution.go:269-288 | in every run a job that succeeds, is rolled back or finishes a hop reports the version whose image is configured at that moment, durably, also as its last safe version; success means its target, and a rollback keeps its error and, for a planned job, the hop it started from |
| Outcomes.PreMutationFailures | internal/updater/execution.go:593-603 | a failure reported as before mutation calls the job's own version the safe one: wrong for migrating and starting jobs, planned or direct, whose target is configured; for a job that came on record with a sure image right while preparing if and only if the job is not stale, right while pulling, and while stopping if and only if the target is not configured |
| Outcomes.OutcomesNeedTheirAnswer | internal/updater/execution.go:140-603 | in every run, when a job leaves a phase, finishes a hop, succeeds, counts as rolled back or restarted, begins a rollback or fails, the operation on it that began and ended last gave exactly the answer for that: success, a hop and a finished rollback only after a healthy check, a rollback's error code after the answer it names, a refusal with the availability and reason the preparation gave |
| Races.RunsAimHigher | internal/updater/http.go:253-276 | in every run a direct job on its way is leaving a version older than its target |
| Witnesses.UpgradedButReportedUnchanged | internal/updater/host_runtime.go:549-551 | such a wrong report is reached from a fresh installation, with the target configured and the service announced as running |
| Outcomes.EndedJobsDecideTheService | internal/updater/execution.go:545-603 | a saved transaction of the engine leaves maintenance if and only if it records the third failed recovery or restart attempt, with a restart on offer, upgrading if and only if the job is still active, and running otherwise |
| Outcomes.EndedJobsReport | internal/updater/execution.go:269-603 | in every run the record of a job that ends says so completely: complete, a success without error, a rollback with the error that began it, a restart that helped with the job's old error, and any other failure with its own error, message, availability and what is safe, its progress unchanged; a rollback that begins announces the outage and changes nothing else |
| Outcomes.OnlyOneRecoveryPoint | internal/updater/execution.go:223-237 | once a recovery point is saved no other job keeps one |
| Outcomes.CollidingIdsChangeNothing | internal/updater/state.go:368-388 | a creation whose job id is in use changes nothing, because the old key would no longer name its job |
| Outcomes.ReplaysCreateNothing | internal/updater/http.go:352-391 | a replay, and a creation with a known key, adds no job and changes no job's progress |
| Outcomes.ReplaysAddTokens | internal/updater/http.go:352-391 | in every run a replay, and a creation with a known key, is accepted if and only if the key's job has the requested target and the token's hash is well formed; it then appends that one token to that one job, and otherwise changes nothing |
| Outcomes.RotationIsExact | internal/updater/http.go:371-391 | an unknown key is not found, a known key with another target is a conflict, and any other rotation appends the token |
| Outcomes.CreationsAddTheirJob | internal/updater/http.go:277-320 | in every run an accepted creation adds exactly the job it asked for, queued, one hop of seven steps, for the version that was read, with one token, and suppresses the watchdog; a refused one changes nothing |
| Outcomes.DesiredChangesExactly | internal/updater/desired_state.go:16-51 | in every run a change of the desired state goes through exactly while no job is active and the state is not the reserved one, and then changes that and suppresses the watchdog, keeping its attempts and instants |
| Outcomes.RestartsNeedTheirToken | internal/updater/http.go:493-557 | in every run a restart is accepted if and only if the presented token is one of those on record for the job, the job failed with the service down, no job is active and its progress figures are in order; any other attempt changes nothing, and an accepted one changes exactly the job's status, step, availability and attempts, the desired state and the watchdog |
| Outcomes.RestartsAreScreened | internal/updater/http.go:500-519 | already the first look turns a restart away without a token that is on record, or for a job that did not fail with the service down |
| Tokens.TokensAreGranted | internal/updater/http.go:277-391 | in every run each token on record for a job, in memory and on disk, was there at the start or was brought by an accepted creation or replay for that very job |
| Tokens.RestartsShowGrantedTokens | internal/updater/http.go:595-606 | in every run a restart is accepted only with a token that was granted to its job; any other token leaves both copies of the record unchanged |
| Outcomes.SuppressionLostOnlyBlindly | internal/updater/watchdog.go:123-131 | in every run, outside the running state the watchdog stays suppressed unless exactly one kind of transaction runs, the healthy observation that does not look at the desired state again |
| Versions.StaleJobsOnlyFail | internal/updater/host_runtime.go:896-904 | until it first fails, or is lost in a crash, a job for a version that is not configured stays in its preparation and the image stays what it is, across crashes too when the image and the job are on disk |
| Versions.JobsStartFromTheVersionRead | internal/updater/http.go:253-320 | in every run a new job is for the version configured when its request read it; it is stale from the start if and only if the configured version changed between that read and its creation, and never when no job was active at the read |
| Versions.IdleReadsStayCurrent | internal/updater/http.go:253-262 | a version read inside the gate while no job is active stays the configured one, and no job becomes active, until the request uses it |
| Versions.StaleStep | internal/updater/host_runtime.go:896-904 | no step of any thread takes a stale job past its preparation or changes the image |
| Witnesses.StaleJobIsCreated | internal/updater/http.go:253-320 | a run from a fresh installation that creates such a job: another request's job runs at the read and succeeds before the creation |
| Races.PullFailureAfterWrite | internal/updater/host_runtime.go:549-551 | a crash while migrating, a resumed activation and a failing pull do end that way: failed before mutation, target configured, service announced as running |
| Races.DyingAfterThirdCount | internal/updater/execution.go:486-492 | dying after the third durable count leaves the job rolling back with a next count that is always refused |
| Races.StuckJobsStayStuck | internal/updater/execution.go:482-492 | once the third attempt is counted on disk and in memory and the engine is at no operation, the job stays exactly as it is for the rest of the run, whatever the threads do, however saves end and however often the process crashes |
| Witnesses.RollbackIsStuck | internal/updater/execution.go:486-492 | that state is reached from a fresh installation |
| Races.CancellationReachesPublished | internal/updater/host_gate.go:26-52 | in every run a request's cancellation reaches the repair that holds the lock if and only if the repair has published its session |
| Races.CancellationCanMiss | internal/updater/host_gate.go:27-32 | a cancellation between the lock and the publication is missed: the repair runs uncancelled while the request waits |
| Witnesses.RepairOutlivesCancellation | internal/updater/host_gate.go:27-32 | that happens in a run from a fresh installation, after three failed observations |
| Witnesses.SuppressionIsLost | internal/updater/watchdog.go:123-131 | a run from a fresh installation in which a healthy observation undoes the suppression of a job just created |
| Rounds.CancelledRoundsAttempt | internal/updater/watchdog.go:189-247 | in every run the attempt of a published round comes back if and only if a request cancels the session while the repair is carried out, the record is not suppressed before the refund, and the refund is not lost; a session cancelled before its reload carries out no repair and keeps the attempt spent |
| Witnesses.AttemptIsSpentInVain | internal/updater/watchdog.go:189-195 | a run from a fresh installation in which a session is cancelled before its reload, the round ends without a repair, and the attempt stays spent |
| History.InterruptedRepairIsRefunded | internal/updater/watchdog.go:232-247 | in every run that refund gives back exactly the repair's own attempt, the last one noted, unless the watchdog was suppressed meanwhile, and then the attempt stays spent |
| Engine.JobEngine.RunUntilOver | internal/updater/http.go:107-124 | with no crash and no failing save any queued job is over within three calls of the engine, whatever the host answers and the other threads do; a job stuck after its third count stays as it is |
| Engine.JobEngine.RunActive | internal/updater/execution.go:140-297 | one call works on the one active job, ends it or leaves its recovery to be retried, and rests again; with a cooperative host it drives a direct job, and every hop of a planned job, to success with the target configured |
| Engine.JobEngine.RunDirectActive | internal/updater/execution.go:299-416 | a direct job from wherever it stands: over, or its recovery retried with one more attempt; undisturbed, it succeeds with its target configured |
| Engine.JobEngine.RunPlannedActive | internal/updater/execution.go:144-296 | a planned job over all its hops, with the same outcomes |
| Engine.JobEngine.RunHopPhases | internal/updater/execution.go:167-295 | one hop from whichever phase the job stands in; another turn follows only with the hop finished and its image configured |
| Engine.JobEngine.RefuseUnbound | internal/updater/execution.go:173-180 | a hop that binds no source digest ends the job, by rollback if and only if it had begun to change the host, with the source named as untrusted |
| Engine.JobEngine.PrepareStage | internal/updater/execution.go:183-243 | with saves working the preparation's answer decides: a refusal ends the job with its reason and availability, an invalid or foreign recovery point or an unbound digest ends it with that error, and anything else pulls with the recovery point that is the committed backup; the answer is what the commands given to the host made it |
| Engine.JobEngine.RecordPrepared | internal/updater/execution.go:184-243 | the engine's own checks of a prepared recovery point, each with the error and availability it ends the job with |
| Engine.JobEngine.ActivateStage | internal/updater/execution.go:244-264 | with saves working the activation's answer decides: success means the health check comes next, a failure before mutation ends the job with its version safe, a mutation rolls back with the outcome the restore and its check decide; an unmutated failure leaves the image alone, which is the job's own version's when the job was pulling and started from a sure image |
| Engine.JobEngine.CheckDirectStage | internal/updater/execution.go:396-411 | with saves working a direct job succeeds with its target configured if the confirmation window answered yes, and otherwise has the outcome of a rollback for an unhealthy target; that answer is the next one on the host's record |
| Engine.JobEngine.CheckHopStage | internal/updater/execution.go:265-292 | with saves working a hop whose confirmation window answered yes is recorded with its version, the last one succeeds and any other goes on validating the next hop; an unhealthy one has the outcome of a rollback |
| Engine.JobEngine.ResumeRollback | internal/updater/execution.go:482-531 | with saves working the job counts as rolled back if and only if the restore, unless it was already recorded, and then the restored release's check answered yes; otherwise it gives up after three attempts or retries with one more; a fourth is not tried and changes nothing; a restore that answered yes has started the service on the backup's data |
| Engine.JobEngine.RestoreCounted | internal/updater/execution.go:486-502 | the restore follows its durable count and is recorded only if it answered yes, with the recovery image configured and the service started on the backup's data |
| Engine.JobEngine.FinishRestored | internal/updater/execution.go:503-531 | with saves working the job counts as rolled back exactly if the restored release's confirmation window answered yes |
| Engine.JobEngine.RecordRecoveryFailure | internal/updater/execution.go:545-559 | the third failed attempt ends the job, an earlier one starts over |
| Engine.JobEngine.BeginAndRunRollback | internal/updater/execution.go:456-480 | the rollback begins with the given error and the first attempt, and the answers of the restore and the check decide between its three outcomes |
| Engine.JobEngine.ResumeRestart | internal/updater/execution.go:561-591 | with saves working the restart's answer decides: yes ends the job with the service available and its old error, no leaves it for one more counted attempt, and the third no ends it with the restart's own error; the image is not touched |
| Engine.JobEngine.FinishBeforeMutationFailure | internal/updater/execution.go:593-603 | the job has failed with the given error and availability, its own version is the last safe one, and the service is meant to run |
| Engine.JobEngine.Save | internal/updater/execution.go:655-666 | an engine transaction leaves the edited job, or the old one after an error; only the fourth attempt count is refused outright |
| Runtime.ComposeRuntime.PrepareBackup | internal/updater/host_runtime.go:321-433 | success means every command of the preparation succeeded in order and the slot durably holds the job's backup, which describes its trusted source and, if it is new, holds the data the service was stopped with; after any failed command there is no success and the slot and the committed backup are as before; the service counts as unavailable exactly if it was not confirmed before or after the copy or could not be stopped, and is stopped only once the record on disk announces it; with saves working the source is called untrusted exactly for an unbound digest; undisturbed it succeeds |
| Runtime.ComposeRuntime.CommitBackup | internal/updater/host_runtime.go:428-432 | the slot is in doubt only while the rotation lasts, and afterwards is what the backup store holds |
| Runtime.ComposeRuntime.CopyAndCommit | internal/updater/host_runtime.go:362-432 | the data are copied while the service stands still and it is started again whatever failed; only a complete copy is described and committed |
| Runtime.ComposeRuntime.CopyVolumes | internal/updater/host_runtime.go:367-395 | dump and archives are taken in order until one fails; success means the staged artifacts are exactly the service's data |
| Runtime.ComposeRuntime.StartSource | internal/updater/host_runtime.go:852-894 | the source is started, confirmed and, if configured by tag, its digest looked up; it counts as down exactly when one of the first two failed |
| Runtime.ComposeRuntime.ActivateTarget | internal/updater/host_runtime.go:536-568 | with saves working it succeeds if and only if pull, image write and recreation all do, leaves the host alone exactly if the pull fails, and is a mutation if a later command fails; success means starting with the target configured; the service is recreated only with the migration on record |
| Runtime.ComposeRuntime.WriteTargetImage | internal/updater/host_runtime.go:555-557 | success means the target is configured for good; after an error either image may be, and a crash may undo it |
| Runtime.Boot | cmd/dirextalk-updater/main.go:90-92 | a first start on sound backups, once startup recovery succeeds, links the host's slot with the backup store |
| Runtime.ComposeRuntime.Restart | cmd/dirextalk-updater/main.go:90-92 | after any crash of a linked process startup recovery finds the slot the crash event allows, takes that event and links host and backups again; when it fails it can be repeated |
| Runtime.ComposeRuntime.LinkedMayStop | internal/updater/backup.go:168-205 | whenever host and backups are linked the process may die and start again |
| Runtime.ComposeRuntime.Progress | internal/updater/execution.go:427-448 | a reported phase is saved before the operation goes on, and never moves the job back |
| Runtime.ComposeRuntime.RestoreBackup | internal/updater/host_runtime.go:619-670 | not begun if and only if the committed backup cannot be read, and then successful if and only if the image is there or pulled and all nine commands succeed in order; success means the recovery image is configured and the service was started on exactly the data of the committed backup |
| Runtime.ComposeRuntime.PutDataBack | internal/updater/host_runtime.go:638-668 | the service is stopped, every part of its data is replaced, the database emptied before the dump is loaded, and it is started on exactly the backup's data |
| Runtime.ComposeRuntime.RestartCurrent | internal/updater/host_runtime.go:679-712 | succeeds if and only if the service starts, the configured image is of one of the job's two versions and the confirmation window answers yes |
| Runtime.ComposeRuntime.Check | internal/updater/host_runtime.go:570-572 | a health check changes neither the job nor the host, and answers yes if and only if enough of its probes in a row did |
| Machine.HostMachine.Confirm | internal/updater/host_runtime.go:1054-1076 | the loop probes until enough probes in a row were healthy or all attempts are used up, and succeeds if and only if they were |
| Machine.OneMoreProbe | internal/updater/host_runtime.go:1059-1069 | a new probe completes a window exactly when enough of the latest ones were healthy |
| Process.Daemon.Update | internal/updater/state.go:561-575 | a transaction of the engine among running threads: saved and on disk, or the old or new record after an error |
| Process.Daemon.Reachable | internal/updater/state.go:561-575 | the running daemon's history is a run, so every result about runs holds of it |
| Store.StateStore.Update | internal/updater/state.go:561-575 | an acknowledged transaction is accepted, visible and on disk; after an error the file holds the old record or the accepted new one and the disk is untouched; with no failing call exactly the accepted ones succeed |
| Store.StateStore.Save | internal/updater/state.go:577-625 | a record that does not validate is never written; success means it is on disk; with no failing call exactly valid records are saved |
| Store.StateStore.Load | internal/updater/state.go:431-453 | what is loaded is the migrated, validated file, or a fresh record when there is none; with no failing call nothing else is refused |
| Store.LoadedIsValid | internal/updater/state.go:431-453 | a loaded record is valid, and a valid current file loads as it is |
| Store.UpdateIsAWrite | internal/updater/state.go:561-575 | what the store leaves behind is always one of the save outcomes the system's runs range over |
| Backup.BackupStore.Commit | internal/updater/backup.go:119-166 | whatever fails and wherever a crash strikes, the old or the new backup stays recoverable; success means the new one, artifacts included, is alone at current, durably; with nothing failing it commits exactly complete staging directories, and with one failing call it succeeds exactly if the new backup got to current |
| Backup.BackupStore.Rotate | internal/updater/backup.go:133-166 | the renames of the commit, with the same outcome for every failing call |
| Backup.BackupStore.Promote | internal/updater/backup.go:151-153 | the new backup is renamed to current only once the retirement of the old one is on disk, and a failing rename changes nothing |
| Backup.BackupStore.DropRetired | internal/updater/backup.go:154-161 | the retired backup is removed only once the new one is at current on disk |
| Backup.BackupStore.Seal | internal/updater/backup.go:91-117 | metadata in shape are written last, and only beside all four artifacts; otherwise nothing changes |
| Backup.BackupStore.Store | internal/updater/host_runtime.go:1269-1281 | one artifact of the staged directory is written, which is then neither described nor synced |
| Backup.BackupStore.Recover | internal/updater/backup.go:168-205 | success, which means that no call failed, leaves only current, durably, holding the directory that was recoverable; failure leaves it recoverable |
| Backup.BackupStore.RecoverCommitFailure | internal/updater/backup.go:207-218 | with no further failing call a failed commit counts as success if and only if what could be recovered is the intended backup; success needs that recovery to complete durably |
| Backup.BackupStore.Current | internal/updater/backup.go:237-242 | what is read is the committed backup, unless reading it fails |
| Backup.BackupStore.RemoveRetiring | internal/updater/backup.go:159-161 | removing the retired backup, even half way, leaves current and every crash state sound; it is gone exactly on success |
| Backup.BackupStore.RemoveStaging | internal/updater/backup.go:197-203 | removing a staging directory touches nothing else, and it is gone exactly on success |
| Backup.BackupStore.Begin | internal/updater/backup.go:67-89 | a new staging directory appears beside the others, empty and not synced, unless the name is taken or a call fails |
| Backup.BackupStore.Discard | internal/updater/backup.go:230-235 | a rejected staging directory goes, durably if no call fails; current and the retired backup stay |
| Backup.BackupStore.SyncRoot | internal/updater/backup.go:204 | a successful sync makes the present root durable, a failed one changes nothing |
| Backup.CrashIsSound | internal/updater/backup.go:119-205 | a crash of a safe disk keeps a complete backup at current, or at retiring when current is missing |
| Backup.CrashedDiskIsSafe | internal/updater/backup.go:168-205 | what a crash leaves can itself be recovered, and crashed again, with the old or the new backup in it |
| Backup.ReorderedRemovalLosesTheBackup | internal/updater/backup.go:156-180 | the order matters: were the removal of the retired backup to reach the disk before the committing rename, no backup would be left |
| Timeline.BudgetHolds | internal/updater/watchdog.go:136-167 | at any instant at most three attempts, spent and not refunded, lie in the last ten minutes, and pruning lost none of them |
| Timeline.RefundRestores | internal/updater/watchdog.go:232-247 | a refund brings back exactly the pruned list from before the attempt it answers |
| Timeline.ThreeFailuresBeforeRepair | internal/updater/watchdog.go:150-166 | an attempt is spent only by the third of three failed observations that follow each other with nothing kept between them; the first may be from before the first note |
| Timeline.FailuresAreConsecutive | internal/updater/watchdog.go:150-155 | the failure count is the number of counted observations at the very end, with those from before the first note while nothing reset it, and below three after any note |
| Timeline.FourthRepairWaits | internal/updater/watchdog.go:145-225 | with three unrefunded attempts in the last ten minutes neither a third failure in a row nor a failed repair leads to a fourth: unless something resets the watchdog the next attempt comes fifteen minutes later at the earliest, with none of the earlier ones counting any more |
| Timeline.NoRepairDuringCooldown | internal/updater/watchdog.go:145-161 | after degrading no attempt is spent for fifteen minutes unless the service was healthy, repaired or suppressed |
| Timeline.CooldownEndsEmpty | internal/updater/watchdog.go:142-161 | until an attempt is spent, an observation after the cooldown finds none in the window |
| Timeline.StatusExplainsError | internal/updater/watchdog.go:123-228 | the status tells which kind of error is reported, and only an observing watchdog holds a count |
| Timeline.LastObservationIsLatest | internal/updater/watchdog.go:123-144 | the recorded last observation is the latest one kept |
| Timeline.LastRepairIsLatest | internal/updater/watchdog.go:162-164 | the recorded last repair is the latest attempt spent, and none after a refund |
| Timeline.RecentIsSuffix | internal/updater/watchdog.go:256-265 | pruning an ordered list drops exactly the instants that left the window |
| History.RecordIsReplay | internal/updater/watchdog.go:105-265 | in every run the watchdog's record, on disk and in memory, is the replay of the notes that copy has kept, dated by a clock that never runs back |
| History.EffectIsNote | internal/updater/watchdog.go:249-254 | every transaction changes the watchdog's record exactly as its note says, and those of other threads only ever suppress |
| History.BudgetHoldsInRuns | internal/updater/watchdog.go:136-167 | the budget holds in every state of every run, crashes included, and the record lists exactly the attempts that count |
| History.CountStaysBelowThreshold | internal/updater/watchdog.go:150-155 | the saved failure count is below three, if and only if the updater started below three or has kept a note since |
| History.RepairsAreEarned | internal/updater/watchdog.go:150-166 | a repair is carried out only for an attempt noted on disk too, after three failed observations with nothing kept between them, of which the first may have been counted before the updater started |
| History.RepairsRespectCooldown | internal/updater/watchdog.go:145-161 | after degrading, a repair starts fifteen minutes later at the earliest unless something reset the watchdog |
| WatchdogLoop.Watchdog.Reconcile | internal/updater/watchdog.go:105-230 | the round's events carry the runtime's two answers and it repairs at most once; undisturbed it repairs if and only if the service is meant to run, was found unhealthy and this is the third failure outside a cooldown with fewer than three attempts in the last 600 seconds, waits if the lock is held, and leaves on record one failure further, healthy, degraded, or the repair's success or failure, field by field |
| WatchdogLoop.Watchdog.Observe | internal/updater/watchdog.go:105-187 | what is observed is what is recorded, and only a failed observation that spent an attempt goes on; undisturbed the record is the observation's and a repair follows exactly when one is due |
| WatchdogLoop.Watchdog.Repair | internal/updater/watchdog.go:189-230 | inside the gate at most one repair runs, its answer or its refund is what is recorded, and the gate is given back in every case; undisturbed the repair always runs |
| WatchdogLoop.Watchdog.Save | internal/updater/watchdog.go:136-176 | a round goes on to a repair exactly after a saved failed observation that spent an attempt, and stays inside the gate until it leaves it |
| WatchdogLoop.DueIsRepairDue | internal/updater/watchdog.go:145-166 | the transaction spends an attempt exactly when a repair is due by the count of attempts in the window |
| WatchdogLoop.RoundsRepairOnce | internal/updater/watchdog.go:189-230 | a round whose events follow its table carries out one repair if it says so and otherwise none, and never after a healthy observation |
| WatchdogLoop.Watchdog.RecentAttempts | internal/updater/watchdog.go:256-265 | the loop computes the attempts still in the window |
| ControlApi.Control.CreateJob | internal/updater/http.go:217-331 | a ticket is handed out only after a saved creation for a newer version, or a saved replay, and its token is on disk among its job's; with no other thread and no failing call the reply is decided: a replay's ticket for a known key with the same target, a refusal while not running or busy, waiting for a held gate, otherwise a ticket exactly for a newer target and a fresh id |
| ControlApi.Control.RotateTicket | internal/updater/http.go:352-369 | a ticket is handed out only after a saved rotation for its key and target; with no other thread and no failing call exactly for a known key with that target and a well-formed token |
| ControlApi.Control.EnterGate | internal/updater/host_gate.go:44-52 | a mutation cancels a published repair first and is inside only with the lock; with no other thread exactly if the lock was free |
| ControlApi.Control.Commit | internal/updater/http.go:277-320 | a request's success means its command was accepted, is durable and its token issued; with nothing failing an accepted command succeeds |
| ControlApi.Control.ChangeInGate | internal/updater/desired_state.go:16-51 | a change of desired state, or a restart, succeeds only with its command accepted and saved inside the gate, which is left in every case; with no other thread and no failing call the reply is decided: a restart needs a token on record for a failed job with the service down, and then both need a free gate and an idle updater |
| Paths.PathSearch.Visit | internal/updater/release_index.go:272-293 | the search that stops at its second hit yields the first two of all paths to the latest release, each extended from where it stood |
| Paths.PathSearch.UpgradePath | internal/updater/release_index.go:247-301 | empty on the latest release, the direct edge when published, otherwise a path if and only if exactly one exists, and the two errors exactly when there is none or more than one |
| Paths.AllPathsAreAll | internal/updater/release_index.go:272-293 | the full enumeration lists exactly the paths of published edges to the latest release |
| Paths.AllPathsAreDistinct | internal/updater/release_index.go:272-293 | it lists none twice |
| Paths.CountDecides | internal/updater/release_index.go:294-300 | counting it decides between no path, one, and several |
| Paths.EdgeLeadsForward | internal/updater/release_index.go:165-171 | every published edge leads to strictly fewer remaining releases, so the search ends |
| Paths.PathSearch.Validate | internal/updater/release_index.go:119-200 | the loops, with their table of releases and their set of seen edges, accept exactly the indexes that satisfy the declarative conditions |
| Paths.PathSearch.DirectUpgradeStep | internal/updater/release_index.go:215-236 | a step comes back exactly for a published edge of a valid index, with the edge's digests and an allowed target |
| Paths.PathSearch.FindEdge | internal/updater/release_index.go:230-235 | the loop finds the published edge between two versions if there is one |
| Paths.EdgesAreDistinct | internal/updater/release_index.go:190-197 | strictly ordered edges have different endpoints |
| Paths.EdgeHasStep | internal/updater/release_index.go:303-314 | on a valid index every edge has its step, bound to the edge's digests and allowed by its target |
| Paths.PathMakesValidChain | internal/updater/state.go:74-113 | every path of published edges makes a plan the chain validator accepts |
| Paths.LaterStepsTrustThePrevious | internal/updater/release_index.go:183-189 | each later step trusts exactly the digest the step before it installs, and versions strictly increase |
| Migration.StateFile.Migrate | internal/updater/state.go:455-550 | the steps in place compute the migration function, and fail exactly where it is undefined |
| Migration.StateFile.BindJobs | internal/updater/state.go:459-476 | schema 1 jobs are bound to their plans' edges, or the migration fails |
| Migration.Schema1Binds | internal/updater/state.go:459-472 | a schema 1 file is bound exactly if every job's plan is on record with a source version and a digest; a job keeps its own version and digest and takes the plan's where it has none |
| Migration.StateFile.ChainPlans | internal/updater/state.go:494-527 | chainless plans become one-step chains and jobs get their hops |
| Migration.StateFile.DropPlans | internal/updater/state.go:529-546 | unreferenced plans and the discovery are dropped, and nothing else changes |
| Migration.MigrationKeepsRecord | internal/updater/state.go:455-550 | from schema 1 to 5 job ids, keys, tokens, targets and recovery points stay, and the plans kept are exactly those some job refers to, each as it was or, without a chain, with one step to its own target |
| Migration.MigrationKeepsService | internal/updater/state.go:455-550 | the desired state is upgrading for a schema 1 file with an active job and otherwise as it was; the watchdog's record is as it was from schema 4 on and unset before |
| Migration.MigrationKeepsProgress | internal/updater/state.go:455-550 | every field of every job is what its schema's steps name for it and otherwise as it was: availability, error, message, last safe version, step and hop of failed and active jobs included |
| Migration.MigratedJobsHavePlans | internal/updater/state.go:455-550 | from schema 1 to 4 a job's plan stays on record through all steps, with a chain to the same target and the job bound to its digest and length; a schema 1 file with a job without a plan does not migrate |
| Migration.Schema5StaysValid | internal/updater/state.go:529-546 | a schema 5 record valid apart from its version migrates to a valid one |
| Migration.QueuedSchema1BecomesValid | internal/updater/state.go:459-546 | a schema 1 job queued on one valid edge migrates to a valid record, still queued and now upgrading |
| Migration.SucceededJobMigrates | internal/updater/state.go:506-515 | a succeeded job agrees with its plan at the last hop |
| Migration.RolledBackJobMigrates | internal/updater/state.go:516-519 | a rolled-back job is placed at the hop whose version it fell back to |
| Environment.RefTextIsExact | internal/updater/host_runtime.go:1303-1330 | printing an image reference and parsing it are inverse to each other |
| Environment.ImageReadsBack | internal/updater/host_runtime.go:1346-1365 | after a rewrite the image key reads back exactly what was written, if and only if the file stayed within the size limit |
| Environment.OtherKeysReadAsBefore | internal/updater/host_runtime.go:1354-1365 | every other key reads as before |
| Environment.ImageLineSetsOnlyImage | internal/updater/host_runtime.go:1536-1544 | a line that sets the image sets no other key |
| Environment.EnvironmentFile.WriteImage | internal/updater/host_runtime.go:1346-1395 | success leaves the rewritten text for good; an error leaves the old or the rewritten one, and adds the rewritten one to what a crash may leave; with no failing call it succeeds exactly if the file can be rewritten |
| Environment.EnvironmentFile.WriteAllowedImage | internal/updater/host_runtime.go:1339-1344 | only canonical references are written, a written one reads back, and the images that the file and the texts in doubt select change as one image write of the state machine changes them; with no failing call every canonical reference is written to a file that can be rewritten |
| Environment.EnvironmentFile.ReplaceImageLine | internal/updater/host_runtime.go:1354-1364 | the loop replaces every image line and counts them |
| Environment.EnvironmentFile.Read | internal/updater/host_runtime.go:1528-1549 | the loop finds the single value of a key |
| Archive.RoundTrip | internal/updater/host_runtime.go:1397-1517 | archiving directories and regular files and unpacking gives exactly the same paths, kinds and contents, with the owner's permissions |
| Archive.RestorableIffOrdinary | internal/updater/host_runtime.go:1497-1498 | an archive the walk wrote unpacks if and only if it holds nothing but directories and files |
| Archive.ArchiveWriter.Walk | internal/updater/host_runtime.go:1403-1438 | the walk emits every entry before what is below it, and stops at a symbolic link |
| Archive.HostState.Restore | internal/updater/host_runtime.go:1449-1517 | success means every member is unpacked in turn, every noted directory and at last the destination's parent are synced; with no failing call it succeeds exactly for archives that unpack |
| Archive.RestoreIsDurable | internal/updater/host_runtime.go:1449-1517 | after a successful restore of an archive the walk wrote, the directory of every restored node has been synced |
| Archive.LeftOutDirectoryIsNotSynced | internal/updater/host_runtime.go:1477-1487 | an archive that leaves a directory out unpacks, but that directory is made without being synced |
| Archive.NotedExactly | internal/updater/host_runtime.go:1476-1516 | the directories noted for a sync are exactly those of the archive's directory members and those its files are put into |
| Archive.UnsafeNamesAreRefused | internal/updater/host_runtime.go:1471-1475 | a member's name is refused if and only if it is absolute, climbs above the destination somewhere on its way, or leads to the destination itself; any other place is made of proper names |
| Archive.RestoreStaysInside | internal/updater/host_runtime.go:1449-1517 | whatever archive is unpacked, every path made is made of proper names below the destination |
| Archive.NameLeadsBack | internal/updater/host_runtime.go:1471-1475 | a member's name leads back to the path it was made from |
| Archive.UnpackAdds | internal/updater/host_runtime.go:1476-1496 | unpacking a member into a free place adds exactly its node |
| Text.VersionTextIsExact | internal/updater/manifest.go:129-138 | a version parses from exactly its canonical text, with 64-bit components |
| Text.OlderTextIsTotalOrder | internal/updater/manifest.go:129-138 | canonical versions are totally ordered |
| Text.OlderTextIsByWeight | internal/updater/manifest.go:129-138 | one version is older than another exactly if its number is smaller when majors count most, then minors, then patches |
| Text.BeforeByFirstDifference | internal/updater/release_index.go:175-177 | one text is sorted before another by the first character in which they differ, or as its proper beginning |
| Text.DigestTextIsExact | internal/updater/manifest.go:140-143 | an image digest is the algorithm's name and 64 lower-case hexadecimal digits |
| Text.JobIdTextIsExact | internal/updater/backup.go:71-73 | a job id is its prefix and one to 128 word characters |
| Text.JoinSplit | internal/updater/host_runtime.go:1354-1365 | splitting a text and joining the fields gives the text back |
| Text.SplitJoin | internal/updater/host_runtime.go:1303-1322 | joining separator-free fields and splitting gives the fields back |

## Left out

- HTTP routing, request decoding, headers, authorisation of the control token and the Unix socket: plumbing; a request enters the model once it is authorised and well formed.
- Docker, systemctl, PostgreSQL, public health probes: each command answers yes or no arbitrarily, and its effect is modelled on the service's data alone, one byte string each for the database and the three directories; containers, networks and what a probe compares are not modelled.
- Machine.HostMachine.Confirm: waiting between probes and the timeout of a whole operation; a probe that times out answers no.
- The watchdog's first load of the record: a round that cannot read it does nothing and is not an event.
- SHA-256, the constraint language of manifests, URL parsing and JSON: arbitrary functions (`Externals`) or records in place of bytes; random ids and tokens are arguments.
- Timestamps of creation and update, texts of errors, and the members of an error chain.
- Cancellation of a request or of the whole process: an early return of a handler (`GiveUp`) and a crash stand for it.
- Children of a killed process that go on running after a restart: a crash ends every host operation.
- A failed startup recovery of the backup slot ends the process; a crash step in the state machine ends with recovery done (`Runtime.ComposeRuntime.Restart` says what a failed one leaves).
- Versions.StaleJobsOnlyFail: says nothing after the job's first failure, which a crash may undo when its save was not synced.
- The transactions are functions on the record rather than updates of its maps in place; the store, the engine, the watchdog and the handlers that run them are imperative.
- The engine's own copy of its job: where the code reads it, it equals the stored record, which the model reads instead.
- The two variants of the stages of a hop, for planned and for direct jobs, are one method with the bound digests as a parameter.
- A missing recovery point in `beginAndRunRollback` and an unknown step in `resumeRollback`: unreachable by `Runs.RollbackFindsItsBackup` and the invariant.
- Runtime.ComposeRuntime.PrepareBackup: metadata other than version, digest and job id is arbitrary, because it comes from the host.
- Archive.RoundTrip: permission bits other than the masked ones, owners and times are not restored by the code; directories are assumed writable to the restoring user whatever their mode.
- Environment.EnvironmentFile.Read: files that are not valid UTF-8.
- Archive.HostState.Restore: the noted directories are synced in any order, where the code goes from the deepest up.
- Environment.OtherKeysReadAsBefore: keys contain no equals sign, as names of environment variables do not.
- Backup.BackupStore.Current: sizes and checksums of artifacts; metadata validate when all four artifacts stand beside them and the directory was not torn.
- ControlApi.Control.EnterGate: waiting for the lock is a result, not a loop, because the lock may never come free.
- WatchdogLoop.Watchdog.Reconcile: waiting for the gate is a result in the same way.
- Bootstrap (`PinInitialLatest`, `InspectDirectSource`), legacy health modes, file permissions, platform checks, configuration loading, the command line and the release artefact builder.
