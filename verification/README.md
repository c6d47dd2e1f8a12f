# Verified model of the beat agent and its update server

The project models the parts of beat whose correctness depends on long histories: crashes between
durable writes, duplicated leases, concurrent transactions, late timers and goroutines in any
order. Each part is a state machine or a class that follows the source step by step. What the
source promises is proved for every run.

- **Remote operations** (`operation_log.dfy`, `operation_runner.dfy`, `chunks.dfy`). The agent's
  runner journals each attempt, asks the server, runs a shell body or deploys a file, reports the
  result, stores a receipt and removes the journal. Every write, rename and request can fail
  before or after it took effect, or be the last thing the process does. A ghost log keeps the
  outside effects of each attempt, and `Promises` says what every log keeps: the body is released
  at most once, all reports of an attempt are equal, a journal that ever durably left the leased
  state is forgotten only after acknowledgement and receipt (one that never did may also go after the
  server rejected it), only verified files are renamed into place, and reported verdicts are honest.
- **Agent rollouts** (`rollout_health.dfy`, `rollout_protocol.dfy`, `rollout_steps.dfy`,
  `rollout_transactions.dfy`, `rollout_service.dfy`, `rollout_examples.dfy`). The server's tables
  are one value that transactions replace. `Inv` is what every reachable table state satisfies,
  `Kept` what every later state keeps until the next restore, `Retired` what holds even across
  restores. `Service.History` ties them to every run of every transaction.
- **Custom metrics** (`metric_registry.dfy`, `metric_scheduler.dfy`). Registry, scheduler and
  collector, with registry changes, job ends and drains interleaved in any order.
- **Report loop** (`report_loop.dfy`), **password budget** (`auth_budget.dfy`,
  `auth_budget_runs.dfy`) and **enrollment encoding** (`enrollment_codec.dfy`).

`basics.dfy` holds what several modules share.

## Findings

Some natural claims do not hold as they stand. The model keeps the code and proves when they hold.

- The canonical encoding writes the length of a field modulo 2^32. `LongFieldCollides` gives two
  different status requests with one encoding; `RoundTrip` says that decoding gives the fields back
  if and only if all are shorter than 2^32 bytes, and `CanonicalInjective` that below this limit
  payloads coincide only when they are equal to the second.
- Counting every offered or observing target, a rollout can exceed its concurrency limit, because a
  healthy target may slide back to observing. `RawCountKept` says when: a report takes a rollout over
  its limit if and only if the target is healthy, the report breaks no threshold, it is not ready or
  came later than the freshness limit after the last one, and the rollout is at its limit.
  `CrowdedExceeds` is such a report. Targets that were not healthy since their offer always respect
  the limit, and a node never has two rows in flight.
- "Every report accepted between the start and the end of a health window counted" holds by order of
  acceptance. Read by the clock it holds if and only if the clock moved on between the report that
  starts the window and the one before it (`IntervalIff`, and `HealthWindow` for every reachable
  state). `UncountedAtStart` runs three acceptable reports, the first two at one instant, to a healthy
  target whose window contains a report that did not count.
- Restoring a backup clears every nonce and every lease expiry, but leaves rows of finished rollouts
  and of passed waves in the state they had. A row that was offered or observing there is stranded:
  no report can move it, no expiry finds it, its node gets no further offer from any rollout, and its
  rollout cannot be deleted. It stays so in every later state and in every restore of one
  (`RestoreStrands`, `RestoreKeepsStranded`, `StrandedBlocksNode`, `StrandedUndeletable`);
  `RestoreStrandsForever` is a concrete backup.
- A rollout without an open wave can start if and only if it still awaits its first promotion
  (`StuckIff`; with an available release `Promote` then opens the first wave). An operator's pause, a
  release that expires or is revoked, a new signature policy and a restore all overwrite that reason,
  and afterwards the rollout is neither promotable, because of its reason, nor resumable, because no
  wave is open: it stays paused or aborted and none of its targets is ever offered
  (`StoppedBeforeStart`, `StuckForever`). `PausedNeverStarts` creates a rollout, pauses it and is
  refused both; `AwaitingStarts` promotes the same rollout without the pause.

The password budget counts in fixed windows. The exact bounds for a sliding minute are 240 checks in
total and 39 per source: a source's window begins with an admitted check, the total window may begin
with a refused one (`SlidingMinute`, `AuthBudgetRuns.RunFromStart`). Runs of the budget reach both
(`SourceReaches39`, `TotalReaches240`). Likewise a run of the report loop sends one sample as often as
any can be sent, 35 times (`Sends35`).

## Modelling choices

- One worker, which is the default concurrency of the operation runner. The name of a temporary
  file is random, so each attempt owns its own; file identities are not reused. A journal write, a
  removal and a rename are atomic, but may fail after they took effect.
- Clocks do not run backwards and timers do not fire early. Instants and durations are unbounded
  integers in nanoseconds. Calls of the password budget may reach its lock in another order than they
  read the clock: its limits hold in every order, its bounds for a sliding minute are stated for runs
  in which the readings arrive in order.
- Cryptographic hashes are parameters. Random identifiers are new.
- Replies of servers, results of collectors, outcomes of signature, trust, policy and artifact
  checks are arbitrary values or parameters.
- A rollout transaction is one atomic step. The three history fields of `Db` (accepted observations,
  passed gates and used identifiers) travel with backups like the tables do.
- The operation runner may be closed at any moment. A registry change may fall between the snapshot
  of the registry and its use by the metric scheduler.
- A string is a sequence of Unicode characters; where the source counts bytes, the model counts the
  bytes of their UTF-8 encoding.

## Model

| member | source | states |
|---|---|---|
| `Chunks.ChunksTile` | internal/agentoperations/transfer_state.go:113-122 | every byte position of a file lies in exactly one chunk |
| `Chunks.LengthsSum` | internal/agentoperations/transfer_state.go:113-122 | the chunk lengths add up to the declared size |
| `Chunks.MatchesExtend` | internal/agentoperations/transfer_deploy.go:120-140 | appending a chunk of the right length and its digest keeps file and journal in step |
| `Chunks.MatchesDetermines` | internal/agentoperations/transfer_deploy.go:80-108 | with a collision-free hash a file that matches its digests is exactly the journaled chunks in order |
| `Chunks.MatchesComplete` | internal/agentoperations/transfer_deploy.go:110-118 | a file matching digests for every chunk has the declared size |
| `OperationLog.LogStart` | internal/agentoperations/process_linux.go:137-147 | entering the engine or releasing the body for the first time, in the journal state it needs, keeps all promises of the attempt |
| `OperationLog.LogReport` | internal/agentoperations/runner_execution.go:116-120 | reporting the journaled result keeps all promises, so all reports are equal and honest |
| `OperationLog.LogNeutral` | internal/agentoperations/journal.go:133-177 | a durable record past the leased state, a refusal and an acknowledgement keep all promises; the first of these is logged for good |
| `OperationLog.LogReceipt` | internal/agentoperations/receipts.go:37-70 | a receipt after the acknowledgement settles the attempt |
| `OperationLog.LogForget` | internal/agentoperations/runner_execution.go:116-125 | a settled attempt, or a leased one that the server refused, may be forgotten; once a record past leased was durable only the first is possible |
| `OperationLog.LogRename` | internal/agentoperations/transfer_deploy.go:50-58 | renaming a verified file in the publishing phase keeps all promises |
| `OperationRunner.CheckChunks` | internal/agentoperations/transfer_deploy.go:80-108 | the prefix loop accepts only a file whose start matches all journaled digests, and on an integrity error no cut of the file matches |
| `OperationRunner.HonestResult` | internal/agentoperations/runner_transfer.go:131-150 | the verdict rule of a finished transfer is honest: success means renamed, other verdicts but interrupted mean never renamed |
| `OperationRunner.RenameKeepsAll` | internal/agentoperations/transfer_deploy.go:142-186 | a rename keeps every attempt's journal, identity and log in agreement |
| `OperationRunner.OneAttempt` | internal/agentoperations/journal.go:133-188 | a write for one attempt leaves the guarantees of all the others alone |
| `OperationRunner.Runner.Save` | internal/agentoperations/journal.go:133-177 | the record is stored or the old one stays, whatever fails; success means stored, and a stored record past leased is noted in the log |
| `OperationRunner.Runner.Remove` | internal/agentoperations/journal.go:179-188 | a journal is removed only when settled, or leased and rejected; the removal is logged |
| `OperationRunner.Runner.MarkAcknowledged` | internal/agentoperations/receipts.go:37-70 | success means a durable receipt, written only after an acknowledgement |
| `OperationRunner.Runner.Deliver` | internal/agentoperations/runner_execution.go:116-125 | success means reported, receipted and forgotten |
| `OperationRunner.Runner.Complete` | internal/agentoperations/runner_execution.go:106-114 | the result is durable before it is sent; only honest results are accepted |
| `OperationRunner.Runner.OpenGate` | internal/agentoperations/process_linux.go:137-147 | the body is released only while the durable journal says running, which the log records, and never a second time |
| `OperationRunner.Runner.Execute` | internal/agentoperations/process_linux.go:113-148 | a run without error released the body, and then the running record is on disk |
| `OperationRunner.Runner.EngineRun` | internal/agentoperations/process.go:125-154 | a result of success means that the body was released |
| `OperationRunner.Runner.RunAuthorized` | internal/agentoperations/runner_execution.go:64-79 | an authorized shell attempt that ends without error was reported, has its receipt and is no longer journaled |
| `OperationRunner.Runner.Start` | internal/agentoperations/runner_execution.go:31-79 | a leased shell attempt that ends without error is no longer journaled, and every crash point keeps the promises |
| `OperationRunner.Runner.VerifyPrefix` | internal/agentoperations/transfer_deploy.go:80-108 | after any crash the temporary file is cut to exactly the journaled chunks |
| `OperationRunner.Runner.DownloadChunk` | internal/agentoperations/transfer_deploy.go:120-140 | one more chunk on disk and in the journal, still in step |
| `OperationRunner.Runner.DownloadMissing` | internal/agentoperations/transfer_deploy.go:110-118 | success means every chunk is present once and the file has the declared size |
| `OperationRunner.Runner.PreparePublication` | internal/agentoperations/transfer_deploy.go:142-164 | success means the publishing record with the file's identity is on disk and the file fits its specification |
| `OperationRunner.Runner.Publish` | internal/agentoperations/transfer_deploy.go:50-58 | success means renamed; a destination is replaced only when that is allowed |
| `OperationRunner.Runner.ReconcilePublication` | internal/agentoperations/transfer_deploy.go:166-214 | after a crash in the publishing phase the transfer counts as published only if this attempt's file was renamed |
| `OperationRunner.Runner.FinishTransfer` | internal/agentoperations/runner_transfer.go:131-150 | success means an honest result reported, receipted and forgotten |
| `OperationRunner.Runner.PrepareTransfer` | internal/agentoperations/runner_transfer.go:56-81 | a transfer goes on only with its running record on disk; otherwise it is finished or left for recovery |
| `OperationRunner.Runner.RejectTransfer` | internal/agentoperations/runner_transfer.go:83-88 | a rejected transfer is dropped while leased and finished as canceled afterwards |
| `OperationRunner.Runner.ExecuteTransfer` | internal/agentoperations/runner_transfer.go:90-113 | success means finished; transport errors leave the journal for recovery |
| `OperationRunner.Runner.Resume` | internal/agentoperations/runner_execution.go:11-29 | whatever the durable state, resuming keeps all promises, and success forgets the journal |
| `OperationRunner.CountTransfers` | internal/agentoperations/runner.go:170-175 | the counting loop finds the number of active transfers |
| `OperationRunner.Runner.AdmitKind` | internal/agentoperations/runner.go:163-183 | admission keeps the active jobs within the configured limit and at most two transfers among them; an open runner refuses a new attempt only at one of these limits |
| `OperationRunner.Runner.Release` | internal/agentoperations/runner.go:185-190 | a release frees exactly its place and keeps the limits |
| `OperationRunner.Runner.Recover` | internal/agentoperations/runner.go:235-257 | recovery without error and crash leaves no journal behind |
| `OperationRunner.Runner.RunOnce` | internal/agentoperations/runner.go:114-159 | one turn with any lease, also a repeated one, keeps every attempt's promises, and a turn without error leaves no journal behind |
| `OperationRunner.Runner.History` | internal/agentoperations/runner.go:98-138 | over every run of turns, crashes, restarts and closing at any moment: at most one release and only with the running journal on disk, equal reports, nothing lost after it left leased, verified renames, honest verdicts, for every attempt |
| `OperationRunner.RunFromStart` | internal/agentoperations/runner.go:98-138 | the same for every run of a new runner, without any precondition |
| `RolloutHealth.ThresholdFailure` | internal/agentrollout/observations.go:142-162 | no failure exactly when the outcome is fine and every counter is within its threshold |
| `RolloutHealth.ObservedKeepsWindow` | internal/agentrollout/observations.go:185-214 | acceptance times never decrease, and the health columns always describe the longest unbroken series of counting reports |
| `RolloutHealth.HealthyMeans` | internal/agentrollout/observations.go:185-226 | healthy means that the longest series of counting reports starts at the recorded instant and spans the observation time with at least ceil(O/(F+1s))+1 reports; every report in that clock interval counted if and only if the clock moved on before the series |
| `RolloutHealth.HealthyIff` | internal/agentrollout/observations.go:185-214 | while the assignment is live, healthy if and only if the longest unbroken series of counting reports spans the observation time |
| `RolloutHealth.IntervalIff` | internal/agentrollout/observations.go:199-214 | all reports accepted in the clock interval of the series counted if and only if the report before it was accepted at an earlier instant |
| `RolloutHealth.SlidesBackIff` | internal/agentrollout/observations.go:185-214 | a healthy or failed target is in flight after a report if and only if it was healthy, the report breaks no threshold, and it is not ready or too late after the last one |
| `RolloutProtocol.HealthWindow` | internal/agentrollout/observations.go:185-214 | for every healthy row of every reachable state: its window is the longest series of counting reports, long and dense enough, and the exact condition under which every report in the clock interval counted |
| `RolloutProtocol.WaveGate` | internal/agentrollout/control.go:18-46 | a target that was ever offered stands behind a passed gate for each earlier wave, where every target of that wave was healthy, on version and fresh |
| `RolloutProtocol.FailureBlocksRollout` | internal/agentrollout/control.go:102-128 | without a restore a rollout never moves beyond, or completes with, an unpassed wave that holds a failed target |
| `RolloutProtocol.KeptTransitive` | internal/agentrollout/observations.go:176-190 | finished rollouts, first failures, passed gates, stranded rows and rollouts that cannot start are kept over any number of steps |
| `RolloutProtocol.LiveIff` | internal/agentrollout/observations.go:64-78 | an assignment is live if and only if its own target still holds it with a nonce |
| `RolloutProtocol.StuckForever` | internal/agentrollout/control.go:80-100 | a rollout stopped before its first promotion stays so in every later state, and none of its targets is ever offered |
| `RolloutSteps.PauseInKeeps` | internal/agentrollout/recovery_expiry.go:58-71 | pausing any set of unfinished rollouts keeps all invariants and never touches finished ones |
| `RolloutSteps.PromotedKeeps` | internal/agentrollout/control.go:18-46 | a promotion behind a healthy wave keeps all invariants and records the gate |
| `RolloutSteps.PromotedFailedNotPassed` | internal/agentrollout/control.go:102-128 | a promotion never passes a wave that holds a failed target |
| `RolloutSteps.ReleasesKeeps` | internal/agentrollout/releases.go:156-167 | releases change only so that no rollout is active on a revoked one |
| `RolloutSteps.WithStatesKeeps` | internal/agentrollout/lease.go:192-205 | holding or dropping waiting targets keeps all invariants |
| `RolloutSteps.SetTargetKeeps` | internal/agentrollout/observations.go:80-113 | one row change with its attempt keeps all invariants, first failures and dead assignments |
| `RolloutSteps.SetTargetCapacity` | internal/agentrollout/lease.go:143-162 | the number of unproven in-flight targets stays within the limit |
| `RolloutTransactions.Expiry` | internal/agentrollout/lease.go:164-177 | the earliest of lifetime plus window, release expiry and window end |
| `RolloutTransactions.OfferKeeps` | internal/agentrollout/lease.go:164-190 | an offer within capacity keeps all invariants, brings no earlier assignment back, and leaves the new assignment the only live one of its target |
| `RolloutTransactions.OfferedAlone` | internal/agentrollout/lease.go:164-190 | after an offer every earlier assignment of the target is dead |
| `RolloutTransactions.ObservedKeeps` | internal/agentrollout/observations.go:80-113 | an accepted report keeps all invariants, and if the target is failed afterwards its unfinished rollout is paused for that reason |
| `RolloutTransactions.StillProven` | internal/agentrollout/observations.go:199-214 | a target that was healthy since its offer never counts against the capacity again |
| `RolloutTransactions.RawCountKept` | internal/agentrollout/observations.go:185-214 | counting all in-flight targets, a report breaks the limit if and only if it lets a healthy target slide back, a condition on the row and the report alone, while the rollout is at its limit |
| `RolloutTransactions.ExpiredKeeps` | internal/agentrollout/recovery_expiry.go:14-27 | taking back an expired assignment keeps all invariants, and that assignment is dead |
| `RolloutTransactions.RevokeKeeps` | internal/agentrollout/releases.go:156-167 | revoking pauses the active rollouts of the release and keeps all invariants |
| `RolloutTransactions.RestoredInv` | internal/agentrollout/recovery.go:61-87 | the restored tables satisfy all invariants |
| `RolloutTransactions.RestoreKillsAll` | internal/agentrollout/recovery.go:71-76 | no assignment survives a restore |
| `RolloutTransactions.RestoreStrands` | internal/agentrollout/recovery.go:68-73 | exactly the in-flight rows of finished rollouts and passed waves are stranded by a restore |
| `RolloutTransactions.RestoreKeepsStranded` | internal/agentrollout/recovery.go:68-73 | a row stranded by a restore is the same in every later state and after every restore of such a state |
| `RolloutTransactions.StrandedBlocksNode` | internal/agentrollout/lease.go:151-158 | while a row is stranded its node gets no offer from any rollout |
| `RolloutTransactions.WavesCover` | internal/agentrollout/rollouts.go:136-163 | every target gets a wave below the total |
| `RolloutTransactions.WavesInhabited` | internal/agentrollout/rollouts.go:136-163 | every wave below the total has a target |
| `RolloutTransactions.StoppedBeforeStart` | internal/agentrollout/recovery_expiry.go:58-71 | a pause leaves an unstarted rollout stuck if and only if it is among the paused ones or was stuck before; a restore always does |
| `RolloutTransactions.StuckIff` | internal/agentrollout/control.go:137-139 | in every reachable state an unstarted rollout is promotable if and only if it awaits its first promotion, and an unfinished one is stuck if and only if it can be neither promoted nor resumed |
| `RolloutTransactions.CreateKeeps` | internal/agentrollout/rollouts.go:149-181 | a new paused rollout keeps all invariants and all earlier rows |
| `RolloutTransactions.OneRowPerAssignment` | internal/agentrollout/observations.go:64-68 | at most one row holds an assignment, and it can be reported on |
| `RolloutTransactions.DeleteKeeps` | internal/agentrollout/deletion.go:30-63 | deleting a finished rollout with nothing in flight keeps all invariants and all other rows, and brings no assignment back |
| `RolloutTransactions.StrandedUndeletable` | internal/agentrollout/deletion.go:38-44 | a stranded row stays as it is in every later state, and its rollout can never be deleted |
| `RolloutExamples.CrowdedExceeds` | internal/agentrollout/observations.go:196-212 | a state with all invariants and an acceptable report after which two targets are in flight under a limit of one |
| `RolloutExamples.UncountedAtStart` | internal/agentrollout/observations.go:199-214 | three acceptable reports that end in a healthy target, the first accepted at the instant the window starts and not counted |
| `RolloutExamples.RestoreStrandsForever` | internal/agentrollout/recovery.go:68-73 | a backup with an aborted rollout: after the restore and in every later state its offered target is stranded and its rollout undeletable |
| `RolloutExamples.AwaitingStarts` | internal/agentrollout/control.go:18-46 | a created rollout starts when it is promoted |
| `RolloutExamples.PausedNeverStarts` | internal/agentrollout/control.go:80-100 | the same rollout, paused first, is refused promotion and resumption, whatever the nodes, trust and acknowledgement |
| `RolloutService.Service.Create` | internal/agentrollout/rollouts.go:69-181 | created exactly under the checks of action, name, normalized policy, release, compatibility and targets; the only changes are the paused rollout and its rows, in the waves of the policy |
| `RolloutService.PolicyAccepted` | internal/agentrollout/rollouts.go:69-112 | exactly which policies an operator may send, zero and missing fields included, for the normalized one to be valid |
| `RolloutService.Service.InsertTargets` | internal/agentrollout/rollouts.go:136-147 | canaries first, then waves of the configured size |
| `RolloutService.Service.CheckWave` | internal/agentrollout/control.go:102-128 | the row loop succeeds exactly when the wave has a target and all its targets pass |
| `RolloutService.Service.Promote` | internal/agentrollout/control.go:18-46 | promoted exactly when promotable, available and healthy; an unstarted rollout starts with its first wave if and only if it is not stuck and its release is available; otherwise the next wave opens, or the rollout completes after the last |
| `RolloutService.Service.Pause` | internal/agentrollout/control.go:48-78 | pauses exactly the unfinished rollouts |
| `RolloutService.Service.Abort` | internal/agentrollout/control.go:52-78 | ends an unfinished rollout, drops its waiting targets and leaves assignments that are out alone |
| `RolloutService.Service.Resume` | internal/agentrollout/control.go:80-100 | resumed exactly when paused in a wave, acknowledged if needed, and available |
| `RolloutService.EarlierOrder` | internal/agentrollout/lease.go:105-112 | the order by age of the rollout and identifier is a strict total order |
| `RolloutService.Service.FirstLeasable` | internal/agentrollout/lease.go:105-112 | finds the one leasable target that precedes all others |
| `RolloutService.Service.Select` | internal/agentrollout/lease.go:105-162 | considers only the first leasable target: found if and only if it may be offered, otherwise held for exactly the reason that applies first, or refused with its release; nothing exactly when no target is leasable |
| `RolloutService.Service.LeaseCheck` | internal/agentrollout/lease.go:56-75 | the first lease transaction changes at most the first leasable target, to held |
| `RolloutService.Service.LeaseOffer` | internal/agentrollout/lease.go:76-97 | the second one offers the expected target if and only if it is still the first and may be offered; the new assignment is its only live one; otherwise nothing changes |
| `RolloutService.Service.HoldMissing` | internal/agentrollout/lease.go:67-75 | a target whose artifact file is missing is held if it still waits, and nothing else changes |
| `RolloutService.Service.Observe` | internal/agentrollout/observations.go:21-78 | accepted exactly when the live assignment, nonce, expiry, order and unique index allow it; refused reports change nothing |
| `RolloutService.Service.Download` | internal/agentrollout/download.go:111-182 | served exactly for the live assignment of an offered target, with its artifact, in an active rollout within its window, while the release is available and the artifact suitable |
| `RolloutService.Service.ExpireAssignments` | internal/agentrollout/recovery_expiry.go:5-29 | up to a batch of expired assignments is taken back and dead, their unfinished rollouts are paused, all other rows and rollouts are untouched, and below a full batch none is left |
| `RolloutService.Service.ExpireReleases` | internal/agentrollout/recovery_expiry.go:31-56 | pauses, with the reason that applies, up to a batch of the unfinished rollouts of lapsed releases and no others; below a full batch none stays active |
| `RolloutService.Service.Recover` | internal/agentrollout/recovery.go:11-32 | one transaction of both: exactly which rows and rollouts change and how; below a full batch no expired assignment and no rollout active on a lapsed release is left |
| `RolloutService.Service.RevokeRelease` | internal/agentrollout/releases.go:156-167 | revokes a known release and pauses its active rollouts |
| `RolloutService.Service.RevokeKey` | internal/agentrollout/trust.go:93-107 | refused for an unknown key; otherwise revokes every release of the key and pauses their active rollouts |
| `RolloutService.Service.ActivateSignaturePolicy` | internal/agentrollout/signature_policy.go:99-118 | changes nothing for the active revision; otherwise distrusts every release and pauses every unfinished rollout |
| `RolloutService.Service.Import` | internal/agentrollout/releases.go:19-95 | stored as verified if and only if trusted, no other release has its version and channel, and it was not revoked; otherwise nothing changes |
| `RolloutService.Service.DeleteRollout` | internal/agentrollout/deletion.go:30-63 | deleted exactly when finished and without in-flight targets, with its targets and their attempts |
| `RolloutService.Service.Restore` | internal/agentrollout/recovery.go:35-87 | starts from any earlier backup with no live assignment |
| `RolloutService.Service.History` | internal/agentrollout/lease.go:29-97 | every run of all transactions: the invariants at every moment, dead assignments stay dead through restores, everything else is kept between restores |
| `MetricRegistry.ValidateRegisteredMetrics` | internal/agent/custom_metric_registry.go:106-129 | accepts exactly the lists whose enabled metrics are valid, by Unicode white space and UTF-8 length, and distinctly named, and returns these |
| `MetricRegistry.SameLengthSameSet` | internal/agent/custom_metric_registry.go:72-92 | for distinct names, equal length and containment mean equal sets |
| `MetricRegistry.ChangedMeans` | internal/agent/custom_metric_registry.go:72-92 | the change flag is set exactly when the set of definitions differs |
| `MetricRegistry.AssignVersions` | internal/agent/custom_metric_registry.go:77-91 | unchanged definitions keep their versions, others get new ones, and no version ever names two definitions |
| `MetricRegistry.LastWriterWins` | internal/agent/custom_metric_registry.go:48-70 | for any order and duplication of register tasks the registered definitions are those of the latest valid task |
| `MetricRegistry.Registry.UpdateMetricsLocked` | internal/agent/custom_metric_registry.go:72-92 | the new list and versions, and the change flag exactly when the set of definitions differs |
| `MetricRegistry.Registry.Replace` | internal/agent/custom_metric_registry.go:48-70 | refines the replacement rule; the registry version stays exactly when the set of definitions stays |
| `MetricRegistry.Registry.ExecuteCustomMetricRegister` | internal/agent/multi_task_executor.go:35-47 | a register task succeeds exactly when valid, and refines the delivery rule |
| `MetricRegistry.RegisterAll` | internal/agent/multi_task_executor.go:35-47 | executing any list of register tasks leaves the definitions of the latest valid task registered, and none if no task is valid |
| `MetricScheduler.TakeCurrent` | internal/agent/custom_metric_collector.go:70-79 | the drain loop returns exactly the current samples |
| `MetricScheduler.Collector.DrainSamples` | internal/agent/custom_metric_collector.go:62-81 | exactly the current samples are returned, each from a stored, undelivered run of the definition registered now and under a minute old; nothing stays |
| `MetricScheduler.RoomForResult` | internal/agent/custom_metric_scheduler.go:46-49 | running jobs plus queued results are the active set, at most four, so a running job always finds room |
| `MetricScheduler.CustomMetricFailureBackoff` | internal/agent/custom_metric_scheduler.go:161-166 | after a failure the backoff lies between five seconds and a minute |
| `MetricScheduler.TurnStep` | internal/agent/custom_metric_scheduler.go:88-105 | while a due metric waits, the jobs started before it plus its distance from the cursor never exceed the bound |
| `MetricScheduler.IdleKept` | internal/agent/custom_metric_scheduler.go:138-159 | a result never changes the schedule of a metric without a running job |
| `MetricScheduler.BuildStates` | internal/agent/custom_metric_scheduler.go:55-65 | one state per metric in order; unchanged versions keep their schedule |
| `MetricScheduler.Scheduler.Synchronize` | internal/agent/custom_metric_scheduler.go:51-71 | the cached states match the snapshot; for the cached version nothing changes, not even order and cursor; otherwise exactly the stale jobs are canceled and unchanged metrics keep their schedule |
| `MetricScheduler.Scheduler.UseSnapshot` | internal/agent/custom_metric_collector.go:97-98 | a snapshot taken before any number of registry changes can still be used, and leaves order and cursor alone when its version is cached |
| `MetricScheduler.Scheduler.InvalidateChangedMetrics` | internal/agent/custom_metric_scheduler.go:73-86 | cancels exactly the stale jobs and keeps exactly the matching samples |
| `MetricScheduler.Scheduler.LaunchDue` | internal/agent/custom_metric_scheduler.go:88-105 | the active set and the runs grow by exactly the launched jobs; a due idle metric is started after at most its distance in launches, or all four places are taken and the cursor is closer |
| `MetricScheduler.Scheduler.Finish` | internal/agent/custom_metric_scheduler.go:113-136 | a finished job is queued, and the queue had room |
| `MetricScheduler.Scheduler.Complete` | internal/agent/custom_metric_scheduler.go:138-180 | a stale result changes nothing; any other reschedules its metric and stores its value only for the registered version |
| `MetricScheduler.Scheduler.WaitForTurn` | internal/agent/custom_metric_collector.go:96-111 | over every run of scheduler steps with an unchanged registry, the new runs belong to the started jobs in order, and at most n - 1 of them come before a due idle metric of n is started |
| `MetricScheduler.Scheduler.History` | internal/agent/custom_metric_collector.go:62-112 | over every interleaving with registry changes, job ends and drains the scheduler stays consistent, the drains hold exactly the values handed out, every one is current, and none is handed out twice |
| `MetricScheduler.Lifetimes` | internal/agent/custom_metric_collector.go:83-112 | the same over any number of successive runs of one collector |
| `ReportLoop.ReportRetryDelay` | internal/agent/report_retry.go:31-35 | between half the backoff and the backoff, and never below the bounded Retry-After |
| `ReportLoop.ParseReportRetryAfter` | internal/agent/report_retry.go:37-48 | never negative and never beyond the sample lifetime |
| `ReportLoop.RetriesFit` | internal/agent/report_retry.go:31-35 | the shortest total backoff of n retries fits into fifteen minutes if and only if n < 35 |
| `ReportLoop.NeverInterleaved` | internal/agent/runner.go:87-122 | reports of one sample never interleave with another's |
| `ReportLoop.Runner.Collect` | internal/agent/runner.go:91-103 | a new sample is collected only after the not-before instant |
| `ReportLoop.Runner.SendPending` | internal/agent/runner.go:104-122 | an expired sample is dropped unsent, any other is sent exactly once |
| `ReportLoop.Runner.FailedReport` | internal/agent/runner.go:142-163 | a rejected sample is dropped, a retryable one is kept with one more retry, and Retry-After moves the not-before instant |
| `ReportLoop.Runner.Run` | internal/agent/runner.go:64-85 | over every run: sends in lifetime and order, at most 35 per sample, none before an instant the server asked for |
| `ReportLoop.RunFromStart` | internal/agent/runner.go:50-85 | the same for every run of a new loop |
| `ReportLoop.Sends35` | internal/agent/report_retry.go:31-35 | a run that sends one sample 35 times |
| `AuthBudget.SlidingBound` | internal/adminauth/auth_budget.go:35-65 | fixed windows with a cap admit at most twice the cap in any sliding minute |
| `AuthBudget.AnchoredBound` | internal/adminauth/auth_budget.go:41-48 | windows that begin with an admission admit at most twice the cap less one in any sliding minute |
| `AuthBudget.DropEnded` | internal/adminauth/auth_budget.go:60-64 | the pruning loop keeps exactly the sources whose window is still open |
| `AuthBudget.Budget.Prune` | internal/adminauth/auth_budget.go:56-65 | ended windows go, open ones stay |
| `AuthBudget.Budget.Acquire` | internal/adminauth/auth_budget.go:35-54 | for any reading of the clock: refused exactly at a limit; otherwise counted in total, per source and as active |
| `AuthBudget.Release.Call` | internal/adminauth/auth_budget.go:52-53 | a release takes effect once, however often it is called |
| `AuthBudget.Budget.SlidingMinute` | internal/adminauth/auth_budget.go:10-16 | in every reachable state of a run whose readings arrive in order any minute admits at most 240 checks in total and 39 per source |
| `AuthBudgetRuns.RunFromStart` | internal/adminauth/auth_budget.go:35-65 | any run of checks and of releases, also repeated ones: the limits hold, and with readings in order both bounds for every minute |
| `AuthBudgetRuns.SourceReaches39` | internal/adminauth/auth_budget.go:35-54 | a run of acquisitions and releases in which one source is admitted 39 times within a minute |
| `AuthBudgetRuns.TotalReaches240` | internal/adminauth/auth_budget.go:35-65 | a run in which 240 checks are admitted within a minute |
| `EnrollmentCodec.EncodeCanonical` | internal/agentenrollment/protocol.go:107-118 | the encoding loop produces the encoding of the domain and the fields, in the computed length |
| `EnrollmentCodec.RoundTrip` | internal/agentenrollment/protocol.go:120-125 | decoding returns the fields if and only if all are shorter than 2^32 bytes |
| `EnrollmentCodec.EncodeInjective` | internal/agentenrollment/protocol.go:107-125 | short field lists with equal encodings are equal |
| `EnrollmentCodec.LongFieldCollides` | internal/agentenrollment/protocol.go:120-125 | two different status requests with one encoding, whose fields are 2^32 zero bytes and nothing, in either order |
| `EnrollmentCodec.FormatInjective` | internal/agentenrollment/protocol.go:127-130 | formatted instants are equal if and only if they agree to the second |
| `EnrollmentCodec.CanonicalInjective` | internal/agentenrollment/protocol.go:58-93 | payloads of any two kinds coincide if and only if they are equal with times cut to the second |

## Left out

- AuthBudget.Budget.SlidingMinute: for runs in which calls reach the lock in the order in which they read the clock; a call that waits for the lock counts in the window it finds.
- The collect direction of file transfers, where the server settles a lost finalize reply.
- More than one worker in the operation runner.
- The limit on stored receipts; it appears as an arbitrary storage failure.
- Heartbeats and the process engine inside: cancellations and exit results are arbitrary values.
- The reasons why a node is ineligible (platform, version direction, space, heartbeat): the reason is a parameter of the lease search.
- Comparing release versions after normalization: equal versions are equal strings.
- Deleting releases and nodes, audit and event rows, retention of artifacts.
- Reading and verifying manifests, signatures and artifact files: their outcomes are the parameters `trusted`, `compatible`, `ready` and `suitable`.
- Resolving node, group and tag lists to the targets of a new rollout: `Service.Create` takes the resolved nodes.
- The unordered `Replace` of the metric registry in the last-writer law, and wrap-around of its 64-bit counters.
- Executing metric commands and converting their output.
- HTTP, JSON, WebSocket and SQL plumbing, the command line, themes and the web interface.
