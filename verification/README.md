# Rivus coordination, verified

Rivus moves table data through several processes that meet only in MySQL rows. This project
models the transactions over those rows, together with three self-contained algorithms, and
proves what they are for.

* **Workers and checkpoints.** A job row carries a submission id, a desired state, a status, a
  role and a lease. Workers claim, renew, release and save; the control plane stops, pauses,
  resumes, asks for a fresh snapshot or rebuilds. Checkpoint writes are fenced: the row is
  locked and checked, the tables are changed, and the row is checked again before the commit.
  Commit receipts, snapshot completion and the rebuild archive sit on top.
* **Maintenance.** Tables belong to jobs (through pattern reservations), to monitors, or to
  nobody. Tasks, per-table execution leases and inventory scans compete for each table.
* **Algorithms.** The snapshot admission queue, the Doris schema planner, and the backwards
  chunked log tail.

Each protocol appears twice. A value-level state machine (`WorkerProtocol`,
`MaintenanceProtocol`) has one operation per committed transaction, or several where locks and
re-checks matter, and a monotone clock; a run is any sequence of operations, and an operation
whose guard fails changes nothing. A class (`JobDatabase.Database`, `MaintenanceDatabase.Store`,
`SnapshotGate.Manager`) holds the tables as fields; its methods follow the store methods
statement by statement, loops included, and each is proved to be exactly the matching
operation. The checkpoint methods of `JobDatabase.Database` run inside fenced writes and also
on their own, so each is proved to be the matching mutation of the tables (`Mutate`, `After`),
which the operations `Commit` and `Unfenced` apply. The `History` modules say, column by column and
without the operations' own functions, when each operation goes through and what it leaves
in every row. The theorems quantify over every run and every intermediate state.

Reading order: `Common`, `Text`, `JobRegistry`, `Checkpoints`, `Rebuild`, `ScopedRebuild`,
`WorkerProtocol`, `WorkerTheorems`, `CheckpointHistory`, `RegistryHistory`, `ReceiptTheorems`,
`JobDatabase`; then `MaintenanceModel`,
`MaintenanceOwnership`, `MaintenanceWork`, `MaintenanceProtocol`, `OwnershipHistory`, `MonitorHistory`,
`WorkHistory`, `MaintenanceInvariants`,
`BatchClaim`, `MaintenanceLeases`, `InventoryTheorems`, `MonitorArbitration`,
`MaintenanceDatabase`; then `SnapshotGate`, `LogTail`, `DorisNames`, `DorisSchema`, `DorisValues`. Verify everything with
`dafny verify dfyconfig.toml`.

Some promises fail without a condition. Each of these has an input, or a family of runs, that
breaks it, and a theorem that says when it holds:

| promise | how it fails | when it holds |
|---|---|---|
| task and scan leases never overlap | `MaintenanceLeases.StaleRenewalOverlaps`: from every state with a claimable task and a due scan on one table | a renewal keeps them apart if and only if `MaintenanceLeases.RenewalSafeExactlyWhen` says so; over runs, when holders renew only while unexpired (`NeverBothLive`) |
| a finished scan has covered every earlier signal | `InventoryTheorems.RepeatedIdLosesRefresh`: on every table that can be scanned, whenever its id comes back | a finish loses a signal if and only if the id its claim read came back (`SignalLostExactlyWhen`); over runs, when no such id comes back (`NoRefreshLost`) |
| pruning receipts after unfenced progress is safe | `ReceiptTheorems.ClearedProgressLosesReceipt`: for every stored snapshot receipt | if and only if the progress row still covers what is pruned (`PruneSafeExactlyWhen`); over runs, unless another writer changed the row in between (`ReceiptLostInRun`) |
| native batch ids are injective | `ScopedRebuild.BatchIdCollision` | ids coincide if and only if `ScopedRebuild.BatchIdsCoincide` says so, hence never for colon-free submissions |
| the snapshot limit is respected | `SnapshotGate.RetakingBreaksTheLimit`: from an empty gate, for any jobs; `OneSlotForTwo`: for any two direct starts at the last slot | a step exceeds the limit if and only if `LimitExceededExactlyWhen` says so; cover is lost if and only if a held job is taken again (`CoverLostOnlyBy`); with neither a retake nor a late direct start the limit is kept (`LimitKept`) |
| a job queued for want of a slot is in the queue or starting | `SnapshotGate.DroppedBeforeWaiting`: the status is written after the enqueue | a step strands a job if and only if `PlaceLostExactlyBy` says so; writing the status first (`StatusBeforeEnqueue`) or under the same lock (`EnqueueAndStatusTogether`) suffices |
| the tail is the file's last lines | `LogTail.ShortBudgetMissesLines`: a file longer than the byte budget | if and only if `LogTail.TailExactWhen` says so: the file fits the budget, or the budget's bytes hold enough line ends, or the file has no line |
| a source integer fits its Doris column | every value of BIGINT UNSIGNED from 2 to the power 63 on | if and only if it is one of 64 signed bits (`DorisValues.IntegersFitWhen`) |
| a Doris MODIFY never narrows | every pair of types allowed by the condition | a planned change narrows if and only if `DorisSchema.NarrowsExactlyWhen` says so |

## Model

| member | source | states |
|---|---|---|
| `WorkerTheorems.EveryChangeIsFenced` | pkg/meta/worker_fence.go:73-114 | In every interleaving, a visible checkpoint or receipt change comes from a rebuild, from a store used without the fence, or from a fenced write whose token held the row's unexpired lease, with matching submission and RUNNING or PAUSING state, when it began, when it committed and in between |
| `WorkerTheorems.OpenHistory` | pkg/meta/worker_fence.go:93-114 | An open fenced write was begun by an earlier step of the run, and its registry row has been frozen since |
| `WorkerTheorems.SecondCheckFailsOnlyByExpiry` | pkg/meta/worker_fence.go:73-114 | Under the row lock, the second check fails only because the deadline has passed |
| `WorkerTheorems.LeaseLostOnlyBy` | pkg/meta/job_store.go:464-548 | A worker that held a lease and no longer does lost it to a takeover strictly after its deadline, to its own release, or to a control request |
| `WorkerTheorems.OldEpochIsDead` | pkg/meta/job_rebuild.go:123-155 | After a rebuild, no renewal, release, save or fenced write presenting the old submission succeeds in any continuation |
| `WorkerTheorems.StopIsAFence` | pkg/meta/job_control.go:105-119 | After a stop request no claim, renewal, claimed save or fenced write succeeds until a resume, fresh-snapshot or rebuild request |
| `WorkerTheorems.PausePersists` | pkg/meta/job_control.go:124-139 | A PAUSING row stays PAUSING through claims, takeovers and active-status saves until it is answered or stopped |
| `WorkerProtocol.RunKeepsValid` | pkg/meta/worker_fence.go:93-114 | In every run each open fenced write's token owns its row as of its first check, at most one is open per job, and every submission in use is an issued identifier |
| `Checkpoints.MutationIsLocal` | pkg/meta/worker_fence.go:116-151 | A fenced call changes only rows under its own state key |
| `Checkpoints.PreparedSurvives` | pkg/meta/iceberg_commit_store.go:88-117 | No call but its completion mark or its explicit deletion ends a PREPARED receipt |
| `Checkpoints.ReceiptDropped` | pkg/meta/store.go:275-294 | A receipt leaves only by explicit deletion or by a prune that covers it |
| `Checkpoints.ConfirmationHasEvidence` | pkg/meta/store.go:226-255 | A snapshot becomes confirmed only by a completion mark made while every receipt under the key was COMMITTED |
| `Checkpoints.MarkTwice` | pkg/meta/store.go:226-255 | Repeating a successful completion mark succeeds and changes nothing |
| `CheckpointHistory.CallSucceedsWhen` | pkg/meta/iceberg_commit_store.go:59-117 | A begin needs a new operation id, a mark or a query a PREPARED receipt of its key, a completion mark an open start with every receipt COMMITTED or a confirmed one, a state deletion no receipt of the key; every other call succeeds |
| `CheckpointHistory.RowsAfterStep` | pkg/meta/store.go:182-332 | After any step a key's offset, snapshot and progress rows hold what that step saved, nothing after a deletion, a clearing or a rebuild, and otherwise what they held |
| `CheckpointHistory.ReceiptAfterStep` | pkg/meta/iceberg_commit_store.go:59-117 | After any step a receipt is as recorded (every field as given, PREPARED, no query), marked, given its query, gone, or as it was |
| `CheckpointHistory.ReceiptWasBegun` | pkg/meta/iceberg_commit_store.go:88-97 | A receipt that appears in a run was begun in it, and says what its intent recorded |
| `CheckpointHistory.CommittedWasMarked` | pkg/meta/iceberg_commit_store.go:88-112 | A receipt that a run leaves COMMITTED was begun, stayed PREPARED, and was then marked under its own key |
| `CheckpointHistory.OffsetWasSaved` | pkg/meta/store.go:182-193 | An offset that a run leaves was saved in it and has stood since |
| `CheckpointHistory.ProgressWasSaved` | pkg/meta/store.go:275-294 | The same for a progress row |
| `Rebuild.ResetAdmission` | pkg/meta/job_rebuild.go:64-86 | A reset succeeds if and only if every selected receipt is COMMITTED and belongs to this job under one of its two keys |
| `Rebuild.ResetClears` | pkg/meta/store.go:322-360 | A successful reset leaves no offset, snapshot, progress row or receipt under either key |
| `Rebuild.ArchiveHolds` | pkg/meta/job_rebuild.go:95-115 | The archive holds exactly the receipts the reset deletes, all of them COMMITTED |
| `Rebuild.ResetConserves` | pkg/meta/job_rebuild.go:60-134 | Restoring the archive onto the reset tables gives back the old tables, and no other key changes |
| `RegistryHistory.WorkerStepsWhen` | pkg/meta/job_store.go:445-548 | Exactly when a claim, a renewal, a release and a claimed save go through, in the row's columns |
| `RegistryHistory.FenceWhen` | pkg/meta/worker_fence.go:73-151 | A fenced write opens exactly for the job's own unexpired lease and submission on an unlocked row, while the job is to run or its pause is being answered, with a call for one of its keys; and it commits exactly when that still holds and the call succeeds |
| `RegistryHistory.RequestsWhen` | pkg/meta/job_control.go:105-180 | Exactly when a stop, pause, resume, fresh snapshot, rebuild or writer upgrade goes through |
| `RegistryHistory.RowsComeAndGo` | pkg/meta/job_store.go:315-372 | Job rows come only by submission and go only by deletion |
| `RegistryHistory.LeaseColumns` | pkg/meta/job_store.go:495-548 | Which steps write owner, deadline and submission, and what they write |
| `RegistryHistory.StateColumns` | pkg/meta/job_control.go:105-180 | Which steps write desired state and status; an active save leaves PAUSING |
| `RegistryHistory.RoleColumns` | pkg/meta/job_control.go:144-180 | Which steps write role, resume request and state key; a rebuild or fresh snapshot requeues for a snapshot worker without a resume |
| `RegistryHistory.ConfigColumns` | pkg/meta/job_rebuild.go:135-151 | A rebuild opens a scoped native epoch for a Trino job and a full reset for any other, an upgrade changes only the mode, and nothing else touches the configuration |
| `RegistryHistory.RebuildArchivesEpoch` | pkg/meta/job_rebuild.go:95-122 | A rebuild writes one archive row, with the ended submission, its configuration and the state of both keys |
| `RegistryHistory.UpgradeArchivesEpoch` | pkg/meta/job_native_rebuild.go:75-103 | An upgrade of a Trino rebuild writes one archive row, with the key's state and the job's receipts |
| `RegistryHistory.NothingElseArchives` | pkg/meta/job_rebuild.go:123-125 | No other step writes an archive row |
| `RegistryHistory.FirstClaimIsSnapshot` | pkg/meta/job_rebuild.go:152-152 | Over every run from a rebuild, until the job is resumed in some role or deleted, the next claim that succeeds is a snapshot worker's and finds no resume requested |
| `ReceiptTheorems.RebuildConserves` | pkg/meta/job_rebuild.go:60-134 | The same for a rebuild step inside any run: restorable, other keys untouched, fresh submission |
| `ReceiptTheorems.ArchiveIsPermanent` | pkg/meta/job_rebuild.go:123-134 | An archive row never changes or disappears |
| `ReceiptTheorems.UnresolvedLostOnlyBy` | pkg/meta/iceberg_commit_store.go:88-117 | Over a whole run, an unresolved commit is resolved only by its own completion mark or explicit deletion |
| `ReceiptTheorems.ReceiptLeavesOnlyBy` | pkg/meta/store.go:275-360 | In one step a receipt leaves by explicit deletion, into a rebuild's archive, under a fenced progress row that covers it, or by an unfenced prune that names its range |
| `ReceiptTheorems.ReceiptLostInRun` | pkg/meta/store.go:275-294 | Over a run, a receipt that is gone was deleted explicitly, is in a rebuild's archive, or was covered by the durable progress row then, unless another writer had changed that row between the two statements of an unfenced save |
| `ReceiptTheorems.ClearedProgressLosesReceipt` | pkg/meta/store.go:275-294 | Whatever snapshot receipt is stored, a writer that clears the progress row between the two statements makes the prune drop it uncovered |
| `ReceiptTheorems.PruneSafeExactlyWhen` | pkg/meta/store.go:275-294 | The unfenced prune is safe for every receipt table if and only if the progress row still covers what it prunes |
| `ReceiptTheorems.TwoStatementProgress` | pkg/meta/store.go:275-294 | A crash between the two statements loses no receipt; finishing later is safe while no other writer touched the row |
| `ReceiptTheorems.OpenStartWasSaved` | pkg/meta/store.go:211-224 | An open snapshot start was saved by an earlier step of the run |
| `ReceiptTheorems.ConfirmedOnlyThroughStart` | pkg/meta/store.go:211-255 | A snapshot confirmed in a run was started by a saved start and marked later with every receipt COMMITTED; a legacy done row needs a new start |
| `ScopedRebuild.BatchIdsCoincide` | pkg/meta/scoped_rebuild_start.go:43-45 | Two native batch ids are equal if and only if row ranges and the epoch-and-table text are equal |
| `ScopedRebuild.BatchIdInjective` | pkg/meta/scoped_rebuild_start.go:43-45 | Batch ids are injective in submission, table and range for colon-free submissions |
| `ScopedRebuild.OneEpochPerIntent` | pkg/meta/scoped_rebuild_start.go:27-52 | No receipt is admitted in two epochs, by either recognition rule |
| `ScopedRebuild.RecognisedExactlyWhen` | pkg/meta/scoped_rebuild_start.go:27-52 | A start and an upgrade recognise exactly the job's own receipts under the state key, native ones by their batch id and Trino ones by their epoch |
| `ScopedRebuild.UpgradeThenStart` | pkg/meta/job_native_rebuild.go:64-75 | Every receipt set the in-place writer upgrade accepts is accepted at the next scoped start |
| `JobDatabase.Database.ClaimJobs` | pkg/meta/job_store.go:445-523 | Leases exactly the first claimable rows in update order up to the limit, as that run of claim steps, and returns every row the worker then holds under a live lease |
| `JobDatabase.Database.SelectClaimable` | pkg/meta/job_store.go:465-490 | The query loop selects the first claimable rows in update order |
| `JobDatabase.ClaimableRowsAre` | pkg/meta/job_store.go:465-490 | The claimable rows are exactly those of the role that are to run and under no lease, in the order of the query |
| `JobDatabase.Database.RenewJobLease` | pkg/meta/job_store.go:525-540 | Succeeds exactly for the holder presenting the row's submission while the job may run, and moves only the deadline |
| `JobDatabase.Database.ReleaseJobLease` | pkg/meta/job_store.go:542-548 | Clears the lease exactly for the holder presenting the row's submission, and otherwise changes nothing |
| `JobDatabase.Database.SaveClaimedJob` | pkg/meta/job_store.go:315-372 | Saves only under a held, unexpired lease, and keeps a pending pause |
| `JobDatabase.Database.RequestJobStop` | pkg/meta/job_control.go:105-119 | Succeeds exactly for a registered job, which is then desired stopped, STOPPED and unleased; nothing else changes |
| `JobDatabase.Database.RequestJobPause` | pkg/meta/job_control.go:124-139 | Succeeds exactly for a RUNNING job desired running, which becomes PAUSING and keeps its lease |
| `JobDatabase.Database.RequestJobResume` | pkg/meta/job_control.go:144-162 | Succeeds exactly for a job in a terminal status, which is requeued unleased in the given role to resume |
| `JobDatabase.Database.RequestJobFreshSnapshot` | pkg/meta/job_control.go:165-180 | Succeeds exactly for a job in a terminal status, which is requeued unleased for a snapshot from the start |
| `JobDatabase.Database.LoadJobPauseRequests` | pkg/meta/job_control.go:70-100 | Returns exactly the PAUSING rows this worker could still write under |
| `JobDatabase.Database.MarkSnapshotDone` | pkg/meta/store.go:226-255 | Guarded update with read-back: the completion mark, including the harmless repeat |
| `JobDatabase.Database.SaveSnapshotStart` | pkg/meta/store.go:211-224 | Records the start and withdraws any completion |
| `JobDatabase.Database.BeginIcebergCommit` | pkg/meta/iceberg_commit_store.go:88-97 | Succeeds exactly for a new operation id, and then adds that one receipt, PREPARED, without a query and otherwise as given |
| `JobDatabase.Database.MarkIcebergCommitCommitted` | pkg/meta/iceberg_commit_store.go:99-112 | Moves one PREPARED receipt to COMMITTED, or fails |
| `JobDatabase.Database.RecordIcebergTrinoQuery` | pkg/meta/iceberg_commit_store.go:59-79 | Stores one query identity and verifies it by reading back |
| `JobDatabase.Database.ConfirmSnapshotCompletion` | pkg/connector/snapshot.go:13-29 | Succeeds if and only if every receipt under the key is COMMITTED and the mark succeeds; success means confirmed |
| `JobDatabase.Database.SaveSnapshotProgress` | pkg/meta/store.go:275-294 | The two unfenced statements, with a crash point between them |
| `JobDatabase.Database.DeleteJobState` | pkg/meta/store.go:301-332 | Deletes a key's state unless receipts retain it |
| `JobDatabase.Database.Write` | pkg/meta/worker_fence.go:93-114 | Commits if and only if the token owns the row at both checks and the call succeeds; then it is begin, tick, commit, and otherwise the tables are rolled back |
| `JobDatabase.Database.CheckScopedRebuildIntents` | pkg/meta/scoped_rebuild_start.go:11-41 | Accepts exactly the receipt sets the start admits, under an owned row |
| `JobDatabase.Database.CheckScopedRebuildEmptyCheckpoint` | pkg/meta/scoped_rebuild_start.go:54-77 | Accepts exactly an empty checkpoint under both keys |
| `JobDatabase.Database.RequestJobRebuild` | pkg/meta/job_rebuild.go:34-159 | All or nothing: guard, scan, archive, delete and new epoch together, or no change |
| `JobDatabase.Database.UpgradeJobNativeRebuild` | pkg/meta/job_native_rebuild.go:21-113 | Moves an idle scoped rebuild to the native writer exactly when admitted, archiving and keeping its receipts |
| `MaintenanceModel.FirstIsFirst` | pkg/meta/maintenance_ownership.go:573-595 | The first matching row of a kind matches, and no earlier one does |
| `MaintenanceModel.WinnerIsPreferred` | pkg/meta/maintenance_ownership.go:81-89 | A table has a winner if and only if it is reserved; the winner matches, and is a snapshot reservation only if no streaming one matches |
| `MaintenanceModel.WinnerComesFirst` | pkg/meta/maintenance_ownership.go:573-615 | The winner is the active matching reservation before which none comes: streaming before snapshot, older before younger |
| `MaintenanceModel.GlobMatchesWhen` | pkg/meta/maintenance_ownership.go:69-79 | A name matches a pattern exactly when it falls into one part for each of the pattern's characters, none of them crossing a slash |
| `MaintenanceModel.SelectsWhen` | pkg/meta/maintenance_ownership.go:69-79 | A selector selects within its catalog, by a pattern for the namespace and one for the table |
| `OwnershipHistory.SyncGoesThroughWhen` | pkg/meta/maintenance_ownership.go:117-200 | A sync goes through exactly for the registry's submission, with a selector, and while nobody else works on a selected table |
| `OwnershipHistory.AfterSync` | pkg/meta/maintenance_ownership.go:202-216 | The job's active reservations are exactly its selectors under this submission and kind, and other jobs' rows stay |
| `OwnershipHistory.TablesAfterSync` | pkg/meta/maintenance_ownership.go:201-239 | Exactly the selected tables of a monitor, of nobody or excluded become the job's, unscheduled and incomplete, and exactly their waiting tasks are cancelled |
| `OwnershipHistory.AfterRelease` | pkg/meta/maintenance_ownership.go:251-329 | A release deactivates its rows and passes each table of the job in their catalogs to the reservation that comes first or to nobody; without a row it does nothing |
| `OwnershipHistory.AfterStaleRelease` | pkg/meta/maintenance_ownership.go:337-467 | Reservations the registry no longer backs are deactivated, and exactly the tables whose owner no longer comes first are passed on |
| `MonitorHistory.ReportGoesThroughWhen` | pkg/meta/maintenance_monitor_target_store.go:94-140 | A report goes through exactly for an active monitor with positive specificities, and concerns the reported and the dropped tables |
| `MonitorHistory.TargetAfterReport` | pkg/meta/maintenance_monitor_target_store.go:140-245 | What a report leaves in every target row |
| `MonitorHistory.WithoutCompetitors` | pkg/meta/maintenance_monitor_target_store.go:311-324 | Without a competitor an idle monitor loses the table to nobody, with its schedule and its waiting tasks on it |
| `MonitorHistory.WhileOccupied` | pkg/meta/maintenance_monitor_target_store.go:325-337 | A monitor at work keeps the table, and the other competitors conflict |
| `MonitorHistory.WhenReserved` | pkg/meta/maintenance_monitor_target_store.go:339-366 | A reserved table goes from a monitor to the job whose reservation comes first, and every competitor is labelled so |
| `MonitorHistory.WhenOwnedOtherwise` | pkg/meta/maintenance_monitor_target_store.go:367-374 | A table of another kind of owner stays, and the competitors are labelled so |
| `MonitorHistory.WhenOpen` | pkg/meta/maintenance_monitor_target_store.go:376-435 | Otherwise some competitor owns the table afterwards and the others conflict, with the schedule and the cancelled tasks spelled out |
| `MonitorHistory.AfterSetStatus` | pkg/meta/maintenance_monitor_store.go:164-226 | What pausing and activating a monitor do to its tables and tasks, and that nothing else changes |
| `MonitorHistory.AfterDelete` | pkg/meta/maintenance_monitor_store.go:228-289 | What deleting a monitor does to targets, tables and tasks, and that nothing else changes |
| `MonitorHistory.AfterExclude` | pkg/meta/maintenance_monitor_store.go:313-373 | What excluding tables does to them and their tasks, and that nothing else changes |
| `WorkHistory.ScanStepsWhen` | pkg/meta/maintenance_store.go:695-756 | Exactly when a scan claim, its end, a refresh and a signal go through, in the columns of table and monitor |
| `WorkHistory.TaskStepsWhen` | pkg/meta/maintenance_store.go:840-933 | The same for enqueueing, renewing, releasing and finishing |
| `WorkHistory.OtherStepsWhen` | pkg/meta/maintenance_ownership.go:251-262 | The same for releases and for monitor requests; clock and registry move on their own |
| `WorkHistory.ScheduleAfter` | pkg/meta/maintenance_store.go:539-646 | What each step writes to schedule, priority, completeness and snapshot id of a table |
| `WorkHistory.LeasesAfter` | pkg/meta/maintenance_operation_claim.go:240-281 | What each step writes to the two leases of a table |
| `WorkHistory.TaskAfter` | pkg/meta/maintenance_store.go:840-933 | What each step writes to a task |
| `WorkHistory.AfterRecovery` | pkg/meta/maintenance_operation_claim.go:16-43 | What recovery does to every task and every table |
| `MaintenanceInvariants.RunKeepsInv` | pkg/meta/maintenance_ownership.go:183-234 | In every reachable state no monitor-owned table matches an active reservation, and there is at most one queued, retry or leased task per table and operation |
| `MaintenanceInvariants.OwnKeepsInv` | pkg/meta/maintenance_monitor_target_store.go:338-435 | Each ownership step (sync, release, stale release, discovery, pause, delete, exclude) keeps that invariant |
| `MaintenanceInvariants.WorkKeepsInv` | pkg/meta/maintenance_store.go:840-875 | Each scan and task step keeps it |
| `MaintenanceInvariants.FinishedForever` | pkg/meta/maintenance_store.go:907-933 | A succeeded, skipped, failed or cancelled task never becomes active again |
| `BatchClaim.BatchIsAllOrNothing` | pkg/meta/maintenance_operation_claim.go:162-235 | A batch goes through if and only if every row is present and the accepted tasks sit on distinct idle tables; then it leases exactly those, cancels exactly the waiting ones whose ownership moved, and changes nothing else |
| `BatchClaim.LeasedTasksAreOwned` | pkg/meta/maintenance_operation_claim.go:193-230 | Each leased task has its table's owner, the table is leased with it, and nobody else's reservation wins the table |
| `BatchClaim.LeasedExactlyWhen` | pkg/meta/maintenance_operation_claim.go:183-230 | A waiting task of a batch that goes through is leased, together with its table, if and only if task and table belong to the owner it was picked for and no other reservation comes first there; it is cancelled if and only if one of these fails |
| `BatchClaim.ClaimSucceedsWhen` | pkg/meta/maintenance_operation_claim.go:162-235 | A batch goes through exactly when its rows exist and the tables of the tasks it leases are distinct and under no lease |
| `MaintenanceLeases.NeverBothLive` | pkg/meta/maintenance_operation_claim.go:80-281 | No table is under a live execution lease and a live scan lease at once, when holders renew only while unexpired |
| `MaintenanceLeases.RenewalSafeExactlyWhen` | pkg/meta/maintenance_operation_claim.go:253-269 | A renewal, which does not test expiry, keeps the leases apart if and only if no scan is live or the new deadline is past |
| `MaintenanceLeases.StaleRenewalOverlaps` | pkg/meta/maintenance_operation_claim.go:253-269 | From every state where a table has a claimable task and a due scan, the run of claim, expiry, scan claim and renewal puts two live leases on the table |
| `MaintenanceLeases.OverlapNeedsNothingOdd` | pkg/meta/maintenance_operation_claim.go:253-269 | Such states satisfy every invariant, for instance with the table of an active monitor |
| `MaintenanceLeases.LiveTableRefusesClaims` | pkg/meta/maintenance_operation_claim.go:105-113 | While either lease is live every claim of either kind fails |
| `MaintenanceLeases.TaskLeaseHolds` | pkg/meta/maintenance_operation_claim.go:204-235 | From a claim to its release or expiry the lease stays with its holder and no other claim on the table succeeds |
| `MaintenanceLeases.ScanLeaseHolds` | pkg/meta/maintenance_store.go:695-756 | The same for a queue-mode scan claim, to its finish, retry or deadline |
| `MaintenanceLeases.TaskLostExactlyBy` | pkg/meta/maintenance_operation_claim.go:16-43 | A leased task leaves its worker in exactly two steps, that worker's finish and a recovery after its deadline, and only that worker's renewals move the deadline |
| `MaintenanceLeases.TaskRowHolds` | pkg/meta/maintenance_operation_claim.go:204-224 | From a claim until such a step the task row stays leased to its worker over every run, and no claim accepts it again |
| `InventoryTheorems.NoRefreshLost` | pkg/meta/maintenance_store.go:539-614 | After a new-snapshot signal a check stays scheduled until a scan claimed after it has finished, through concurrent scans, retries and crashed scanners, unless ownership moves, the monitor pauses, or an id read by an earlier claim comes back first |
| `InventoryTheorems.FinishClearsExactlyWhen` | pkg/meta/maintenance_store.go:763-781 | A finish clears the schedule if and only if the table's last snapshot id is the one its claim read |
| `InventoryTheorems.SignalLostExactlyWhen` | pkg/meta/maintenance_store.go:763-781 | A new signal during a scan is lost by that scan's finish if and only if the last new signal since brought back the id the claim read |
| `InventoryTheorems.ClearingScanIsLater` | pkg/meta/maintenance_store.go:763-781 | When no signal since brings back an id read before, the finish that clears a schedule belongs to a scan claimed after the signal |
| `InventoryTheorems.RepeatedIdLosesRefresh` | pkg/meta/maintenance_store.go:618-620 | On every table that can be scanned, the run of scan claim, another id, the old id again and finish leaves nothing scheduled |
| `MonitorArbitration.OwnedAgreesWithTable` | pkg/meta/maintenance_monitor_target_store.go:267-435 | After arbitration an active target is "owned" if and only if its monitor owns the table |
| `MonitorArbitration.AtMostOneOwned` | pkg/meta/maintenance_monitor_target_store.go:267-435 | At most one active target of a table is "owned" |
| `MonitorArbitration.TopSpecificityWins` | pkg/meta/maintenance_monitor_target_store.go:376-394 | Without a live lease, a reservation or another kind of owner, the winner has top specificity, an incumbent keeps ties, and else the oldest wins |
| `MonitorArbitration.ReconcileTwice` | pkg/meta/maintenance_monitor_target_store.go:267-435 | A second arbitration at the same instant changes nothing |
| `MonitorArbitration.ReconcileCommutes` | pkg/meta/maintenance_monitor_target_store.go:246-256 | Arbitrations of two tables commute |
| `MonitorArbitration.OrderDoesNotMatter` | pkg/meta/maintenance_monitor_target_store.go:246-256 | Any order of the affected tables gives the same state |
| `MonitorArbitration.AllSettled` | pkg/meta/maintenance_monitor_target_store.go:246-256 | After the loop every listed table is settled, not only the last |
| `MonitorArbitration.DiscoverTwice` | pkg/meta/maintenance_monitor_target_store.go:94-265 | Repeating a discovery at the same instant changes nothing, in any order |
| `MaintenanceDatabase.LoadedKeepsWinner` | pkg/meta/maintenance_ownership.go:573-595 | Reading one catalog's reservations, ordered by kind, loses no winner |
| `MaintenanceDatabase.MatchingReservation` | pkg/meta/maintenance_ownership.go:607-615 | The fold finds the winner whatever the order of the rows |
| `MaintenanceDatabase.Store.AllIdle` | pkg/meta/maintenance_ownership.go:191-200 | Passes if and only if no selected table is busy for another owner |
| `MaintenanceDatabase.Store.CancelTasksForTables` | pkg/meta/maintenance_ownership.go:617-638 | The chunked statements cancel exactly the waiting tasks of the listed tables |
| `MaintenanceDatabase.Store.SyncMaintenanceReservations` | pkg/meta/maintenance_ownership.go:117-239 | Succeeds exactly when admitted, and is the sync step; otherwise nothing changes |
| `MaintenanceDatabase.Store.ReleaseMaintenanceReservations` | pkg/meta/maintenance_ownership.go:251-329 | Deactivates the submission's reservations and hands each table of the job in their catalogs to its next winner or to nobody, cancelling the job's waiting tasks |
| `MaintenanceDatabase.Store.StalePairs` | pkg/meta/maintenance_ownership.go:372-417 | Grouping rows by owner and submission finds exactly the reservations the registry no longer backs |
| `MaintenanceDatabase.Store.ReleaseMaintenanceReservationsExcept` | pkg/meta/maintenance_ownership.go:337-467 | Does so for every reservation the registry no longer backs, except for tables their owner still wins |
| `MaintenanceDatabase.Store.Elect` | pkg/meta/maintenance_monitor_target_store.go:376-385 | The scan over the ordered candidates finds the elected monitor |
| `MaintenanceDatabase.Store.ReconcileMonitorTargetOwnership` | pkg/meta/maintenance_monitor_target_store.go:267-435 | The branches, the candidate loop and the row updates together are one arbitration, as decided by `Decide` and enacted by `Enact` |
| `MaintenanceDatabase.Store.ApplyMonitorDiscovery` | pkg/meta/maintenance_monitor_target_store.go:94-265 | Succeeds exactly when admitted; arbitrates each affected table once |
| `MaintenanceDatabase.Store.SetMonitorStatus` | pkg/meta/maintenance_monitor_store.go:170-226 | A paused monitor's tables lose their schedule and its waiting tasks are cancelled; an activated one's are scheduled |
| `MaintenanceDatabase.Store.DeleteMonitor` | pkg/meta/maintenance_monitor_store.go:234-289 | The monitor and its targets go, its tables and tasks move to a tombstone owner, and its waiting tasks are cancelled, although the task columns are assigned left to right |
| `MaintenanceDatabase.Store.ExcludeMonitorTables` | pkg/meta/maintenance_monitor_store.go:313-373 | Chunk by chunk, excludes exactly the listed tables of the owner |
| `MaintenanceDatabase.Store.CoalesceSignal` | pkg/meta/maintenance_store.go:539-614 | Succeeds exactly for a known table; only a new snapshot id on a complete table makes a check due, and priorities and completeness never drop |
| `MaintenanceDatabase.Store.SetSnapshotCompleteForOwner` | pkg/meta/maintenance_store.go:624-646 | Sets the completeness of exactly the owner's tables |
| `MaintenanceDatabase.Store.ClaimPendingInventory` | pkg/meta/maintenance_store.go:695-756 | Claims the first due table by priority, past error, time due and key among those not locked by others, and none only if none is due |
| `MaintenanceDatabase.ScanOrder` | pkg/meta/maintenance_store.go:729-731 | Priority decides, then a past error, then the longest wait |
| `MaintenanceDatabase.Store.FinishInventoryClaim` | pkg/meta/maintenance_store.go:763-781 | Succeeds exactly for the scan's holder; a newer signal stays due at once, and otherwise the schedule is cleared |
| `MaintenanceDatabase.Store.RetryInventoryClaim` | pkg/meta/maintenance_store.go:827-838 | Succeeds exactly for the scan's holder, and keeps a check scheduled |
| `MaintenanceDatabase.Store.EnqueueTask` | pkg/meta/maintenance_store.go:840-875 | Inserts exactly when owned, with no active rival and no row of the same window |
| `MaintenanceDatabase.Store.RecoverExpiredMaintenanceLeases` | pkg/meta/maintenance_operation_claim.go:16-43 | The three statements retry exactly the expired leased tasks, cancel exactly the waiting tasks of gone or inactive monitors, and free exactly the expired tables |
| `MaintenanceDatabase.Store.ClaimTasks` | pkg/meta/maintenance_operation_claim.go:80-235 | The loop is the batch claim, rolled back whole on any error, and returns exactly the accepted tasks |
| `MaintenanceDatabase.Store.RenewTaskAndTableLease` | pkg/meta/maintenance_operation_claim.go:240-271 | Renews both leases or neither |
| `MaintenanceDatabase.Store.ReleaseMaintenanceTableLease` | pkg/meta/maintenance_operation_claim.go:276-281 | Clears the execution lease exactly for its holder |
| `MaintenanceDatabase.Store.FinishTask` | pkg/meta/maintenance_store.go:907-933 | Succeeds exactly for the holder of a leased task, with a time for a retry |
| `SnapshotGate.RunKeepsQueue` | pkg/core/manager.go:2250-2272 | The queue stays duplicate-free and equal to the key set of the mode map through enqueue, cancel, delete and drain |
| `SnapshotGate.NoOvertaking` | pkg/core/manager.go:2061-2076 | First in, first out: while two jobs stay queued, the later one is never picked |
| `SnapshotGate.PicksWhen` | pkg/core/manager.go:2065-2070 | A loop may take the head exactly when nothing is shutting down and starting and active jobs leave a slot |
| `SnapshotGate.ModeAfterStep` | pkg/core/manager.go:2250-2272 | A job's mode is that of the enqueue that queued it, and is forgotten when it leaves the queue |
| `SnapshotGate.ModeWasEnqueued` | pkg/core/manager.go:2250-2258 | Over runs, the mode a queued job will start in was asked for by the enqueue it has been queued since |
| `SnapshotGate.SlotsAfterStep` | pkg/core/manager.go:2061-2097 | Which jobs are starting, active and waiting after any step |
| `SnapshotGate.HoldsAfterStep` | pkg/core/manager.go:2061-2097 | Which job each loop or request holds after any step |
| `SnapshotGate.PlaceLostExactlyBy` | pkg/core/manager.go:2061-2097 | Exactly three steps leave a job waiting neither in the queue nor in a start: the QUEUED status written for a job in neither place, a cancel of a queued job that still waits, and the end of a start whose job still waits |
| `SnapshotGate.StaysPlaced` | pkg/core/manager.go:2061-2097 | Without such a step a job keeps its place through every run |
| `SnapshotGate.StatusBeforeEnqueue` | pkg/core/manager.go:2037-2052 | Had the status been written before the enqueue, the job would be placed from the enqueue on, in every run |
| `SnapshotGate.EnqueueAndStatusTogether` | pkg/core/manager.go:2037-2052 | Had both been done in one critical section, in either order, every job would keep its place |
| `SnapshotGate.DroppedBeforeWaiting` | pkg/core/manager.go:2037-2052 | As written, a drain loop can drop the job between the two, and the status then strands it |
| `SnapshotGate.LimitExceededExactlyWhen` | pkg/core/manager.go:2217-2248 | A step lifts the load past the limit if and only if, with every slot taken, it activates or directly starts a job that is on no slot |
| `SnapshotGate.CoverLostOnlyBy` | pkg/core/manager.go:2061-2097 | Started jobs stay counted if and only if no loop or request takes a job that another has not let go of |
| `SnapshotGate.FinishFreesOneSlot` | pkg/core/manager.go:2093-2095 | A loop that lets go of its job gives back exactly one slot, leaves every other loop covered and the queue as it was, and strands nobody unless the job still waits |
| `SnapshotGate.LimitKept` | pkg/core/manager.go:2061-2097 | Any number of concurrent drain loops and direct starts keep the load within the limit once it holds, absent such a step and a direct start to a slot taken since its check |
| `SnapshotGate.OneSlotForTwo` | pkg/core/manager.go:1994-2009 | Whenever one slot is left, two direct starts that both found it free exceed the limit |
| `SnapshotGate.CheckedStartIsNotLate` | pkg/core/manager.go:2037-2043 | Checking and starting in one critical section would never be late |
| `SnapshotGate.RetakingBreaksTheLimit` | pkg/core/manager.go:2080-2095 | From an empty gate with a limit of two, where every request is checked, a run takes a held job again and three jobs run at once |
| `SnapshotGate.Filter` | pkg/core/manager.go:2260-2272 | The in-place filter leaves exactly the other ids, in order |
| `SnapshotGate.Manager.ActiveSnapshotJobs` | pkg/core/manager.go:2224-2248 | Counts the slots in use |
| `SnapshotGate.Manager.EnqueueSnapshotJob` | pkg/core/manager.go:2250-2258 | Appends a job once, whether or not the array has room |
| `SnapshotGate.Manager.RemoveSnapshotQueue` | pkg/core/manager.go:2260-2272 | Removes the job from queue and modes and nothing else |
| `SnapshotGate.Manager.PickNext` | pkg/core/manager.go:2065-2081 | Stops exactly when nothing may be picked; else takes the head and starts it if and only if it still waits |
| `SnapshotGate.Manager.QueueOrAdmit` | pkg/core/manager.go:2037-2044 | Queues the job exactly when the gate applies and no slot is free, and otherwise reserves nothing for it |
| `SnapshotGate.Manager.DeleteJob` | pkg/core/manager.go:661-670 | Takes a managed job out of queue, modes, starting and active at once |
| `LogTail.SplitRoundTrip` | pkg/api/handlers_logs.go:398-402 | Splitting into lines is undone by joining, and no line holds a newline |
| `LogTail.LinesOfText` | pkg/api/handlers_logs.go:397-402 | The lines of a text are the lines it was made of, whatever mixture of LF and CR LF ends them and whether or not the last is ended |
| `LogTail.UnixCut` | pkg/api/handlers_logs.go:397-397 | A cut, even through a CR LF, leaves the normalised text after it unchanged |
| `LogTail.LaterCut` | pkg/api/handlers_logs.go:403-405 | Reading from further back only adds lines in front |
| `LogTail.EarlyStop` | pkg/api/handlers_logs.go:375-394 | Stopping once more newlines were read than lines are wanted changes nothing |
| `LogTail.TailLogLines` | pkg/api/handlers_logs.go:343-411 | The backwards chunked read agrees with reading the whole byte budget at once; for a limit from 1 to 5000 it returns at most that many lines, and the file's last ones if and only if the budget reaches back far enough |
| `LogTail.TailIsSuffix` | pkg/api/handlers_logs.go:343-411 | The result is always a suffix of the file's lines within the limit; untruncated means whole |
| `LogTail.TailExactWhen` | pkg/api/handlers_logs.go:343-411 | It is exactly the last lines if and only if the file fits the budget, or the budget's bytes hold enough line ends, or the file has no line |
| `LogTail.RequestedTail` | pkg/api/handlers_logs.go:343-352 | The same for every limit and budget: 500 lines and 8 MiB when unset, at most 5000 lines, and truncated exactly when the budget or the limit leaves something out |
| `LogTail.EmptyFilter` | pkg/api/handlers_logs.go:418-423 | The branch for an empty filter is only a shortcut |
| `LogTail.TailMatchingLogLines` | pkg/api/handlers_logs.go:413-436 | The last matches among the lines read, and truncated exactly when something was cut |
| `LogTail.MatchingAre` | pkg/api/handlers_logs.go:425-430 | The matching lines are exactly those that hold the filter, once each and in order |
| `LogTail.ContainsWhen` | pkg/api/handlers_logs.go:427-427 | Holding the filter means being it with something before and after |
| `LogTail.ReadLogLinesFromEnd` | pkg/api/handlers_logs.go:438-479 | The lines in the last bytes of the file |
| `LogTail.TailMatchingAcrossFiles` | pkg/api/handlers_logs.go:481-546 | The last `limit` matches of the searched files in chronological order; an untruncated result misses nothing |
| `LogTail.FilesWithinBudget` | pkg/api/handlers_logs.go:481-546 | When every file fits its byte budget, what is searched is the files' whole history |
| `LogTail.RequestedSearch` | pkg/api/handlers_logs.go:481-492 | The limit as for a tail, 12 files and 64 MiB of each when unset; when the searched files fit, the result is the last matches of their whole history |
| `DorisSchema.CanRepresentIsPreorder` | pkg/connectors/doris/schema_reconcile.go:167-209 | "Can represent" is reflexive and transitive |
| `DorisSchema.WideningLosesNothing` | pkg/connectors/doris/schema_reconcile.go:211-240 | A change made because the old type cannot represent the new moves to a type that represents the old, except a non-string, non-date to STRING |
| `DorisSchema.WideningIsStrict` | pkg/connectors/doris/schema_reconcile.go:211-240 | No such change can be followed by its reverse |
| `DorisValues.RepresentsIncludes` | pkg/connectors/doris/schema_reconcile.go:167-209 | A type represents another only if it holds every value of it |
| `DorisValues.RepresentsExactlyWhen` | pkg/connectors/doris/schema_reconcile.go:167-209 | Between strings, integers or declared decimals it does so if and only if it holds every value |
| `DorisValues.WideningExactlyWhen` | pkg/connectors/doris/schema_reconcile.go:211-240 | A needed change is taken for safe exactly when the new type represents the old, except DATETIME to DATETIMEV2, or is STRING for anything but a date |
| `DorisValues.WidenedTypeKeepsValues` | pkg/connectors/doris/schema_reconcile.go:124-145 | A change for the type's sake keeps every stored value, apart from the turn of other types into STRING |
| `DorisValues.DecisionWhen` | pkg/connectors/doris/schema_reconcile.go:100-145 | Exactly when a column is left alone, added or changed |
| `DorisValues.EmptyPlanServes` | pkg/connectors/doris/schema_reconcile.go:93-148 | An empty plan means that every stored column takes every value of its desired one, nulls included, in the same key |
| `DorisValues.PlannedTableServes` | pkg/connectors/doris/schema_reconcile.go:343-384 | And so does every column once a plan was carried out |
| `DorisValues.LastOfItsName` | pkg/connectors/doris/schema_reconcile.go:94-97 | A name stands for the last stored column of that name |
| `DorisValues.IntegersFitWhen` | pkg/connectors/doris/sink.go:224-230 | An integer of the source fits its column if and only if it is one of 64 signed bits |
| `DorisValues.DecimalsFit` | pkg/connectors/doris/sink.go:187-217 | Decimals keep precision and scale up to 38 digits, and longer ones become text with room for digits, sign and point |
| `DorisValues.TextFitsWhen` | pkg/connectors/doris/sink.go:266-296 | Exactly which texts fit, in the key and outside it |
| `DorisValues.OthersFit` | pkg/connectors/doris/sink.go:233-260 | Floating point outside the key, whole seconds and days fit |
| `DorisNames.SqueezeName` | pkg/connectors/doris/sink.go:547-562 | The rune loop replaces each run of other characters by one underscore |
| `DorisNames.RunBecomesUnderscore` | pkg/connectors/doris/sink.go:547-562 | Allowed characters stay, and each run of others becomes one underscore |
| `DorisNames.CharacterClasses` | pkg/connectors/doris/sink.go:542-562 | Which characters are white space, are kept in a cleaned name, or are allowed in a name |
| `DorisNames.PlainNameKept` | pkg/connectors/doris/sink.go:542-547 | A trimmed name of allowed characters that fits and is free is kept as it is |
| `DorisNames.EmptyNameIsNumbered` | pkg/connectors/doris/sink.go:564-566 | A column without a name is numbered by its position |
| `DorisNames.SuffixedForm` | pkg/connectors/doris/sink.go:585-600 | A suffix is put behind the whole base if that fits, and else behind as much as leaves room, without underscores at the end |
| `DorisNames.CandidateFits` | pkg/connectors/doris/sink.go:564-601 | A target name has at most 256 characters |
| `DorisNames.Unused` | pkg/connectors/doris/sink.go:576-601 | The suffix loop ends, and finds the first candidate whose lower-case form is free |
| `DorisNames.TargetName` | pkg/connectors/doris/sink.go:542-602 | The cleaned, cut and suffixed name is the first free candidate of its base |
| `DorisNames.CandidatesDiffer` | pkg/connectors/doris/sink.go:585-600 | Numbered candidates of one base differ even in lower case and cut to length |
| `DorisNames.TargetIsTrimmed` | pkg/connectors/doris/sink.go:542-602 | A target name is never empty and needs no trimming |
| `DorisNames.AssignedDiffer` | pkg/connectors/doris/schema_reconcile.go:77-89 | Names handed out one after another never agree, even case-insensitively, whatever the source names |
| `DorisSchema.KeysComeFirst` | pkg/connectors/doris/schema_reconcile.go:49-76 | Keys come before values, each group in source order, no column twice |
| `DorisSchema.OrderIsComplete` | pkg/connectors/doris/schema_reconcile.go:49-76 | Every source column is listed |
| `DorisSchema.FirstIsKey` | pkg/connectors/doris/schema_reconcile.go:58-67 | A table with any column has a key, and it comes first |
| `DorisSchema.MappedTypesAreDeclarable` | pkg/connectors/doris/sink.go:174-297 | Every MySQL column maps to a type Doris can declare, with bounded lengths and precisions and no STRING or floating type in the key |
| `DorisSchema.OrderColumns` | pkg/connectors/doris/schema_reconcile.go:49-76 | The index loops compute that order |
| `DorisSchema.DesiredColumns` | pkg/connectors/doris/schema_reconcile.go:44-91 | One output column for each source column in key order, with its mapped type and the first free target name, and no two names alike even case-insensitively |
| `DorisSchema.PlanSchemaChanges` | pkg/connectors/doris/schema_reconcile.go:93-148 | The map-based loop computes the plan, or the first column's error |
| `DorisSchema.PlanSucceedsWhen` | pkg/connectors/doris/schema_reconcile.go:93-148 | Planning succeeds if and only if every column can be reconciled on its own |
| `DorisSchema.ChangeApplied` | pkg/connectors/doris/schema_reconcile.go:330-341 | The wait's test, on the first column of the name |
| `DorisSchema.PlanWorks` | pkg/connectors/doris/schema_reconcile.go:296-341 | Applying the plan meets every desired column, makes every change count as applied, and leaves all other columns as they were |
| `DorisSchema.EachChangeApplies` | pkg/connectors/doris/schema_reconcile.go:343-384 | After each statement the change just made counts as applied |
| `DorisSchema.ReplanIsEmpty` | pkg/connectors/doris/schema_reconcile.go:93-148 | Planning again after applying a plan finds nothing to do |
| `DorisSchema.NarrowsExactlyWhen` | pkg/connectors/doris/schema_reconcile.go:124-145 | A planned change moves to a type that cannot represent the old one if and only if it relaxes nullability while the old type is strictly wider, or turns a type that is neither a string nor a date into STRING |
| `DorisSchema.FreshTableNeedsNothing` | pkg/connectors/doris/schema_reconcile.go:93-148 | A table created from the desired columns needs no change |
| `DorisSchema.ReconcileTableSchemaOnce` | pkg/connectors/doris/schema_reconcile.go:343-384 | The loop ends with nothing left to change and its wait never times out |
| `DorisSchema.ReconcileFromSource` | pkg/connectors/doris/schema_reconcile.go:343-384 | From any source columns, with nothing assumed about their names: success leaves every desired column met, every other column as it was, and nothing to re-plan |

## Left out

Contracts that need a condition or leave something open:

- MaintenanceLeases.NeverBothLive: holders must renew only while unexpired, because the renewal statement does not test expiry; `StaleRenewalOverlaps` shows the need and `RenewalSafeExactlyWhen` the exact condition.
- InventoryTheorems.NoRefreshLost: until then no signal brings back an id that an earlier claim read, and a scanner reports the id its claim read; `RepeatedIdLosesRefresh` and `SignalLostExactlyWhen` show that the first is needed and when it matters.
- SnapshotGate.LimitKept: no loop or request takes a job another has not let go of, and no direct start comes after its slot is gone; `RetakingBreaksTheLimit` and `OneSlotForTwo` show the need, `LimitExceededExactlyWhen` and `CoverLostOnlyBy` the exact steps.
- ReceiptTheorems.ReceiptLostInRun: every unfenced prune is the second statement of a progress save, as in the source.
- MaintenanceDatabase.Store.ClaimPendingInventory: past errors and creation times are parameters, because no other operation reads them.
- MaintenanceDatabase.Store.ReleaseMaintenanceReservationsExcept: needs that a job's active reservations share one submission and kind, which holds in every run (`RunKeepsInv`).
- WorkerTheorems.EveryChangeIsFenced: the stores can also be used without the fence; such calls are steps of their own, and the theorem names them.
- JobDatabase.Database.Write: fenced progress saving is one mutation, so the two unfenced pieces are excluded.
- DorisValues.RepresentsExactlyWhen: between strings, integers and declared decimals; dates and floating types are only sound (`RepresentsIncludes`), because the source compares DATETIMEV2 types by their spelling.
- DorisSchema.ReplanIsEmpty: needs desired names that differ, which `DesiredColumns` proves of every source; `ReconcileFromSource` assumes nothing.

Assumptions about MySQL and clocks:

- A transaction's changes become visible at its commit and its row locks are held until then; MySQL is trusted for this. An update's affected rows are read as its matched rows.
- The database clock is monotone. Workers' own clocks are free: every deadline a worker computes is a parameter.
- In the maintenance model callers pass the current time; one clock stands for all of them.
- UUIDs are fresh; SHA-256 keys stand for what they hash.

Abstractions:

- A table key is the physical table's name, trimmed and case-folded; a target's and a state's coordinates are those of its key.
- `owner_job_id` strings are split into the name spaces of their prefixes; a job is not called `unmanaged` or `stream-excluded`. Monitor ids are numbered in collation order.
- Patterns have `*` and `?` only, without character classes or escapes.
- Job configurations are reduced to the fields the rebuild steps read and write.
- Doris types are normalised and split into a base and parameters, and MySQL types are grouped by the case that maps them; raw spellings are not modelled. White space and letter case in column names are ASCII. A Doris ALTER is taken to do what its statement says. Text lengths are counted in one unit, without the difference between characters and bytes.
- A log file is read as one unchanging text; its size, time and path metadata are not returned.
- Case folding of log lines is a parameter.

Not modelled:

- `SaveJob` and `UpsertState`, unguarded upserts that can rewrite a submission or an owner.
- The non-queue inventory claim, which ignores the execution lease on purpose, and the bulk refresh request beyond one table at a time.
- Compaction, expiration and orphan schedules, counters, payloads, errors, run records and timestamps.
- Discovery's counts of added and removed targets, and locks on catalogs as separate steps.
- Waiting for a worker: in split mode submit and resume write QUEUED without enqueueing, by design, and the job enters the snapshot queue only once a worker has claimed it; `SnapshotGate` is about jobs queued for want of a slot.
- Job goroutines and statuses outside the snapshot gate, automatic recovery, sinks and sources.
- HTTP handlers, authentication, metrics, notifications, schema migrations, SQL text and JSON.
