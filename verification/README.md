# MediaSync protocols in Dafny

This project models the parts of the MediaSync appliance whose correctness depends on the order of
durable steps, and proves what they promise over every run.

* **Self-update** (`Journal`, `Snapshot`, `Operations`, `Reconcile`, `UpdaterWorld`, `UpdaterLaws`,
  `UpdaterInvariant`, `UpdaterSafety`, `UpdaterRecovery`, `UpdaterInterruption`,
  `UpdaterExecutors`, `UpdaterProgress`, `UpdaterWitnesses`, `UpdaterCompletion`).
  A helper replaces the running container. `UpdaterWorld.Step` is the protocol: the two containers,
  the data files, the snapshot, the journal, the database row, the reconciler of whichever
  appliance runs, and the coordinator process. Each executor effect, its confirmation and its
  checkpoint are separate steps; a crash, a restart by Docker, an exit, writes of the running
  appliance, a sample of the journal and a pass of the reconciler may come between any two.
  `UpdaterHost` is the same protocol as the loops and methods of the two executors, each tied to
  the step functions; while the forward executor waits, everybody else goes on.
* **Task queue** (`Ordering`, `Backoff`, `TaskQueue`, `TaskOwnership`, `TaskSafety`, `TaskReports`,
  `TaskBudget`, `TaskRepository`). Workers claim, renew, finish and recover leased tasks. Every
  repository call is one transaction; any worker may present any token at any clock reading.
* **Draining** (`Drain`) puts queue, operation row, candidate marker, snapshot and clock under one
  gate.
* **Downloads** (`Download`, `DownloadSafety`, `DownloadLaws`, `DownloadRuns`, `DownloadPath`) resume,
  verify block by block and publish without overwriting; the server may send any bytes and the
  process may die before any durable step. `RangeDownload.Call` is one call as a function,
  `DownloadPath` the same as loops and file operations.
* **Scans** (`Scan`, `BatchScan`): the page loop, the full scan of a folder tree, and
  least-recently-scanned batches.
* **Transfers** (`Transfer`): write intent, submission and operation id of a remote save.
* **Verification window** (`StabilityWindow`): the polling loop of the container verifiers.

Each step function has, beside the theorems over whole runs, a law that says on the columns themselves
what the step does: `UpdaterLaws`, `TaskReports`, `DownloadLaws`, and sections of `Journal`,
`Operations`, `Reconcile`, `Drain` and `Transfer`.

## What the proofs found

* The next undisturbed coordinator ends a rollback in every reachable world, but not always well. It
  records `rollback_failed` if and only if it may take over no more, Docker restarted the candidate
  after its stop was recorded, the old container exited after its start was recorded, or the verifier
  finds the old container unhealthy and its start is not yet recorded as verified. In that last case
  the record stays at `old_started` and the old container is left running. And an old container that
  exited after it was verified is down when the rollback is reported as done
  (`UpdaterRecovery.RollbackIsARedoLog`, `UnhealthyOldFails`). Each of the other cases happens:
  `UpdaterWitnesses`.
* An update interrupted while it was snapshotting, switching or verifying is rolled back by the next
  undisturbed coordinator if and only if that one may take over, the old container has the name of
  the checkpoint, it is not a snapshot whose old container still runs, and the restarted old container
  is found healthy; if only that fails, `rollback_failed` is recorded with it running. Beyond the last
  generation `rollback_failed` is recorded and the old container left as it is; after a crash between
  the rename and its checkpoint nothing is decided; that snapshot goes forward, and so does a requested commit
  (`UpdaterInterruption.InterruptedUpdateEnds`, `CommitGoesOn`). `UpdaterWitnesses` reaches the first
  two of these (`ForwardRecoveryCanBeExhausted`, `RenameGapIsReachable`).
* Draining can finish, with a clock that never runs backwards, if and only if no task sits in
  `cancel_requested` without an owner or with a lease that is over
  (`UpdateDrain.ReachableSitesDrainExactly`). Nobody can finish such a task: its worker may not, lease
  recovery only takes the lock away, and the gate refuses claims. Both kinds are reached, the second
  by nothing but time passing (`UpdateDrain.OrphanIsReachable`, `ExpiredCancellationIsReachable`).
* The retry limit bounds exactly the tasks nobody asked to cancel: for every number there is a
  history from the empty queue, its clock never running backwards, in which a task being cancelled has
  lost more leases than that and can still be claimed (`TaskBudget.CancelledTasksHaveNoLimit`).
* A download killed after it emptied a mismatching partial and before it saved the checkpoint leaves
  digests of bytes that are gone. A later call can then publish a file that does not have the
  expected hash (`DownloadRuns.KilledResetCanPublishWrongFile`). From a given disk some call can do
  so if and only if the saved digests are not those of the partial and some file continues the
  partial with the blocks still to be hashed
  (`DownloadSafety.WrongPublicationExactly`). Only kills bring this about
  (`DownloadRuns.OnlyKillsSpoilDigests`).
* A transfer run that lost its lease after its last ownership probe can submit a save a second time
  (`TransferOperation.StaleRunKeepsItsTurn`); `SecondSubmissionExactly` says when, and only when.

## Model

| member | source | states |
|---|---|---|
| UpdateJournal.UpdaterResultJournal.StartV2 | backend/app/services/update_snapshot_service.py:320-349 | Starting writes the first record only where no journal exists and otherwise changes nothing |
| UpdateJournal.UpdaterResultJournal.Takeover | backend/app/services/update_snapshot_service.py:408-432 | A takeover appends exactly the record the rules give, or is refused and leaves the history alone |
| UpdateJournal.UpdaterResultJournal.Checkpoint | backend/app/services/update_snapshot_service.py:434-508 | A checkpoint write appends exactly the record the rules give, or is refused and leaves the history alone |
| UpdateJournal.WritesAreExactlyThese | backend/app/services/update_snapshot_service.py:434-542 | A write is accepted if and only if status and position may go there, the rollback flag says so and the identities are given once and in time; then it changes nothing else |
| UpdateJournal.FirstFaultIsReported | backend/app/services/update_snapshot_service.py:434-542 | A refused write reports the first fault in the order of the checks |
| UpdateJournal.TakeoversAreExactlyThese | backend/app/services/update_snapshot_service.py:408-432 | A takeover is accepted if and only if the record is open and was taken over fewer than three times |
| UpdateJournal.StatusesFollowTheCourse | backend/app/services/update_snapshot_service.py:36-42 | A status is followed by the next of the course, or turned back, or failed, exactly where said |
| UpdateJournal.OneWrite | backend/app/services/update_snapshot_service.py:434-542 | Each accepted write raises the sequence by one, moves at most one checkpoint on or enters rollback, keeps candidate id and token hash, never undoes a commit request, and lowers a measure |
| UpdateJournal.EveryRecordIsValid | backend/app/services/update_snapshot_service.py:216-299 | Every record of an accepted history satisfies the record invariants |
| UpdateJournal.HistoryKeeps | backend/app/services/update_snapshot_service.py:408-542 | Over any distance: write-once identities, irreversible rollback and commit, terminal records last |
| UpdateJournal.HistoryIsBounded | backend/app/services/update_snapshot_service.py:408-542 | No accepted history has more than 24 records |
| UpdateJournal.BoundIsReached | backend/app/services/update_snapshot_service.py:408-542 | Some accepted history has exactly 24 records |
| UpdateJournal.TrailHasShape | backend/app/services/update_snapshot_service.py:516-542 | The checkpoints of an accepted history are a forward prefix and then a rollback prefix |
| UpdateJournal.EveryShapeIsWalked | backend/app/services/update_snapshot_service.py:516-542 | Conversely each such pair of prefixes is walked by an accepted history |
| UpdateSnapshot.UpdateSnapshotService.Create | backend/app/services/update_snapshot_service.py:657-709 | A created snapshot verifies and holds exactly the present files; without database or secrets nothing is created |
| UpdateSnapshot.UpdateSnapshotService.Restore | backend/app/services/update_snapshot_service.py:711-738 | A restore cut off after any number of file steps has applied that prefix of the plan; a complete one leaves exactly the snapshot; a snapshot that does not verify changes nothing |
| UpdateSnapshot.RestoreIsExact | backend/app/services/update_snapshot_service.py:711-738 | From any directory whatever a restore brings back exactly the captured files, side files included |
| UpdateSnapshot.InterruptedRestoresConverge | backend/app/services/update_snapshot_service.py:711-738 | The same after any number of interrupted attempts |
| UpdateSnapshot.TamperedSnapshotIsRefused | backend/app/services/update_snapshot_service.py:740-777 | Verification accepts a changed copy if and only if it was not changed |
| UpdateOperations.UpdateOperationRepository.Create | backend/app/repositories/update_operations.py:43-70 | A row is added if and only if its status is active and no other row holds the slot |
| UpdateOperations.UpdateOperationRepository.Move | backend/app/repositories/update_operations.py:115-128 | Active rows move only along the allowed transitions and keep the slot |
| UpdateOperations.UpdateOperationRepository.Complete | backend/app/repositories/update_operations.py:93-113 | Finishing releases the slot and sets the completion time in the same step; finished rows never change |
| UpdateOperations.MovesFollowTheCourse | backend/app/repositories/update_operations.py:26-36 | The allowed moves are the course of an update, failure up to the hand-over, cancellation before it, turning back from the snapshot on, and the two ends of turning back |
| UpdateOperations.MovesAndCompletionsAreExact | backend/app/repositories/update_operations.py:93-128 | Which of the two methods makes an allowed move, and which error each of them gives otherwise |
| UpdateReconcile.UpdateTerminalReconciler.SynchronizeActiveProgress | backend/app/update_reconcile.py:137-179 | The row is driven to the status of the sample along allowed transitions only |
| UpdateReconcile.UpdateTerminalReconciler.AdvanceRollbackState | backend/app/update_reconcile.py:181-202 | From any status in progress the row reaches rolling back along allowed transitions only |
| UpdateReconcile.UpdateTerminalReconciler.Run | backend/app/update_reconcile.py:50-134 | One pass makes of row and sample what the specification says, along allowed transitions only |
| UpdateReconcile.PassesFollowTheJournal | backend/app/update_reconcile.py:50-202 | Whatever a pass does with a matching target, row and verdict are what journal status, evidence and permission to commit say; without permission or valid evidence a requested commit leaves the row verifying |
| UpdateReconcile.OtherPassesChangeLittle | backend/app/update_reconcile.py:50-134 | A pass for another target, or one over a finished or early row, ends in the named error or leaves the row alone |
| UpdateReconcile.CompatibleSampleIsAccepted | backend/app/update_reconcile.py:94-134 | A sample compatible with the row is refused only for a commit whose evidence is not valid yet |
| UpdateReconcile.StaleSampleFitsLaterJournal | backend/app/update_reconcile.py:137-202 | What a stale sample makes of the row still fits the journal as it has become |
| UpdateReconcile.DecidedJournalIsAdopted | backend/app/update_reconcile.py:94-134 | Once the journal is decided one pass makes the row agree |
| UpdaterLaws.CandidatesAreRecognized | backend/app/services/updater_recovery_decision_service.py:268-311 | A candidate is recognized if and only if token hash, recorded identity and pending marker agree with it; any other is a conflict |
| UpdaterLaws.OldContainersAreRecognized | backend/app/services/updater_recovery_decision_service.py:355-384 | Which names of the old container are a conflict at which checkpoints |
| UpdaterLaws.DecisionTable | backend/app/services/updater_recovery_decision_service.py:137-201 | For each decision the records and scenes that lead to it; everything else is manual recovery |
| UpdaterLaws.ForwardActsExactlyIf | backend/app/services/updater_forward_v2.py:245-398 | What must hold of containers, files and identities before a forward effect is made, and nothing else |
| UpdaterLaws.ForwardTouchesOld | backend/app/services/updater_forward_v2.py:245-317 | The old container is fenced, stopped and renamed at one checkpoint each and otherwise left alone |
| UpdaterLaws.ForwardTouchesCandidate | backend/app/services/updater_forward_v2.py:319-371 | A candidate is created only where none is, under a new identity and with the pending token; only the recorded one is started |
| UpdaterLaws.ForwardRecordsWhatItSees | backend/app/services/updater_forward_v2.py:97-217 | A forward checkpoint is recorded if and only if its effect is seen |
| UpdaterLaws.OnlyTheRenamedContainerIsRemoved | backend/app/services/updater_forward_v2.py:398-413 | After success only a container under the name it was given aside is removed |
| UpdaterLaws.RollbackEffectsAreExactlyThese | backend/app/services/updater_rollback_v2.py:268-391 | Each rollback effect undoes one thing and touches nothing else |
| UpdaterLaws.RollbackActsExactlyIf | backend/app/services/updater_rollback_v2.py:268-416 | Where a rollback effect may not be made, the failure is recorded at this checkpoint and nothing else changes |
| UpdaterLaws.RollbackRecordsWhatItSees | backend/app/services/updater_rollback_v2.py:124-204 | A rollback checkpoint is recorded if and only if its effect is seen, the verified start only with a healthy verdict; otherwise the failure is recorded |
| UpdaterLaws.EntryNeedsTheToken | backend/app/services/updater_rollback_v2.py:222-236 | Rollback is entered with the pending token, which must be the one the record knows |
| UpdaterLaws.EntryIsChecked | backend/app/services/updater_rollback_v2.py:222-266 | When rollback may be entered, and which candidate it will name |
| UpdaterLaws.StartIsExact | backend/app/services/updater_coordinator_service.py:133-165 | When a coordinator starts, takes over, or marks the recovery as exhausted |
| UpdaterLaws.DispatchIsExact | backend/app/services/updater_coordinator_service.py:160-229 | What follows from each decision, and when nothing does |
| UpdaterInvariant.RunInv | backend/app/services/updater_coordinator_service.py:133-229 | The protocol invariant holds after every run from a hand-over |
| UpdaterInvariant.ForwardActInv | backend/app/services/updater_forward_v2.py:245-398 | Every forward effect keeps the invariant, also when repeated after a crash |
| UpdaterInvariant.RollbackActInv | backend/app/services/updater_rollback_v2.py:268-393 | Every rollback effect keeps the invariant, also when repeated after a crash |
| UpdaterInvariant.DispatchInv | backend/app/services/updater_coordinator_service.py:160-229 | Dispatching on an observation keeps the invariant, although the scene may have changed meanwhile |
| UpdaterInvariant.ReconcileInv | backend/app/update_reconcile.py:50-134 | A reconciler pass on an old sample keeps the invariant |
| UpdaterInvariant.CleanupInv | backend/app/update_reconcile.py:250-260 | Removing evidence, handoff and marker in this order keeps the invariant after each file |
| UpdaterSafety.NeverBothRun | backend/app/services/updater_forward_v2.py:111-213 | In no reachable world do both containers run |
| UpdaterSafety.OldContainerGetsItsDataBack | backend/app/services/updater_rollback_v2.py:309-393 | Whenever the old container runs again the directory is exactly what it was when it last ran |
| UpdaterSafety.DecisionsAgree | backend/app/update_reconcile.py:94-134 | Row success needs journal commit requested or success; row rolled back needs journal rolled back; journal success needs row success |
| UpdaterSafety.JournaledIsAccepted | backend/app/services/update_snapshot_service.py:408-508 | The records of any run of the protocol form an accepted journal history |
| UpdaterSafety.ProtocolWritesAreOrderedAndBounded | backend/app/services/update_snapshot_service.py:408-542 | Any run writes at most 24 records, in the order of the checkpoints |
| UpdaterSafety.ConfirmedStepIsAlwaysRecorded | backend/app/services/updater_forward_v2.py:460-479 | The journal never refuses the write that follows a confirmed effect |
| UpdaterSafety.NoReconcilerPassIsRefused | backend/app/update_reconcile.py:137-202 | However sparse or old the samples, no pass in any run ends in an error, also after the row was restored |
| UpdaterSafety.OnePassReachesTheDecision | backend/app/update_reconcile.py:94-134 | Once the journal is rolled back or commit requested, a single pass makes the row terminal accordingly |
| UpdaterRecovery.RollbackIsARedoLog | backend/app/services/updater_rollback_v2.py:124-199 | After any crashes the next undisturbed coordinator ends the rollback, whatever the one verdict on the old container; it records a failure if and only if it may take over no more, the candidate was restarted after its stop, the old container exited after its start, or the verdict is asked and negative; checkpoint and old container at the end are decided exactly by checkpoint, running flags, generation and verdict |
| UpdaterRecovery.UndoEnds | backend/app/services/updater_rollback_v2.py:124-199 | The same outcome for both verdicts from the beginning of any rollback checkpoint; rolled back with no candidate left and name and policy of the old container back |
| UpdaterRecovery.UndoOutcome | backend/app/services/updater_rollback_v2.py:124-199 | On the track the undisturbed run ends with the journal rolled back and the invariant kept, and with the old container running wherever the redo log promises it |
| UpdaterRecovery.UndoFails | backend/app/services/updater_rollback_v2.py:268-309 | Off the track the undisturbed run ends with rollback failed and the old container down, whatever the verdict |
| UpdaterRecovery.UnhealthyOldFails | backend/app/services/updater_rollback_v2.py:170-204 | On the track and before the verdict is recorded, the undisturbed run with a negative verdict ends as a failed rollback at the recorded start, with the old container running |
| UpdaterRecovery.UnhealthyIsNeverVerified | backend/app/services/updater_rollback_v2.py:170-204 | No run whose verdicts are all negative ever records the old container as verified, whatever else happens |
| UpdaterRecovery.OldStaysDown | backend/app/services/updater_rollback_v2.py:124-199 | An old container that exits after it was verified is down when the rollback is reported as done |
| UpdaterRecovery.ExhaustionIsRecorded | backend/app/services/updater_coordinator_service.py:258-287 | A coordinator beyond the last generation records the failed rollback and leaves the old container as it is |
| UpdaterInterruption.InterruptedUpdateEnds | backend/app/services/updater_coordinator_service.py:133-287 | From any reachable world whose journal is snapshotting, switching or verifying, the next undisturbed coordinator ends rolled back with the old container running if and only if it may take over, the name fits the checkpoint, it is not a snapshot whose old container runs, and the verdict on the old container is healthy; otherwise it records a failed rollback, stops undecided, or goes forward, each in exactly the case that is named |
| UpdaterInterruption.CommitGoesOn | backend/app/services/updater_coordinator_service.py:133-229 | A requested commit goes forward with the candidate running, if the hand-over is there and the coordinator may take over, and otherwise nothing happens |
| UpdaterInterruption.ExhaustedRun | backend/app/services/updater_coordinator_service.py:258-287 | Beyond the last generation a forward record is turned into a failed rollback in single writes, the old container left as it is |
| UpdaterInterruption.MisnamedOldContainerStopsRecovery | backend/app/services/updater_coordinator_service.py:160-229 | Under another name the coordinator stops for manual recovery and changes neither status nor old container |
| UpdaterWitnesses.CandidateCanComeBack | backend/app/services/updater_rollback_v2.py:124-199 | From every hand-over some run leaves a restarted candidate after its recorded stop |
| UpdaterWitnesses.OldCanExit | backend/app/services/updater_rollback_v2.py:124-199 | From every hand-over some run leaves an old container that exited at each of the last three checkpoints; the first blocks the rollback, the others leave it down |
| UpdaterWitnesses.RecoveryCanBeExhausted | backend/app/services/updater_coordinator_service.py:133-160 | From every hand-over some run of takeovers and crashes uses up the generations of a rollback |
| UpdaterWitnesses.ForwardRecoveryCanBeExhausted | backend/app/services/updater_coordinator_service.py:133-160 | The same for an update whose candidate is being verified |
| UpdaterWitnesses.RenameGapIsReachable | backend/app/services/updater_forward_v2.py:299-317 | From every hand-over some run crashes between the rename of the old container and its checkpoint |
| UpdaterRecovery.RollbackNeverCreates | backend/app/services/updater_rollback_v2.py:124-199 | No rollback step creates a candidate |
| UpdaterCompletion.UndisturbedUpdatesNeverGetStuck | backend/app/services/updater_forward_v2.py:97-217 | After every undisturbed run, in whatever order coordinator, appliances and reconciler acted, the update can still be completed: row and journal at success, only the new container left and running, the marker gone |
| UpdaterExecutors.UpdaterHost.Prepare | backend/app/services/updater_candidate_service.py:55-69 | The candidate token is issued once and reused afterwards |
| UpdaterExecutors.UpdaterHost.Await | backend/app/services/updater_state_machine.py:380-390 | A waiting loop, with everybody else acting between its polls, accepts if and only if there is a poll at which what it waits for holds, at the verification a poll that completes the stability window with the recorded candidate running and its evidence there, and no earlier poll refused or accepted; it ends in the world of that poll |
| UpdaterExecutors.AwaitedExactly | backend/app/services/updater_state_machine.py:133-159 | The same as a law of the polls: when waiting accepts, and which world it leaves |
| UpdaterExecutors.UpdaterHost.ExecuteForward | backend/app/services/updater_forward_v2.py:97-217 | From every reachable world the forward loop, with others acting while it waits, is a run of the protocol that ends in success with the old container removed, or stops at the verification of the candidate or at the commit and nowhere else; a candidate that no verification poll sees stable is never recorded as verified and nothing is removed |
| UpdaterExecutors.UpdaterHost.EnterOrResume | backend/app/services/updater_rollback_v2.py:222-266 | Entering rollback is a run of the protocol that either records the first rollback checkpoint or changes no record |
| UpdaterExecutors.UpdaterHost.RestoreSnapshot | backend/app/services/updater_rollback_v2.py:309-316 | The restore loop is a run of the protocol and leaves exactly the data of the stopped old container |
| UpdaterExecutors.UpdaterHost.ExecuteRollback | backend/app/services/updater_rollback_v2.py:105-208 | The rollback loop does a run of the protocol and, resumed undisturbed, the run whose outcome UndoEnds gives, for both verdicts on the old container |
| Ordering.TakeLeastIsFirst | backend/app/repositories/tasks.py:219-230 | Repeated minimum selection is the start of the eligible rows in key order, as many as asked for and available |
| Ordering.FirstOfIsUnique | backend/app/repositories/tasks.py:219-230 | No other list of that length is |
| RetryBackoff.ExponentialBackoff.DelayFor | backend/app/task_engine/worker.py:44-52 | The doubling loop computes the capped geometric delay; a negative count is an error |
| TaskOwnership.ClaimOfRow | backend/app/repositories/tasks.py:270-314 | A claim meets no active run and its run has the next number of the task |
| TaskOwnership.ChangeOfRow | backend/app/repositories/tasks.py:132-621 | What any change of a row does to its lease, its runs and its history |
| TaskOwnership.RunOk | backend/app/repositories/tasks.py:102-621 | Locks, runs, numbers and tokens stay consistent over every run of the queue |
| TaskSafety.OwnershipIsExact | backend/app/repositories/tasks.py:181-480 | A reachable task is locked exactly when its last run, and no other, is active with the same worker and token; runs are numbered 1 to n; completion time and schedule agree with the status |
| TaskSafety.LeasesNeverMissTheirRun | backend/app/repositories/tasks.py:181-621 | Claim, heartbeat, finish and recovery succeed if and only if the caller's arguments and the lease allow it; a run is never missing or in the way |
| TaskSafety.HistoryIsAppendOnly | backend/app/models/task.py:141-176 | Runs keep their place and identity and a finished run never changes |
| TaskSafety.ClaimIsClosedAtMostOnce | backend/app/repositories/tasks.py:368-621 | A token closes at most one lease in any interleaving |
| TaskSafety.SpentTokensAreFenced | backend/app/repositories/tasks.py:316-480 | After that, whoever presents the token changes no row, ever |
| TaskReports.ReportsAreRecorded | backend/app/task_engine/worker.py:332-405 | For an owned live lease of a reachable queue and each outcome, the row afterwards: deferred tasks wait for the given time or a second, successes complete, retries wait for the capped delay or fail beyond the limit, missing credentials block, failures and cancellations end, and the run records what happened |
| TaskReports.ReportedTasksWait | backend/app/task_engine/worker.py:365-404 | A task that is to be tried again is claimable from exactly the time of its report plus its delay |
| TaskReports.MovesWithoutOwner | backend/app/repositories/tasks.py:132-179 | What a status change without ownership does to the row, or why it is refused |
| TaskReports.HeartbeatsRenew | backend/app/repositories/tasks.py:316-366 | A heartbeat moves the end of the lease to the reading plus the duration and changes nothing else |
| TaskReports.ExpiredLeasesAreCharged | backend/app/repositories/tasks.py:526-621 | A recovered lease counts as a retry that waits for the given time, fails the task beyond the limit, and leaves a cancelled one to be claimed |
| TaskReports.StaleListingsRecoverNothing | backend/app/repositories/tasks.py:526-621 | A listed lease that was renewed, finished or recovered meanwhile is left alone |
| TaskReports.ClaimsLockTheFirst | backend/app/repositories/tasks.py:181-268 | The claimed row, its new run and its lease, on the columns |
| TaskBudget.RetriesAreConserved | backend/app/task_engine/worker.py:365-404 | The retry counter is the number of failed and lost runs, within the limit while the task can run, and an uncancelled task ends after at most one more |
| TaskBudget.CancelledTasksHaveNoLimit | backend/app/repositories/tasks.py:550-621 | For every limit and every number there is a history from the empty queue, its clock never running backwards, in which a task being cancelled has failed more often than that and is claimable |
| TaskBudget.ClaimsAreServedInOrder | backend/app/repositories/tasks.py:198-246 | Successive claims at one instant return the first claimable tasks, all different: each before the next and before every task left, by priority from high to low, effective time, creation time and id |
| TaskRepository.TaskRepository.CreateTask | backend/app/repositories/tasks.py:114-121 | A new task is pending, unlocked, without runs, due at once, and nothing else changes |
| TaskRepository.TaskRepository.ChangeStatus | backend/app/repositories/tasks.py:132-179 | A transition without ownership changes the row as specified or not at all, and says which |
| TaskRepository.TaskRepository.ClaimNext | backend/app/repositories/tasks.py:181-268 | A claim locks, with a fresh token and a new run, the claimable task that comes before every other one by priority, effective time, creation time and id, if there is one |
| TaskRepository.TaskRepository.Heartbeat | backend/app/repositories/tasks.py:316-366 | A heartbeat extends exactly the presented lease or changes nothing |
| TaskRepository.TaskRepository.FinishRun | backend/app/repositories/tasks.py:368-480 | Finishing closes exactly the presented lease and run or changes nothing |
| TaskRepository.TaskRepository.ListExpiredLeases | backend/app/repositories/tasks.py:482-524 | The listed leases are expired, oldest first, at most as many as asked for |
| TaskRepository.TaskRepository.RecoverExpiredLease | backend/app/repositories/tasks.py:526-621 | Recovery closes exactly the listed lease if it is still the same, or changes nothing |
| TaskRepository.TaskRepository.RecoverExpired | backend/app/task_engine/worker.py:213-235 | The recovery loop takes the expired leases that ended longest ago, up to the limit, and charges each |
| TaskRepository.TaskRepository.Finished | backend/app/task_engine/worker.py:332-405 | The report of an outcome for an owned live lease leaves the row that ReportsAreRecorded gives on its columns, or is refused and changes nothing |
| TaskRepository.TaskRepository.RecoverAndClaim | backend/app/task_engine/worker.py:213-251 | One cycle recovers the expired leases that ended longest ago, up to the limit, each exactly as its law says, claims nothing while gated, and otherwise claims as ClaimNext does |
| UpdateDrain.WaitUntilDrained | backend/app/services/update_install_service.py:125-144 | The drain loop ends at the first quiet poll or the first poll at the deadline |
| UpdateDrain.DrainedStaysQuiet | backend/app/services/update_install_service.py:73-144 | From then until the operation is terminal no task is owned, running or being cancelled, also after the snapshot is put back |
| UpdateDrain.ReachableSitesDrainExactly | backend/app/services/update_install_service.py:125-144 | In every reachable site that is draining, some continuation whose clock never runs backwards drains it if and only if no task is in cancel_requested without an owner or with a lease that is over |
| UpdateDrain.DrainsExactlyWithoutLost | backend/app/services/update_install_service.py:125-144 | The same for any draining site with a consistent queue: owners finish, expired runs are recovered, and the next poll ends the loop |
| UpdateDrain.LostCancellationBlocksDraining | backend/app/services/update_execution_gate.py:75-82 | With such a task the drain loop never returns, whatever anybody does, without an owner even if the clock runs backwards; the row leaves draining only for a terminal status |
| UpdateDrain.OrphanIsReachable | backend/app/task_engine/worker.py:213-251 | From every site that begins with an empty queue a cancellation without an owner is reached: claim, cancellation, lost worker, recovery, then draining |
| UpdateDrain.ExpiredCancellationIsReachable | backend/app/repositories/tasks.py:316-480 | From every site that begins with an empty queue a draining site is reached that can be drained until the lease of a cancelled task ends and never after |
| RangeDownload.ChooseBlock | backend/app/services/download_stream.py:68-71 | The block is 256 KiB times 1, 2, 4 or 8: the least of them with at most 512 blocks to the file, or 2 MiB |
| DownloadSafety.OneShotIsByBlocks | backend/app/services/download_stream.py:68-88 | The expected hash is the list of the digests of the consecutive blocks of that size, the last one possibly shorter |
| DownloadSafety.ContinuedIsOneShotExactly | backend/app/services/download_stream.py:72-88 | Continuing from some digests gives the one-shot hash of the file if and only if they are digests of its own first blocks |
| DownloadSafety.TargetIsNeverReplaced | backend/app/services/download_stream.py:128-142 | A file at the target, also one that appears between check and link, is not replaced by this call or any later one, and the call that met it at the link reports no success |
| DownloadSafety.PublishedIsReported | backend/app/services/download_stream.py:128-141 | After a crash around publication the next call reports success and rewrites nothing |
| DownloadSafety.PublishedMatchesExactly | backend/app/services/download_stream.py:63-93 | Whatever the server sent, a published file is complete, and has the expected hash if and only if the digests the call began with are those of its blocks |
| DownloadSafety.OwnDigestsPublishMatching | backend/app/services/download_stream.py:96-268 | A call that begins with the digests of its own partial publishes only a complete file of the expected hash, with its identity recorded |
| DownloadSafety.CallsKeepOwnDigests | backend/app/services/download_stream.py:161-268 | Such a call, unless killed, leaves digests of the partial again |
| DownloadSafety.WrongPublicationExactly | backend/app/services/download_stream.py:63-93 | From a resumable partial some call can publish a file of another hash if and only if the saved digests are not those of the partial and some file passes behind them |
| DownloadRuns.KilledResetCanPublishWrongFile | backend/app/services/download_stream.py:89-93 | A history of three calls, the second killed between emptying the partial and saving the checkpoint, that publishes a file of another hash |
| DownloadRuns.SuccessMeansMatching | backend/app/services/download_stream.py:96-268 | In every history whose calls begin with digests of their own partial, success means a complete file of the expected hash at the target |
| DownloadRuns.OnlyKillsSpoilDigests | backend/app/services/download_stream.py:264-268 | Without kills every call of every history begins with digests of its own partial |
| DownloadRuns.DeferralsMakeProgress | backend/app/services/download_stream.py:161-247 | A call that defers after a 206 reply has gained bytes or digests, whatever the reply carried |
| DownloadRuns.HonestServersAreSafe | backend/app/services/download_stream.py:96-268 | Over every history of calls, kills included, whose servers always send the same file for the same identity, the partial is a prefix of it and what a call put at the target is complete and matches |
| DownloadLaws.RepliesAreChecked | backend/app/services/download_stream.py:161-206 | Which replies are read from, which are refused, and with which error, by status and headers |
| DownloadLaws.IgnoredRangesStartOver | backend/app/services/download_stream.py:190-206 | A whole reply to a request for a range empties partial and digests first; a call that works in chunks then refuses it, any other writes it from the start |
| DownloadLaws.BodiesAreWritten | backend/app/services/download_stream.py:207-245 | Disk, digests and result after the write loop, chunk by chunk, also where it dies or the reply is too long or short |
| DownloadLaws.VerificationDecides | backend/app/services/download_stream.py:63-93 | A mismatch empties partial and digests, an interrupted verification keeps what it hashed, a match goes on |
| DownloadLaws.PublicationIsInOrder | backend/app/services/download_stream.py:250-263 | Identity, link and removal of the partial in this order, also where it dies, and nothing over an existing target |
| DownloadLaws.CallsBegin | backend/app/services/download_stream.py:128-158 | What a call that lives on does before it sends anything: existing targets, finished partials and partials of another file |
| DownloadPath.DownloadPath.ReceiveReply | backend/app/services/download_stream.py:161-245 | Checks of the reply, reset for an ignored Range and the write loop do exactly what the function of a call says |
| DownloadPath.DownloadPath.HashBlocks | backend/app/services/download_stream.py:72-87 | The hashing loop continues the digests as specified |
| DownloadPath.DownloadPath.PublishPartial | backend/app/services/download_stream.py:250-263 | Identity, link and removal of the partial, in this order, as specified |
| DownloadPath.DownloadPath.StreamDownload | backend/app/services/download_stream.py:96-268 | One call, dying after any number of durable steps, has exactly the result and leaves exactly the disk of the specification |
| DownloadPath.DownloadPath.DownloadToTheEnd | backend/app/services/download_stream.py:161-247 | With 206 replies the deferrals are at most the missing bytes plus the blocks not yet hashed |
| FolderScan.ScanService.RecordItem | backend/app/services/scan_service.py:65-149 | Recording one item: known afterwards, counted if new, checkpoint seen now and scanned when it was if a folder, transfer if a new or changed file, and nothing else |
| FolderScan.ScanService.ScanFolderContents | backend/app/services/scan_service.py:152-196 | For any provider the page loop ends, reads no more pages than distinct items, records what it read, and stops with an error exactly at a page without news or a repeated cursor |
| FolderScan.HonestFolderIsListed | backend/app/services/scan_service.py:168-195 | A folder that lists each child once, ending without a cursor or with an empty page, passes the guards and is read to its end |
| FolderScan.VisitsOnce | backend/app/services/scan_service.py:199-234 | The recursion visits the root and every folder below it exactly once |
| FolderScan.ScanService.ScanFolderFull | backend/app/services/scan_service.py:199-234 | The recursion records exactly the items below the folder and stamps every folder below it |
| FolderScan.ScanService.ExecuteFullScan | backend/app/services/scan_service.py:295-361 | A full scan of a finite tree discovers exactly the unknown items, knows every item, adds exactly the wanted transfers, and keeps checkpoints for the folders below the root and for those others stamped no earlier than its start |
| BatchScan.UnpickedMovesUp | backend/app/services/scan_service.py:256-283 | A folder that is not picked moves up by the whole batch |
| BatchScan.EveryFolderIsScanned | backend/app/services/scan_service.py:256-283 | Any m consecutive scans of b folders with m * b at least the number of checkpoints scan every folder |
| BatchScan.FolderBatches.ScanBatch | backend/app/services/scan_service.py:256-283 | One incremental scan stamps, in this order and with rising times, the folders never scanned by id and then those scanned longest ago, as many as the batch holds, and no others |
| BatchScan.FolderBatches.IncrementalScans | backend/app/services/scan_service.py:256-283 | Enough consecutive scans visit every folder |
| TransferOperation.EverySubmissionHadAnIntent | backend/app/services/transfer_operation.py:127-143 | Every save ever submitted came after a durable write intent, from a run that knew no operation |
| TransferOperation.LaterRunsNeverSubmit | backend/app/services/transfer_operation.py:116-158 | No run claimed after the operation id was recorded submits again |
| TransferOperation.RetriesNeverSubmit | backend/app/services/task_enqueue_service.py:68-109 | A retry inherits a known operation and never submits |
| TransferOperation.RetriesInherit | backend/app/services/task_enqueue_service.py:68-109 | A retry is enqueued only when every task of the file is finished, and takes the three provider columns of the latest |
| TransferOperation.ColumnsAreWrittenByRuns | backend/app/task_engine/transfer_handler.py:303-346 | Which run writes which provider column at which stage, and that nothing else does |
| TransferOperation.StatusAlwaysFits | backend/app/task_engine/transfer_handler.py:303-346 | In every history the status column tells whether an intent and an operation id are recorded |
| TransferOperation.SecondSubmissionExactly | backend/app/services/transfer_operation.py:127-143 | A further submission is possible if and only if a run without the operation is past its last probe or still before it with the lease |
| TransferOperation.StaleRunKeepsItsTurn | backend/app/services/transfer_operation.py:127-143 | A history in which such a run exists after the operation was recorded |
| TransferOperation.TransferWorker.RecordWriteIntent | backend/app/task_engine/transfer_handler.py:303-311 | The intent is written once and not over a known operation |
| TransferOperation.TransferWorker.RecordProviderOperation | backend/app/task_engine/transfer_handler.py:313-321 | The operation id is written once; another id is refused |
| TransferOperation.TransferWorker.ExecuteTransfer | backend/app/services/transfer_operation.py:89-167 | One run takes steps of its own only; it submits exactly one save, for its own task, if it knows no operation, the target is not there, it is not cancelled and holds the lease, and otherwise none |
| StabilityWindow.Verify | backend/app/services/updater_state_machine.py:133-159 | The verifier accepts at the first poll that completes an unbroken, unchanged window of the required length, refuses at the first change, times out at the first poll past the deadline, and otherwise goes on |

## Left out

- Container, image and manifest details: an inspected container is reduced to matched, missing or in conflict, and to name, restart policy and running.
- UpdateSnapshot.UpdateSnapshotService.Create: the copy of the handoff document and the schema revision in the manifest are not part of the snapshot.
- UpdaterCompletion.UndisturbedUpdatesNeverGetStuck: success stays reachable; schedules that for ever leave out an action that is possible, and candidates that never become healthy, are not excluded, so it is not claimed that every run ends.
- UpdaterExecutors.UpdaterHost.Await: whether a poll finds the candidate healthy for long enough is part of the poll; StabilityWindow.Verify decides it from the clock.
- TaskRepository.TaskRepository.ListExpiredLeases: the admissible range of the limit, 1 to 1000, is not checked.
- Files outside the data directory's database, write-ahead log, shared memory and secrets.
- fsync, permissions, symbolic links, file locks: replacing and linking a file are atomic and one coordinator runs at a time.
- SQL: a repository call is one atomic step, and a failed one leaves nothing behind.
- Hashes are symbolic and tokens are drawn from a counter, so neither collides.
- Public error codes and messages, public identifiers, versions and digests in the journal, evidence and marker.
- The version 1 updater executor, legacy execution mode and the reconciliation of legacy task rows; they bypass leases.
- Run numbers written by database migrations.
- Pulling and verifying the image, preparing the handoff, and the clean-up of the install service when starting the helper failed.
- A hand-over already cleaned up after commit gives the coordinator nothing to work on; no progress is claimed there.
- Redirects, URL checks, rate limiting, a file that shrinks while it is verified, and the format check of the expected hash in downloads.
- Cancellation probes, relative paths, sizes and content hashes of scanned items, and the choice between full and incremental scan.
- BatchScan.EveryFolderIsScanned: the set of checkpoints is fixed; new folders go to the front of the queue and can delay the others.
- The clock of the queue may jump anywhere; only where draining is possible and where histories are exhibited is it asked not to run backwards. Nothing is said about how long a lease lasts.
- Providers without resumable saves, verified existing items, folder preparation and token rotation in transfers.
- Blocked reasons, error columns, payloads and idempotency keys of tasks; their immutability triggers.
- Web routes, the frontend, command lines, QR login, registry and release clients.
