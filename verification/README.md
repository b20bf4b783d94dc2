# Verified model of the Linux patch agent

The agent manages the packages of one machine on behalf of a remote manager.
Requests over HTTP become jobs; a scheduler decides which job may change the
system and when a reboot or an update of the agent itself may start; the job
history survives restarts; on Debian systems `apt-get` and `dpkg` do the work.
This project models that logic in Dafny and proves what it guarantees.

| files | subject |
|---|---|
| `Jobs`, `SchedulerState`, `Scheduler`, `SchedulerLaws`, `SchedulerAnswers` | jobs, the scheduler's critical sections as functions and as methods of a class that updates its fields, laws for arbitrary clients, and every answer and change read off the state's fields |
| `Tasks`, `TaskInvariant`, `TaskSteps`, `TaskTheorems`, `TaskLimits`, `Waiters` | the handlers' tasks, the watchdogs and the notifier as a transition system that starts from a recovered history; its inductive invariant; theorems about every run |
| `Outcomes`, `Causes`, `Progress`, `ExampleRuns` | from a closure's result to the job's final status, from each status back to its cause, what can always go on, and runs on which an install waits its turn and an update is reserved during a refresh |
| `Counterexamples`, `Cancellation`, `Abandonment`, `FullQueue` | runs on which a guarantee fails, what is lost where a caller is dropped, and the jobs that nobody will ever finish |
| `Persistence`, `Boot`, `Startup`, `Retention` | what is written, what startup makes of it, and which jobs come back |
| `CrashSafety`, `HistoryOrder`, `HistoryWrites`, `CrashRuns` | overlapping writers and crashes, the age of the file on disk, the calls that cause the writes, and concrete runs |
| `Apt`, `AptObject`, `AptLaws`, `Text` | the APT backend over an arbitrary command runner |
| `AptRecovery` | what the backend does about each failure, with commands, options and phrases written out |
| `FetchTexts`, `AptRetries`, `RetryWitnesses` | exactly when a patch transaction is retried |
| `Quoting`, `Serial`, `Cidr` | rendering of commands, the revocation index, address filters |

In the concurrent model one step is one critical section or the code of one
task between two suspension points. A run starts from the job map that startup
recovers from any history file and interleaves any number of tasks; requests,
clocks, boot ids, backend answers, elapsed backstops, dropped callers and the
sleeper that a notification wakes are chosen freely by the environment.
Job ids are numbers, and the only assumption about new ones is that they are
fresh.

## What holds only under a condition

* The wait loop says that a job must exist and be Pending (`src/jobs/scheduler.rs:712`)
  but tests only whether it is already Running. A job that a reboot reservation
  failed can therefore run again after the reservation is rolled back, a deleted
  job's task can still take the slot, and the queue can overflow
  (`Counterexamples`). Life cycles and completion times are as promised if and only
  if no acquisition finds its job finished; the queue stays within its depth if and
  only if no acquisition takes the slot for a finished real job while the queue is
  full. No unacknowledged reboot is admitted over a mutation if and only if the
  slot's holder was in the job map at admission.
* A reboot request without `force` does not look at the slot
  (`src/jobs/scheduler.rs:372`), so `force` is not monotone
  (`ForceCanRefuse`); a running cache refresh is such a state
  (`Counterexamples.ForceIsRefusedDuringRefresh`).
* A backstop frees the slot while its closure may go on
  (`src/jobs/scheduler.rs:793`). At most one closure executes at a time if and only
  if no watchdog is spawned while a closure from before an elapsed backstop still
  executes; `Counterexamples.ClosuresOverlap` is a run with two.
* The notes on `dispatch_mutation` (`src/jobs/scheduler.rs:637-645`) say that a
  dropped caller leaves neither slot nor job behind. The job half holds at one
  suspension point only: without a reboot the job can still end if and only if the
  caller awaited its watchdog, or the job had already been failed or deleted
  (`DroppedJobCanEnd`). A caller dropped while it waits for the slot leaves its job
  Pending for ever, unless a reboot reservation fails it; a caller dropped with a
  delivered result leaves it Running for ever. Such a job cannot be deleted, counts
  against the queue, and bars self-updates and unforced reboots. The slot half fails
  at one point: between the acquisition and the spawn of the watchdog lies the write
  of the history file (`src/jobs/scheduler.rs:786`), and a caller dropped there
  keeps the slot for ever. The update of the agent stays reserved for ever wherever
  in its dispatch its caller is dropped. The handlers run dispatches in detached
  tasks, so none of this happens there. A reboot request, however, awaits the same
  write in the handler itself, after the reservation and before its task exists
  (`src/jobs/scheduler.rs:451-460`); dropped there, it leaves the reservation behind
  for ever.
* A rollback job is admitted and never dispatched (`src/api/handlers/jobs.rs:232`),
  so it too stays Pending until a reboot reservation fails it. Once as many such
  jobs are Pending as the queue is deep, every request is refused for good: no job,
  self-update or reboot is admitted, forced and acknowledged or not. One finished
  job is enough to get there (`RollbacksCloseScheduler`).
* Concurrent history writers do not tear the file until the 64-bit counter of
  temporary names wraps, and one name later they can. The note that they cannot
  clobber each other (`src/jobs/persistence.rs:88`) fails: a slower writer puts an
  older history in place of a newer one, and a completed install comes back as
  failed. The file never goes back if and only if no writer renames a copy older
  than the file it replaces, which holds when only one writer is at work at a time.
  On such runs, if no write fails, every call that persists is on disk once no write
  is due (`PersistedCallsAreOnDisk`).
* A patch task is meant to refresh and retry after a fetch error
  (`src/api/handlers/patches.rs:245`). The test looks at the outermost message only,
  which is a fixed text when the runner reports an `apt-get` as an error, as the
  production runner does for every non-zero exit (`src/packages/coordinator.rs:257`).
  So a package that is not found is not retried, and what can cause a retry there is
  a broken or dirty audit, or the list of held packages, that happens to read like a
  fetch error: a held `linux-image-404` does (`RetryWitnesses`).
* The rendering of a command loses empty arguments, and only those.

## Model

The scheduler's critical sections that consist of a single guarded update
(`ReleaseSelfUpdate`, `DropSelfUpdateGuard`, `BeginRebootExecution`,
`SetJobRebooting`, `FreezeAdmission`, `CompleteJob`, `FailJob`,
`FailJobWithDiagnostics` and `DeleteJob`), and the steps `EnsureClean`,
`VerifyClean` and `Fallback` of the APT backend, are proved against functions of
the same names and have no rows of their own.

| member | source | states |
|---|---|---|
| Jobs.ValidatePackageNames | src/api/handlers/packages.rs:25-33 | accepts a request exactly when every name and version is valid, names the first offender otherwise; an accepted request never counts as internal bookkeeping |
| Jobs.ValidNamesAreNotInternal | src/jobs/manager.rs:163-168 | no list of valid package names has the reserved form of internal jobs |
| Jobs.AcceptanceIsLiteral | src/packages/mod.rs:31-90 | names and versions are accepted exactly by length, first character and listed alphabet |
| SchedulerObject.Scheduler.constructor | src/jobs/scheduler.rs:129-147 | empty, open, both limits at least one |
| SchedulerObject.Scheduler.CountActiveReal | src/jobs/scheduler.rs:1914-1920 | the counting loop yields the number of active, non-internal jobs |
| SchedulerObject.Scheduler.CountRunning | src/jobs/scheduler.rs:719-724 | the counting loop yields the number of running jobs |
| SchedulerObject.Scheduler.AdmitJob | src/jobs/scheduler.rs:1899-1940 | admission in place: new state and answer are those of the specification, refusals change nothing |
| SchedulerObject.Scheduler.CreateRollbackJob | src/jobs/scheduler.rs:1392-1417 | a rollback job only for a failed or completed original, exclusive and linked to it |
| SchedulerObject.Scheduler.TryReserveSelfUpdate | src/jobs/scheduler.rs:237-310 | the self-update reservation with all its refusals |
| SchedulerObject.Scheduler.ReserveReboot | src/jobs/scheduler.rs:346-460 | the reboot reservation with all its refusals; every other pending job fails |
| SchedulerObject.Scheduler.FailAllPending | src/jobs/scheduler.rs:422-446 | collecting and then failing the pending jobs one by one fails exactly them and touches no other job |
| SchedulerObject.Scheduler.RollbackReboot | src/jobs/scheduler.rs:486-530 | only the current owner's rollback has an effect |
| SchedulerObject.Scheduler.TryAcquire | src/jobs/scheduler.rs:665-762 | one turn of the wait loop: rejection, wait or acquisition under the next wrapped generation |
| SchedulerObject.Scheduler.Finalize | src/jobs/scheduler.rs:820-922 | a watchdog frees the slot only if it still owns it, and ends the job of a caller that is gone |
| SchedulerObject.Scheduler.UpdateJob | src/jobs/scheduler.rs:962-1017 | refuses to start a job beyond the limit |
| SchedulerObject.Scheduler.LoadHistory | src/jobs/scheduler.rs:1366-1379 | the loop inserts all entries, a later one winning |
| SchedulerObject.Scheduler.RecoverOrphanedJobs | src/jobs/scheduler.rs:1179-1357 | the loop inserts the resolved form of every orphan |
| SchedulerObject.Scheduler.IsMutationInProgress | src/jobs/scheduler.rs:171-174 | true exactly while the slot is held |
| SchedulerLaws.OnlyTwoCallsStartJobs | src/jobs/scheduler.rs:733-762 | no call but acquisition and `update_job` makes a job Running |
| SchedulerLaws.RunningNeverExceedsLimit | src/jobs/scheduler.rs:712-731 | running jobs stay within `max_concurrent` after every sequence of calls of any clients, including `update_job`, recovery and history loading |
| SchedulerLaws.ForceCanRefuse | src/jobs/scheduler.rs:366-398 | exactly when a forced reboot request is refused although an unforced one is admitted |
| SchedulerLaws.OnlyOwnersFirstRollbackCounts | src/jobs/scheduler.rs:1726-1745 | any number of stale guard drops and repeated rollbacks in any order amount to the owner's first one |
| SchedulerLaws.RollbacksWithoutReservation | src/jobs/scheduler.rs:486-500 | without a reservation rollbacks change nothing |
| SchedulerAnswers.AdmissionIsExact | src/jobs/scheduler.rs:1899-1940 | each answer of the admission holds exactly under its condition on admission mode, reservations and unfinished real jobs; the new record is as specified |
| SchedulerAnswers.RollbackAdmissionIsExact | src/jobs/scheduler.rs:1392-1417 | the same for rollback jobs |
| SchedulerAnswers.SelfUpdateIsExact | src/jobs/scheduler.rs:237-310 | reserved if and only if open, unreserved, no real job unfinished, and the slot free or held by a bookkeeping job; which error otherwise |
| SchedulerAnswers.RebootIsExact | src/jobs/scheduler.rs:346-413 | admitted exactly in the three tiers of force and acknowledgement; which refusal otherwise |
| SchedulerAnswers.ReservationIsExact | src/jobs/scheduler.rs:413-446 | a reservation creates its job and fails exactly the other pending ones |
| SchedulerAnswers.DispatchIsExact | src/jobs/scheduler.rs:665-762 | rejected, with which reason, exactly under its condition; waiting exactly for a held slot or a full limit; acquired otherwise |
| SchedulerAnswers.FieldsChangeExactly | src/jobs/scheduler.rs:237-940 | which calls change admission, slot, generation and reservations, and how, and no others |
| SchedulerAnswers.JobsVanishExactly | src/jobs/scheduler.rs:1115-1140 | a job vanishes exactly by deletion when ended, or by the drop of a self-update's guard |
| SchedulerAnswers.StatusesChangeExactly | src/jobs/scheduler.rs:422-1110 | each status change of a known job, with the only calls and conditions that make it |
| TaskInvariant.StepKeeps | src/jobs/scheduler.rs:646-936 | every step of every task keeps the invariant of slot, reservations, queue and task positions |
| TaskInvariant.RunKeeps | src/jobs/scheduler.rs:646-936 | every state of every run satisfies the invariant, whatever history the process started from |
| TaskInvariant.InitInv | src/main.rs:282-307 | the state after startup from any history file satisfies the invariant |
| TaskInvariant.WatchdogOwnsSlot | src/jobs/scheduler.rs:821-828 | the ownership test of a live watchdog never fails |
| TaskInvariant.DroppedGuardIsStale | src/api/handlers/patches.rs:357-446 | the guard a patch task drops at its end has already been rolled back |
| TaskSteps.StepsAreCalls | src/api/handlers/patches.rs:209-467 | tasks change the scheduler only through its critical sections |
| TaskSteps.CallMovesForward | src/jobs/scheduler.rs:422-446 | no critical section moves a known job back in its life cycle, unless it acquires the slot for a finished or rebooting one |
| TaskSteps.CallUnderReservation | src/jobs/scheduler.rs:685-689 | under a reboot reservation no call adds a job or takes the slot, and only a rollback for the reserved job ends it |
| TaskSteps.CallUnderSelfUpdate | src/jobs/scheduler.rs:704-710 | under a self-update reservation only its owner takes the slot |
| TaskSteps.CallWhenFrozen | src/jobs/scheduler.rs:669-678 | while admission is frozen no call adds a job or takes the slot |
| TaskSteps.HistoryCounts | src/jobs/scheduler.rs:712-717 | the history counters count exactly the acquisitions that the missing check lets through |
| TaskSteps.AwaitingRebootIsFinal | src/api/handlers/patches.rs:395-419 | a task whose reboot command was accepted never moves again |
| TaskTheorems.SlotOwnership | src/jobs/scheduler.rs:733-828 | the watchdogs that have not finalized, with a task about to spawn one, are exactly the slot's holder under the current generation, across wrap-around; acquisitions and releases balance |
| TaskTheorems.EveryWatchdogReleases | src/jobs/scheduler.rs:813-828 | each watchdog finds that it still owns the slot and releases its acquisition, once |
| TaskTheorems.ClosuresAreExclusive | src/jobs/scheduler.rs:793-811 | at most one closure executes, plus one for every backstop that has elapsed; see TaskLimits for the exact condition |
| TaskTheorems.LifeCycle | src/jobs/manager.rs:183-224 | on a run jobs only move Pending, Running, Rebooting, finished, if and only if no acquisition finds its job finished or rebooting |
| TaskTheorems.HistoryIsExact | src/jobs/scheduler.rs:712-717 | the counters are zero exactly when every acquisition so far found its job Pending or Running, respectively present |
| TaskTheorems.CompletionTimesAreExact | src/jobs/manager.rs:190-224 | on a run the completion time is always set exactly on finished jobs, if and only if no acquisition finds its job finished or rebooting |
| TaskTheorems.NextStartIsProper | src/jobs/scheduler.rs:1387-1390 | what any run persists is a history the next process may start from: its finished jobs carry completion times |
| TaskTheorems.CapacityHolds | src/jobs/scheduler.rs:1914-1923 | on every run from any recovered history running jobs stay within their limit, and active real jobs exceed the queue depth by at most the number of revived jobs; see TaskLimits for the exact condition |
| TaskTheorems.RebootReservationIsExclusive | src/jobs/scheduler.rs:357-460 | while a reboot is reserved its job is Pending or Rebooting, no other job is Pending, no job appears, the slot is not taken, and only the reserving task's rollback ends it |
| TaskTheorems.SelfUpdateBarrier | src/jobs/scheduler.rs:243-325 | while a self-update is reserved the only active real jobs are its own and an acknowledged forced reboot, only it takes the slot, and another holder is internal |
| TaskTheorems.ForeignHolderIsOlder | src/jobs/scheduler.rs:256-275 | such a holder held the slot, by the same acquisition, when the self-update was reserved |
| TaskTheorems.NoUnacknowledgedRebootOverMutation | src/jobs/scheduler.rs:351-402 | from an admitted reboot without force and acknowledgement to its rollback no self-update is reserved and only a refresh may hold the slot, if and only if the holder was in the job map at admission |
| TaskTheorems.MissingHolderNeedsUncheckedAcquisition | src/jobs/scheduler.rs:712-717 | a holder is missing only after an acquisition that did not find its job |
| TaskTheorems.PatchOutcome | src/api/handlers/patches.rs:229-467 | a patch task ends with its job Completed or Failed, or Rebooting under its own reservation and reboot job |
| TaskTheorems.AwaitingRebootLasts | src/api/handlers/patches.rs:395-419 | and the latter lasts for the rest of the run |
| TaskTheorems.ReservationIsNeverLost | src/api/handlers/patches.rs:372-394 | the branch for a lost reservation is never taken, and a guard dropped late rolls nothing back |
| TaskTheorems.FreezeIsFinal | src/main.rs:782-816 | after the freeze no job appears and the slot is never taken again, so one negative answer about mutations stays true |
| TaskTheorems.ShutdownIsFinal | src/main.rs:782-816 | from the shutdown's call on, admission is frozen for good |
| TaskLimits.CallKeepsQueue | src/jobs/scheduler.rs:1914-1923 | among all calls of tasks exactly the acquisition for a finished real job with a full queue overfills it |
| TaskLimits.QueueNeverOverflows | src/jobs/scheduler.rs:712-762 | on a run the active real jobs never exceed the queue depth, if and only if no acquisition takes the slot for a finished real job while the queue is full |
| TaskLimits.ClosuresNeverOverlap | src/jobs/scheduler.rs:790-811 | on a run at most one closure ever executes, if and only if no watchdog is spawned while a detached closure executes |
| Waiters.StepKeepsWaker | src/jobs/scheduler.rs:726-739 | every step leaves something that wakes the waiters |
| Waiters.NoStrandedWaiter | src/jobs/scheduler.rs:665-739 | a dispatch never sleeps without a notified dispatch, a slot holder, or another task with a notifying step ahead, and no permit is stored meanwhile; one about to sleep has one of these or a stored permit |
| Waiters.NotificationsAreExact | src/jobs/scheduler.rs:446-940 | an action notifies exactly if it changed the scheduler, apart from the ends of jobs and watchdogs, which always do, and acquisitions and deletions, which never do |
| Outcomes.ResultDecides | src/api/handlers/packages.rs:315-326 | on every run, for every kind of task: after its closure succeeded a job never ends Failed unless its caller was dropped, after a failure or an elapsed backstop never Completed, and a task that is over left the status accordingly |
| Causes.StatusHasCause | src/api/handlers/patches.rs:230-446 | every new status of a job has its cause earlier on the run: Completed a successful exit of its own closure, Failed one of six, Rebooting a reboot that starts or a decision after a success, Running its own dispatch |
| Causes.SuccessfulCommandLasts | src/api/handlers/system.rs:362-390 | after a successful reboot command the reservation and its Rebooting job last |
| Causes.RollbackEndsReservation | src/api/handlers/patches.rs:405-425 | a rollback follows a failed command, ends the reservation and fails its job with the reason |
| Causes.EndedTasksAreTidy | src/api/handlers/system.rs:203-218 | a refresh that is over has removed its tracking job, a self-update has released its reservation |
| Progress.NobodyIsStuck | src/jobs/scheduler.rs:665-936 | in every reachable state each task that is neither over nor asleep, or its watchdog, can take a step |
| Progress.ResultCanBeRecorded | src/api/handlers/packages.rs:315-326 | after a closure's result at most twelve steps lead to the end of the task with the status that belongs to it |
| ExampleRuns.SecondInstallGetsItsTurn | src/jobs/scheduler.rs:733-739 | a run on which a second install sleeps behind the first, is woken by its finalization and acquires the slot |
| ExampleRuns.UpdateIsReservedDuringRefresh | src/jobs/scheduler.rs:254-270 | a run on which a self-update is reserved while a cache refresh holds the slot |
| Counterexamples.CancelledJobRunsAgain | src/jobs/scheduler.rs:712-717 | a run on which a failed job runs again with its completion time set |
| Counterexamples.UnforcedRebootOverInstall | src/jobs/scheduler.rs:372-379 | a run on which an unforced reboot is admitted while an install executes |
| Counterexamples.QueueOverflows | src/jobs/scheduler.rs:712-762 | a run with three active real jobs and a queue depth of two |
| Counterexamples.ClosuresOverlap | src/jobs/scheduler.rs:793-811 | a run on which a second closure starts while one whose backstop has elapsed still executes |
| Counterexamples.ForceIsRefusedDuringRefresh | src/jobs/scheduler.rs:366-398 | a run that reaches a cache refresh during which an unforced reboot is admitted and a forced unacknowledged one refused |
| Cancellation.CancellationIsSafe | src/jobs/scheduler.rs:637-660 | dropping a caller keeps the invariant about the slot and Running jobs if and only if it is not between acquisition and spawn and holds no delivered result for a job in the map |
| Cancellation.SlotIsLostForGood | src/jobs/scheduler.rs:783-788 | a caller dropped between acquisition and spawn loses the slot on every continuation |
| Cancellation.ReservationIsLostForGood | src/jobs/scheduler.rs:446-460 | a reboot request dropped before its task exists leaves the reservation on every continuation: no job is admitted and no slot acquired |
| Cancellation.ConsumedNotificationIsLost | src/jobs/scheduler.rs:726-739 | a caller dropped after its wake-up strands the others exactly when nothing else is left to wake them |
| Abandonment.OnlyRebootsEndIt | src/jobs/scheduler.rs:422-446 | a job without caller and watchdog keeps its record on every continuation, and ends if and only if it is Pending and a reboot is reserved |
| Abandonment.WaitingJobIsLeftForGood | src/jobs/scheduler.rs:646-739 | a caller dropped while waiting, or with a rejection, leaves its job Pending on every continuation without a reboot reservation: it counts against the queue, bars self-updates and unforced reboots, and cannot be deleted |
| Abandonment.JobRunsForGood | src/jobs/scheduler.rs:928-936 | a caller dropped with a delivered result leaves its job Running on every continuation |
| Abandonment.SelfUpdateIsLostForGood | src/jobs/scheduler.rs:691-710 | a self-update whose caller is dropped anywhere in its dispatch stays reserved on every continuation, and no mutation starts any more |
| Abandonment.DroppedJobCanEnd | src/jobs/scheduler.rs:637-645 | the job of a dropped caller can end without a reboot if and only if the caller awaited its watchdog or the job has ended already |
| Abandonment.CallerlessJobCanEnd | src/jobs/scheduler.rs:821-922 | any job without a caller, rollback jobs included, can end without a reboot if and only if it has ended or a watchdog is at work for it |
| FullQueue.CloggedForGood | src/jobs/scheduler.rs:1912-1923 | once abandoned jobs fill the queue, on every continuation they stay as they are, no job is added, nothing is reserved, and every request is refused |
| FullQueue.RollbackIsAbandoned | src/api/handlers/jobs.rs:230-256 | an admitted rollback of a real job has nobody to finish it |
| FullQueue.RollbacksCloseScheduler | src/jobs/scheduler.rs:1392-1417 | from any startup with a finished real job there is a run of as many rollback requests as the queue is deep after which every continuation refuses every request |
| Persistence.SelectForHistory | src/jobs/persistence.rs:90-116 | retain, sort and truncate yield the specified selection |
| Persistence.RetentionIsExact | src/jobs/persistence.rs:94-116 | exactly min(500, eligible) jobs are kept, all eligible and from the snapshot, each at least as new as every eligible one dropped |
| Persistence.NoActiveInternalJobs | src/jobs/persistence.rs:96-107 | no unfinished bookkeeping job reaches the file |
| Persistence.NewestFirstSorts | src/jobs/persistence.rs:109-112 | the sort by age orders and permutes |
| Persistence.NewestFirstIsStable | src/jobs/persistence.rs:109-112 | jobs created at the same time keep their order |
| Persistence.TempNamesAreUnique | src/jobs/persistence.rs:137-148 | temporary names coincide exactly for equal thread hash and counter, and never with the history file |
| Retention.ShortListsAreExact | src/jobs/persistence.rs:94-116 | of at most 500 jobs exactly those are written that are not unfinished bookkeeping |
| Retention.RestartFindsExactly | src/jobs/persistence.rs:94-116 | a restart finds min(500, written) jobs of a map of any size, each as its outcome, none older than a missing one |
| Retention.RebootingJobsComplete | src/jobs/scheduler.rs:1228-1250 | a Rebooting job that is no bookkeeping comes back Completed, unless 500 jobs at least as new take its place |
| Retention.RebootedJobsComplete | src/api/handlers/patches.rs:372-400 | after a successful reboot command, in every later state of the run, both the reboot's job and the patch job that asked for it come back so |
| Startup.LoadAndRecover | src/main.rs:282-307 | the startup loop and both loaders produce the specified job map, and ask for a write-back exactly if something was recovered |
| Boot.BootIsTotal | src/main.rs:282-307 | for every history file the job map holds exactly the persisted ids, all finished, each the outcome of a record under its id |
| Boot.BootPreserves | src/jobs/scheduler.rs:1179-1378 | with distinct ids finished jobs come back unchanged, unfinished ones resolved with operation, packages and creation time kept |
| Boot.LastRecordWins | src/jobs/scheduler.rs:1366-1379 | of several records with one id the last one is loaded |
| Boot.UnfinishedRecordsWin | src/main.rs:282-307 | an unfinished record is recovered even if a finished one has its id |
| Boot.RecoveryResolves | src/jobs/scheduler.rs:1186-1312 | Completed exactly for self-updates and rebooting jobs, Cancelled for bookkeeping, Failed otherwise with the code that tells restart from reboot |
| Boot.PersistBootIsIdempotent | src/jobs/scheduler.rs:1387-1390 | boot after persist after boot after persist equals boot after persist, for all job maps, listing orders, clocks and boot ids |
| Boot.RestartsAreStable | src/main.rs:296-304 | any number of restarts from a file of at most 500 jobs finds the outcomes of the first |
| Boot.RestartsStabilize | src/main.rs:282-307 | from the second startup on the job map is stable for every history file |
| CrashSafety.CrashLeavesAnImage | src/jobs/persistence.rs:118-135 | at every point of every interleaving of writers the history file is the pre-boot file or the complete image of an earlier job map |
| CrashSafety.PersistThenBoot | src/jobs/persistence.rs:90-116 | persisting a job map and starting again finds min(500, eligible) of its eligible jobs, each as its outcome, and none older than one that is missing |
| CrashSafety.CrashThenBoot | src/jobs/persistence.rs:158-205 | after a crash and a start the same holds with respect to one single earlier job map, of any size |
| HistoryOrder.NeverGoesBack | src/jobs/persistence.rs:83-90 | the file never returns to an older job map if and only if no writer renames a copy older than the file |
| HistoryOrder.SerialWritersNeverGoBack | src/jobs/scheduler.rs:1387-1390 | with one writer at a time it never does |
| HistoryWrites.WritesFollowChanges | src/jobs/scheduler.rs:446-1140 | exactly which calls go on to write: the ends of jobs always, six others if they took effect |
| HistoryWrites.AgentRunsAreDiskRuns | src/jobs/scheduler.rs:1378-1390 | the scheduler's calls and the writes they cause form a run of overlapping writers |
| HistoryWrites.PersistedCallsAreOnDisk | src/jobs/scheduler.rs:1378-1390 | if no write fails or goes back, and the counter of names has not wrapped, then once no write is due the file is the image of a job map at least as recent as every call that persists |
| CrashRuns.CompletedInstallIsReportedFailed | src/jobs/persistence.rs:83-90 | a run of calls and their writes on which the slow write of a deletion replaces that of a completed install, which is recovered as failed |
| CrashRuns.WrappedCounterTearsHistory | src/jobs/persistence.rs:137-148 | a run of calls and their writes on which the counter wraps, a slow deletion and a refresh share a name, and the history file is torn |
| AptObject.AptBackend.RunApt | src/packages/mod.rs:1014-1066 | the guarded command as specified; it keeps the command discipline, and success means a clean audit |
| AptObject.AptBackend.InstallPackages | src/packages/mod.rs:1314-1353 | the argument loop builds the specified command; success means a clean audit |
| AptObject.AptBackend.UpdatePackage | src/packages/mod.rs:1355-1360 | one guarded upgrade of one package |
| AptObject.AptBackend.RemovePackage | src/packages/mod.rs:1362-1373 | one guarded removal or purge |
| AptObject.AptBackend.ApplyPatches | src/packages/mod.rs:1420-1545 | all branches of repair, apply, held-package fallback and retry as specified |
| AptObject.AptBackend.RefreshPackageCache | src/packages/mod.rs:1572-1589 | one guarded `update` |
| AptObject.AptBackend.RepairPackageDatabase | src/packages/mod.rs:1595-1601 | configuration and audit |
| AptObject.AptBackend.PatchTransaction | src/api/handlers/patches.rs:230-261 | refresh, apply, and the same again after a fetch error |
| AptLaws.SingleCommandIsSafe | src/packages/mod.rs:1014-1066 | for every runner: each `apt-get` directly follows a successful configuration, a failed one is followed by another attempt at it; success means it was issued once, succeeded, and the last command was a clean audit |
| AptLaws.RepairIsSafe | src/packages/mod.rs:1595-1601 | a repair issues no `apt-get` and succeeds only with a clean audit |
| AptLaws.ApplyOkMeansApplied | src/packages/mod.rs:1420-1545 | applying succeeds only if its own command was the last `apt-get`, succeeded, and the audit is clean |
| AptLaws.HeldPackagesAreNeverSuccess | src/packages/mod.rs:1420-1545 | a run that issues `upgrade` fails, each `dist-upgrade` comes right after a successful repair, targeted applies issue neither, at most five commands |
| AptLaws.PatchOkMeansApplied | src/api/handlers/patches.rs:230-261 | a patch transaction succeeds only if its last `apt-get` is the requested command, successful, with a clean audit |
| AptRecovery.CommandIsExact | src/packages/mod.rs:1014-1066 | one guarded command step by step, and exactly when it succeeds |
| AptRecovery.ApplyIsExact | src/packages/mod.rs:1420-1545 | for every runner: after which failures, by the literal phrases in the lower-cased stderr, a repair and a repetition or the held-package fallback follow, and that nothing else does |
| AptRecovery.TroubleIsRepaired | src/packages/mod.rs:1503-1528 | a targeted apply that fails with one of the three dependency phrases succeeds if repair and repetition do |
| AptRecovery.TransactionIsExact | src/api/handlers/patches.rs:230-261 | a transaction is repeated exactly after an apply whose outermost message mentions one of the four phrases, and the repetition decides |
| AptRecovery.ArgumentsAreLiteral | src/packages/mod.rs:1314-1373 | the verb for each flag, the options, and the separator |
| AptRecovery.PinsAreExact | src/packages/mod.rs:1336-1345 | each requested package stands after the separator, pinned by `name=version` exactly if a version was given |
| FetchTexts.FixedMessagesAreHarmless | src/packages/mod.rs:948-1149 | none of the backend's fixed messages reads like a fetch error |
| FetchTexts.HeldMessage | src/packages/mod.rs:1142-1149 | the held-package failure reads like one exactly if the list of holds does |
| FetchTexts.DirtyMessage | src/packages/mod.rs:990-994 | the dirty-database failure reads like one exactly if the audit's listing does |
| AptRetries.ApplyTells | src/packages/mod.rs:1420-1545 | for all requests and runners, a failed apply is a fetch error exactly if a text read off its last commands and answers reads like one |
| AptRetries.RetryIsExact | src/api/handlers/patches.rs:243-259 | a patch transaction is retried if and only if its apply failed and left such a text |
| AptRetries.OnlyAuditsAreRetried | src/packages/coordinator.rs:257-270 | under a runner that reports every failure of `apt-get` as an error, a retried apply has ended with an audit: broken, dirty, or clean after the held-package fallback |
| RetryWitnesses.HeldNameTriggersRetry | src/packages/mod.rs:1142-1149 | a runner under which applying everything is retried because of a held package's name |
| RetryWitnesses.MissingPackageIsNotRetried | src/packages/cache.rs:237-243 | a runner under which a "404 not found" of `dist-upgrade` is not retried |
| AptLaws.NamesFollowTheSeparator | src/packages/mod.rs:1334-1345 | in installs, updates, removals and targeted applies package names stand only after `--`; signature checks are disabled only on request |
| Quoting.FormatCommand | src/packages/error_utils.rs:394-415 | the loop renders the command so that reading it by shell rules yields the program and the non-empty arguments |
| Quoting.QuotesOnlyWhereNeeded | src/packages/error_utils.rs:398-410 | an argument is quoted exactly if it has white space or one of ten characters |
| Quoting.SplitUndoesRendering | src/packages/error_utils.rs:394-415 | reading a rendering yields the program and exactly the non-empty arguments, in order |
| Quoting.RoundTrip | src/packages/error_utils.rs:394-415 | the rendering round-trips if and only if no argument is empty |
| Quoting.RenderingIsInjective | src/packages/error_utils.rs:394-415 | different commands without empty arguments render differently |
| Quoting.EmptyArgumentIsLost | src/packages/error_utils.rs:394-415 | a concrete command that does not round-trip |
| Serial.ValueUndoesSerialHex | src/auth/crl.rs:123-126 | a serial of any size is formatted canonically and can be read back |
| Serial.SerialHexUndoesValue | src/auth/crl.rs:123-126 | every canonical text is the format of the number it denotes |
| Serial.RevocationIsExact | src/auth/crl.rs:248-252 | a serial is found revoked if and only if it is on the list |
| Serial.LookupNeedsCanonicalText | src/auth/crl.rs:74-76 | an arbitrary text is found exactly if it is the canonical form of a revoked serial |
| Cidr.SubnetIsQuotient | src/auth/whitelist.rs:412-422 | for prefixes 0 to 32 the mask test is equality of quotients by the block size |
| Cidr.SubnetIsBlock | src/auth/whitelist.rs:412-422 | a subnet is one aligned block of addresses |
| Cidr.SubnetsNest | src/auth/whitelist.rs:412-422 | a longer prefix is wholly contained in a shorter one or disjoint from it |
| Cidr.MaskIsLeadingOnes | src/auth/whitelist.rs:415-419 | the shifted 32-bit word has exactly the leading ones of the prefix |
| Cidr.IsAllowed | src/auth/whitelist.rs:253-277 | the loop allows an address exactly if some entry's address or block contains it |
| Cidr.ContainerBridgeIsSubnet | src/enroll/identity.rs:187-192 | the octet test is membership in 172.16.0.0/12 |
| Cidr.LinkLocalIsSubnet | src/enroll/identity.rs:198-201 | the octet test is membership in 169.254.0.0/16 |

## Left out

- TaskTheorems.CapacityHolds: does not cover `update_job`, which no handler calls and which sets any status; SchedulerLaws.RunningNeverExceedsLimit does for running jobs.
- TaskInvariant.RunKeeps: a history file that a process starts from is assumed to give finished jobs a completion time; TaskTheorems.NextStartIsProper shows that the files of these processes do, and other sources of history files are not considered.
- TaskTheorems.PatchOutcome: says nothing about the job record once a user has deleted the job.
- CrashSafety.CrashLeavesAnImage: assumes that renaming is atomic and completed writes are durable; its bound on the counter of temporary names is exact (CrashRuns.WrappedCounterTearsHistory).
- Boot.RestartsAreStable: covers files of at most 500 jobs, as the writers produce; Boot.RestartsStabilize covers the others from the second startup on.
- Quoting.SplitUndoesRendering: the reader covers quoting, escapes, blanks and the quoted operators of section 2.2 of the POSIX Shell Command Language; parentheses, globs, comments and tildes, which the renderer does not quote, are ordinary characters to it, and the program must be a plain word, since it is never quoted.
- AptObject.AptBackend.PatchTransaction: the package cache's own status record is not part of the state.
- Text.Lower: maps ASCII letters only.
- Messages, log lines, progress texts, events and captured command output of jobs; `updated_at`.
- The closure passed to a dispatch is opaque to the concurrent model: it ends with success or failure at any time, or outlives its backstop. That the backstop exceeds what APT may take is not claimed.
- The order in which sleeping dispatches are woken: any of them may be.
- A dropped caller is a step of the concurrent model only where it breaks no part of the invariant, which says nothing of Pending jobs; Cancellation treats the other points, and Abandonment the jobs that stay behind everywhere but in flight.
- Abandonment.DroppedJobCanEnd: says that a job can end, not that it does; that a closure exits or its backstop elapses is not claimed.
- HistoryWrites.PersistedCallsAreOnDisk: startups that recover something, and so write themselves before the first request, are not among its runs, nor is a user's deletion of a job whose own write is still due.
- A crash in the middle of a run of tasks is not a step of that model; CrashSafety and Boot treat crashes over arbitrary histories of the job map.
- APIs compiled only for tests, and `wait_for_notify` and `notify_waiters`, which no handler calls.
- Removal of stale lock files before dpkg commands, poisoning of the APT mutex, and the process-wide serialization that this mutex provides.
- Process spawning, time limits, signals and draining of pipes: the runner's answers are arbitrary.
- The heuristics that derive error codes, severities and reboot requirements from text; the decision to reboot after patching is a free choice of the environment.
- The migration of the legacy history file, and files that cannot be read or parsed, which count as empty.
- The other package managers, package list parsing, rate limiting, TLS, certificate and signature checks, configuration and whitelist file parsing, name resolution, enrollment and provisioning.
