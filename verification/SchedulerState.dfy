/**
 * The scheduler's state and its locked sections (`src/jobs/scheduler.rs`) as
 * total functions on values.  Every function is one critical section of the
 * scheduler mutex: nothing else can observe its intermediate states.  The
 * class in Scheduler.dfy implements them in place.
 *
 * Fresh job ids, clocks and boot ids are parameters.  Whether a section wakes
 * a waiter is not part of this state; see Tasks.dfy.
 */
module SchedulerState {
  import opened Wrappers
  import opened Jobs

  datatype AdmissionMode = Open | Frozen | Recovery

  datatype SchedState = SchedState(
    admission: AdmissionMode,
    jobs: map<Id, Job>,
    slot: Option<Id>,
    generation: nat,
    selfUpdate: Option<Id>,
    rebootPending: Option<Id>,
    maxConcurrent: nat,
    maxQueueDepth: nat)

  /** The generation counter is a wrapping 64-bit integer. */
  const GENERATIONS := 0x1_0000_0000_0000_0000

  datatype JobAdmissionError = SelfUpdateInProgress | QueueFull | AdmissionFrozen

  datatype SelfUpdateAdmissionError =
    | AlreadyInProgress
    | BlockedByJobs(count: nat)
    | UpdateQueueFull

  datatype RebootAdmissionError =
    | RebootSelfUpdateInProgress
    | PackageMutationInProgress
    | JobsInProgress(active: nat)
    | RebootQueueFull
    | AdmissionClosed

  function RunningIds(jobs: map<Id, Job>): set<Id> {
    set k | k in jobs && jobs[k].status == Running
  }

  function ActiveRealIds(jobs: map<Id, Job>): set<Id> {
    set k | k in jobs && jobs[k].IsActiveReal()
  }

  function Max1(n: nat): nat {
    if n == 0 then 1 else n
  }

  function NewScheduler(maxConcurrent: nat, maxQueueDepth: nat): SchedState {
    SchedState(Open, map[], None, 0, None, None, Max1(maxConcurrent), Max1(maxQueueDepth))
  }

  // ---------------------------------------------------------------- admission

  function AdmitJob(s: SchedState, id: Id, op: JobOperation, packages: seq<string>, now: Time, boot: Option<string>)
    : (SchedState, Result<Id, JobAdmissionError>)
  {
    if s.admission != Open then (s, Err(AdmissionFrozen))
    else if s.selfUpdate.Some? then (s, Err(SelfUpdateInProgress))
    else if s.rebootPending.Some? then (s, Err(AdmissionFrozen))
    else if |ActiveRealIds(s.jobs)| >= s.maxQueueDepth then (s, Err(QueueFull))
    else (s.(jobs := s.jobs[id := NewJob(id, op, packages, now, boot)]), Ok(id))
  }

  /** `create_rollback_job`: no job is started for the admitted rollback. */
  function CreateRollbackJob(s: SchedState, original: Id, id: Id, now: Time, boot: Option<string>)
    : (SchedState, Result<Option<Id>, JobAdmissionError>)
  {
    if original !in s.jobs || s.jobs[original].status !in {Failed, Completed} then (s, Ok(None))
    else
      var (s', r) := AdmitJob(s, id, Rollback, s.jobs[original].packages, now, boot);
      match r
      case Err(e) => (s', Err(e))
      case Ok(_) =>
        if id !in s'.jobs then (s', Ok(Some(id)))
        else (s'.(jobs := s'.jobs[id := s'.jobs[id].(exclusive := true, rollbackOf := Some(original))]), Ok(Some(id)))
  }

  function TryReserveSelfUpdate(s: SchedState, id: Id, packages: seq<string>, now: Time, boot: Option<string>)
    : (SchedState, Result<Id, SelfUpdateAdmissionError>)
  {
    if s.admission != Open || s.selfUpdate.Some? || s.rebootPending.Some? then (s, Err(AlreadyInProgress))
    else if s.slot.Some? && !(s.slot.value in s.jobs && s.jobs[s.slot.value].IsInternal()) then
      (s, Err(BlockedByJobs(1)))
    else if |ActiveRealIds(s.jobs)| > 0 then (s, Err(BlockedByJobs(|ActiveRealIds(s.jobs)|)))
    else if s.maxQueueDepth == 0 then (s, Err(UpdateQueueFull))
    else
      (s.(selfUpdate := Some(id), jobs := s.jobs[id := NewJob(id, SelfUpdate, packages, now, boot)]), Ok(id))
  }

  function ReleaseSelfUpdate(s: SchedState, id: Id): (SchedState, bool) {
    if s.selfUpdate == Some(id) then (s.(selfUpdate := None), true) else (s, false)
  }

  /** Body of the task spawned when an uncommitted self-update guard is dropped. */
  function DropSelfUpdateGuard(s: SchedState, id: Id): SchedState {
    s.(selfUpdate := if s.selfUpdate == Some(id) then None else s.selfUpdate,
       jobs := s.jobs - {id})
  }

  // ------------------------------------------------------------------- reboot

  const CANCELLED_BY_REBOOT := "Cancelled: reboot reservation in progress"

  /** Every pending job except `owner` fails; all other jobs stay as they are. */
  function FailPending(jobs: map<Id, Job>, owner: Id, now: Time): map<Id, Job> {
    map k | k in jobs ::
      if k != owner && jobs[k].status == Pending then jobs[k].Fail(CANCELLED_BY_REBOOT, now) else jobs[k]
  }

  /** Why a reboot would be refused, if at all. */
  function RebootRefusal(s: SchedState, force: bool, ack: bool): Option<RebootAdmissionError> {
    var active := |ActiveRealIds(s.jobs)|;
    if s.admission != Open then Some(AdmissionClosed)
    else if s.rebootPending.Some? then Some(JobsInProgress(1))
    else if !force && s.selfUpdate.Some? then Some(RebootSelfUpdateInProgress)
    else if !force && active > 0 then Some(JobsInProgress(active))
    else if force && !ack && s.selfUpdate.Some? then Some(RebootSelfUpdateInProgress)
    else if force && !ack && s.slot.Some? then Some(PackageMutationInProgress)
    else if active >= s.maxQueueDepth then Some(RebootQueueFull)
    else None
  }

  function ReserveReboot(s: SchedState, id: Id, force: bool, ack: bool, now: Time, boot: Option<string>)
    : (SchedState, Result<Id, RebootAdmissionError>)
  {
    match RebootRefusal(s, force, ack)
    case Some(e) => (s, Err(e))
    case None =>
      var jobs := s.jobs[id := NewJob(id, Reboot, [], now, boot)];
      (s.(rebootPending := Some(id), jobs := FailPending(jobs, id, now)), Ok(id))
  }

  function RollbackReboot(s: SchedState, id: Id, error: Option<string>, now: Time): (SchedState, bool) {
    if s.rebootPending != Some(id) then (s, false)
    else
      var s' := s.(rebootPending := None);
      if id !in s.jobs then (s', true)
      else
        var job := match error
          case Some(reason) => s.jobs[id].Fail(reason, now)
          case None => s.jobs[id].(status := Cancelled, completedAt := Some(now));
        (s'.(jobs := s.jobs[id := job]), true)
  }

  function BeginRebootExecution(s: SchedState, id: Id): (SchedState, bool) {
    if s.rebootPending == Some(id) && id in s.jobs && s.jobs[id].status == Pending
    then (s.(jobs := s.jobs[id := s.jobs[id].(status := Rebooting)]), true)
    else (s, false)
  }

  function SetJobRebooting(s: SchedState, id: Id): (SchedState, bool) {
    if id in s.jobs && s.jobs[id].status == Running
    then (s.(jobs := s.jobs[id := s.jobs[id].SetRebooting()]), true)
    else (s, false)
  }

  // ----------------------------------------------------------------- dispatch

  datatype Rejection = FrozenAdmission | RecoveryMode | RebootReserved | SelfUpdateConflict

  datatype DispatchOutcome =
    | Rejected(reason: Rejection)
    | Wait
    | Acquired(generation: nat)

  function DispatchRefusal(s: SchedState, id: Id): Option<Rejection> {
    if s.admission == Frozen then Some(FrozenAdmission)
    else if s.admission == Recovery then Some(RecoveryMode)
    else if s.rebootPending.Some? then Some(RebootReserved)
    else if s.selfUpdate.Some? && s.selfUpdate.value != id then Some(SelfUpdateConflict)
    else None
  }

  /**
   * One turn of the `'wait` loop of `dispatch_mutation`.  As in the source, the
   * job's presence and status are not checked beyond "already Running".
   */
  function TryAcquire(s: SchedState, id: Id): (SchedState, DispatchOutcome) {
    match DispatchRefusal(s, id)
    case Some(reason) => (s, Rejected(reason))
    case None =>
      var alreadyRunning := id in s.jobs && s.jobs[id].status == Running;
      if !alreadyRunning && |RunningIds(s.jobs)| >= s.maxConcurrent then (s, Wait)
      else if s.slot.Some? then (s, Wait)
      else
        var generation := (s.generation + 1) % GENERATIONS;
        var jobs := if id in s.jobs then s.jobs[id := s.jobs[id].(status := Running)] else s.jobs;
        (s.(slot := Some(id), generation := generation, jobs := jobs), Acquired(generation))
  }

  /** The condition the loop's comment states ("Job must exist and be Pending") or its job already runs. */
  predicate Dispatchable(s: SchedState, id: Id) {
    id in s.jobs && s.jobs[id].status in {Pending, Running}
  }

  predicate StillOwns(s: SchedState, id: Id, generation: nat) {
    s.slot == Some(id) && s.generation == generation
  }

  const CANCELLED_OK := "Caller cancelled after mutation completed — result could not be delivered"
  const CANCELLED_ERR := "Caller cancelled with underlying error"

  /** The watchdog's final critical section. */
  function Finalize(s: SchedState, id: Id, generation: nat, callerAlive: bool, ok: bool, now: Time): SchedState {
    if !StillOwns(s, id, generation) then s
    else
      var s' := s.(slot := None);
      if !callerAlive && id in s.jobs && s.jobs[id].status in {Running, Pending}
      then s'.(jobs := s.jobs[id := s.jobs[id].Fail(if ok then CANCELLED_OK else CANCELLED_ERR, now)])
      else s'
  }

  // ---------------------------------------------------------------- lifecycle

  function FreezeAdmission(s: SchedState): SchedState {
    s.(admission := Frozen)
  }

  function CompleteJob(s: SchedState, id: Id, now: Time): SchedState {
    if id in s.jobs then s.(jobs := s.jobs[id := s.jobs[id].Complete(now)]) else s
  }

  function FailJob(s: SchedState, id: Id, reason: string, now: Time): SchedState {
    if id in s.jobs then s.(jobs := s.jobs[id := s.jobs[id].Fail(reason, now)]) else s
  }

  function FailJobWithDiagnostics(s: SchedState, id: Id, reason: string, code: string, now: Time): SchedState {
    if id in s.jobs
    then s.(jobs := s.jobs[id := s.jobs[id].Fail(reason, now).(errorCode := Some(code))])
    else s
  }

  function DeleteJob(s: SchedState, id: Id): (SchedState, bool) {
    if id in s.jobs && s.jobs[id].status.IsTerminal() then (s.(jobs := s.jobs - {id}), true) else (s, false)
  }

  /** `update_job`: the only transition that can set any status; no handler calls it. */
  function UpdateJob(s: SchedState, id: Id, status: JobStatus, progress: Option<nat>): (SchedState, bool) {
    var alreadyRunning := id in s.jobs && s.jobs[id].status == Running;
    if status in {Running, Rebooting} && !alreadyRunning && |RunningIds(s.jobs)| >= s.maxConcurrent then (s, false)
    else if id !in s.jobs then (s, true)
    else
      var job := s.jobs[id].(status := status,
                             progress := if progress.Some? then progress.value else s.jobs[id].progress);
      (s.(jobs := s.jobs[id := job]), true)
  }

  // ------------------------------------------------------------------ startup

  const AGENT_RESTARTED := "AGENT_RESTARTED"
  const AGENT_REBOOTED := "AGENT_REBOOTED"
  const ERROR_RESTARTED := "Agent process restarted during job execution (not a reboot)"
  const ERROR_REBOOTED := "Agent rebooted during job execution"

  /** The record orphan recovery substitutes for one non-terminal job. */
  function Recovered(orphan: Job, now: Time, boot: Option<string>): Job {
    var base := orphan.(completedAt := Some(now), error := None, errorCode := None,
                        rollbackOf := None, exclusive := false);
    if orphan.operation == SelfUpdate then base.(status := Completed, progress := 100)
    else if orphan.status == Rebooting then
      base.(status := Completed, progress := 100, rollbackOf := orphan.rollbackOf, exclusive := orphan.exclusive)
    else if orphan.IsInternal() then base.(status := Cancelled, progress := 0)
    else if orphan.bootId.Some? && boot.Some? && orphan.bootId == boot then
      base.(status := Failed, progress := 0, error := Some(ERROR_RESTARTED), errorCode := Some(AGENT_RESTARTED))
    else
      base.(status := Failed, progress := 0, error := Some(ERROR_REBOOTED), errorCode := Some(AGENT_REBOOTED))
  }

  /** Insert jobs one after the other; a later entry with the same id wins. */
  function InsertAll(jobs: map<Id, Job>, extra: seq<Job>): map<Id, Job>
    decreases |extra|
  {
    if extra == [] then jobs
    else
      var last := extra[|extra| - 1];
      InsertAll(jobs, extra[..|extra| - 1])[last.id := last]
  }

  /** Recovery reads the clock once per orphan: `clock(i)` is the reading for the i-th. */
  function RecoverAll(orphans: seq<Job>, clock: nat -> Time, boot: Option<string>): (out: seq<Job>)
    ensures |out| == |orphans|
    ensures forall i :: 0 <= i < |orphans| ==> out[i] == Recovered(orphans[i], clock(i), boot)
  {
    seq(|orphans|, i requires 0 <= i < |orphans| => Recovered(orphans[i], clock(i), boot))
  }

  function LoadHistory(s: SchedState, history: seq<Job>): SchedState {
    s.(jobs := InsertAll(s.jobs, history))
  }

  function RecoverOrphanedJobs(s: SchedState, orphans: seq<Job>, clock: nat -> Time, boot: Option<string>): SchedState {
    s.(jobs := InsertAll(s.jobs, RecoverAll(orphans, clock, boot)))
  }
}
