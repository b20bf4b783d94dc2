/**
 * What the scheduler answers, and what a call changes, read off the state's
 * fields: statuses, names and numbers are written out here, and nothing rests
 * on the tests that the critical sections themselves use.
 */
module SchedulerAnswers {
  import opened Wrappers
  import opened Jobs
  import opened SchedulerState
  import opened SchedulerLaws

  predicate Unfinished(status: JobStatus) {
    status == Pending || status == Running || status == Rebooting
  }

  predicate Ended(status: JobStatus) {
    status == Completed || status == Failed || status == Cancelled || status == TimedOut
  }

  /** Some name begins and ends with two underscores. */
  ghost predicate NamesBookkeeping(packages: seq<string>) {
    exists p :: p in packages
      && |p| >= 2 && p[0] == '_' && p[1] == '_' && p[|p| - 2] == '_' && p[|p| - 1] == '_'
  }

  lemma SentinelIsLiteral(packages: seq<string>)
    ensures HasSentinel(packages) <==> NamesBookkeeping(packages)
  {
    forall p | p in packages
      ensures StartsWith(p, "__") && EndsWith(p, "__") <==>
              |p| >= 2 && p[0] == '_' && p[1] == '_' && p[|p| - 2] == '_' && p[|p| - 1] == '_'
    {
      if |p| >= 2 {
        assert p[..2] == [p[0], p[1]] && p[|p| - 2..] == [p[|p| - 2], p[|p| - 1]];
        assert "__" == ['_', '_'];
      }
    }
  }

  /** The jobs that count against the queue. */
  ghost function Busy(jobs: map<Id, Job>): set<Id> {
    set k | k in jobs && Unfinished(jobs[k].status) && !NamesBookkeeping(jobs[k].packages)
  }

  ghost function InProgress(jobs: map<Id, Job>): set<Id> {
    set k | k in jobs && jobs[k].status == Running
  }

  lemma BusyIsActive(jobs: map<Id, Job>)
    ensures ActiveRealIds(jobs) == Busy(jobs) && RunningIds(jobs) == InProgress(jobs)
  {
    forall k | k in jobs
      ensures jobs[k].IsActiveReal() <==> Unfinished(jobs[k].status) && !NamesBookkeeping(jobs[k].packages)
    {
      SentinelIsLiteral(jobs[k].packages);
    }
  }

  /** The record of a job that has just been created. */
  function Fresh(id: Id, op: JobOperation, packages: seq<string>, now: Time, boot: Option<string>): Job {
    Job(id, Pending, op, packages, now, None, 0, None, None, None, false, boot)
  }

  // --------------------------------------------------------------- admission

  /** A job is admitted exactly if admission is open, nothing is reserved and the queue has room. */
  lemma AdmissionIsExact(s: SchedState, id: Id, op: JobOperation, packages: seq<string>, now: Time,
                         boot: Option<string>)
    ensures
      var (s', r) := AdmitJob(s, id, op, packages, now, boot);
      && (r == Err(AdmissionFrozen) <==> s.admission != Open || (s.selfUpdate.None? && s.rebootPending.Some?))
      && (r == Err(SelfUpdateInProgress) <==> s.admission == Open && s.selfUpdate.Some?)
      && (r == Err(QueueFull) <==>
            s.admission == Open && s.selfUpdate.None? && s.rebootPending.None? && |Busy(s.jobs)| >= s.maxQueueDepth)
      && (r == Ok(id) <==>
            s.admission == Open && s.selfUpdate.None? && s.rebootPending.None? && |Busy(s.jobs)| < s.maxQueueDepth)
      && s' == if r.Ok? then s.(jobs := s.jobs[id := Fresh(id, op, packages, now, boot)]) else s
  {
    BusyIsActive(s.jobs);
    hide ActiveRealIds, Busy;
  }

  /** A rollback job is admitted under the same conditions, for a job that ended Failed or Completed. */
  lemma RollbackAdmissionIsExact(s: SchedState, original: Id, id: Id, now: Time, boot: Option<string>)
    ensures
      var (s', r) := CreateRollbackJob(s, original, id, now, boot);
      var eligible := original in s.jobs && (s.jobs[original].status == Failed || s.jobs[original].status == Completed);
      && (r == Ok(None) <==> !eligible)
      && (r == Ok(Some(id)) <==>
            eligible && s.admission == Open && s.selfUpdate.None? && s.rebootPending.None?
            && |Busy(s.jobs)| < s.maxQueueDepth)
      && (r.Err? ==> r.error == (if s.admission == Open && s.selfUpdate.Some? then SelfUpdateInProgress
                                 else if s.admission == Open && s.rebootPending.None? then QueueFull
                                 else AdmissionFrozen))
      && (r == Ok(Some(id)) ==>
            s' == s.(jobs := s.jobs[id := Fresh(id, Rollback, s.jobs[original].packages, now, boot)
                                          .(exclusive := true, rollbackOf := Some(original))]))
      && (r != Ok(Some(id)) ==> s' == s)
  {
    BusyIsActive(s.jobs);
    hide ActiveRealIds, Busy;
  }

  /**
   * A self-update is reserved exactly if admission is open, nothing is
   * reserved, no real job is unfinished, and the slot is free or held by a
   * bookkeeping job; the limit on the queue is at least one since startup.
   */
  lemma SelfUpdateIsExact(s: SchedState, id: Id, packages: seq<string>, now: Time, boot: Option<string>)
    requires s.maxQueueDepth >= 1
    ensures
      var (s', r) := TryReserveSelfUpdate(s, id, packages, now, boot);
      var closed := s.admission != Open || s.selfUpdate.Some? || s.rebootPending.Some?;
      var foreign := s.slot.Some?
                     && !(s.slot.value in s.jobs && NamesBookkeeping(s.jobs[s.slot.value].packages));
      && (r == Ok(id) <==> !closed && !foreign && Busy(s.jobs) == {})
      && (r == Err(AlreadyInProgress) <==> closed)
      && (!closed && foreign ==> r == Err(BlockedByJobs(1)))
      && (!closed && !foreign && Busy(s.jobs) != {} ==> r == Err(BlockedByJobs(|Busy(s.jobs)|)))
      && s' == if r.Ok? then s.(selfUpdate := Some(id), jobs := s.jobs[id := Fresh(id, SelfUpdate, packages, now, boot)])
               else s
  {
    BusyIsActive(s.jobs);
    if s.slot.Some? && s.slot.value in s.jobs {
      SentinelIsLiteral(s.jobs[s.slot.value].packages);
    }
    hide ActiveRealIds, Busy, NamesBookkeeping, HasSentinel;
  }

  // ------------------------------------------------------------------ reboot

  /**
   * A reboot is admitted exactly if admission is open, none is reserved, the
   * queue has room, and: with force and acknowledgement, nothing else; with
   * force alone, no self-update and a free slot; without force, no self-update
   * and no unfinished real job.
   */
  lemma RebootIsExact(s: SchedState, force: bool, ack: bool)
    ensures
      var r := RebootRefusal(s, force, ack);
      var room := |Busy(s.jobs)| < s.maxQueueDepth;
      && (r == None <==>
            && s.admission == Open && s.rebootPending.None? && room
            && ((force && ack)
                || (force && s.selfUpdate.None? && s.slot.None?)
                || (!force && s.selfUpdate.None? && Busy(s.jobs) == {})))
      && (r == Some(AdmissionClosed) <==> s.admission != Open)
      && (s.admission == Open && s.rebootPending.Some? ==> r == Some(JobsInProgress(1)))
      && (r == Some(RebootSelfUpdateInProgress) <==>
            s.admission == Open && s.rebootPending.None? && s.selfUpdate.Some? && !(force && ack))
      && (s.admission == Open && s.rebootPending.None? && s.selfUpdate.None? ==>
            if !force && Busy(s.jobs) != {} then r == Some(JobsInProgress(|Busy(s.jobs)|))
            else if force && !ack && s.slot.Some? then r == Some(PackageMutationInProgress)
            else r == if room then None else Some(RebootQueueFull))
      && (s.admission == Open && s.rebootPending.None? && force && ack ==> r == if room then None else Some(RebootQueueFull))
  {
    BusyIsActive(s.jobs);
    hide ActiveRealIds, Busy;
  }

  /** Reserving a reboot creates its job, and fails every other pending job and no other. */
  lemma ReservationIsExact(s: SchedState, id: Id, force: bool, ack: bool, now: Time, boot: Option<string>, k: Id)
    ensures
      var (s', r) := ReserveReboot(s, id, force, ack, now, boot);
      && (r.Ok? <==> RebootRefusal(s, force, ack) == None)
      && (r.Err? ==> s' == s && RebootRefusal(s, force, ack) == Some(r.error))
      && (r.Ok? ==>
            && r.value == id && s' == s.(rebootPending := Some(id), jobs := s'.jobs)
            && (k in s'.jobs <==> k == id || k in s.jobs)
            && id in s'.jobs && s'.jobs[id] == Fresh(id, Reboot, [], now, boot)
            && (k in s.jobs && k != id ==>
                  s'.jobs[k] == if s.jobs[k].status == Pending
                                then s.jobs[k].(status := Failed, completedAt := Some(now),
                                                error := Some("Cancelled: reboot reservation in progress"))
                                else s.jobs[k]))
  {
    hide RebootRefusal;
  }

  // ---------------------------------------------------------------- dispatch

  /** The answer of one turn of the wait loop, and the state after an acquisition. */
  lemma DispatchIsExact(s: SchedState, id: Id)
    ensures
      var (s', r) := TryAcquire(s, id);
      var foreign := s.selfUpdate.Some? && s.selfUpdate != Some(id);
      var free := s.admission == Open && s.rebootPending.None? && !foreign;
      var full := !(id in s.jobs && s.jobs[id].status == Running) && |InProgress(s.jobs)| >= s.maxConcurrent;
      && (r == Rejected(FrozenAdmission) <==> s.admission == Frozen)
      && (r == Rejected(RecoveryMode) <==> s.admission == Recovery)
      && (r == Rejected(RebootReserved) <==> s.admission == Open && s.rebootPending.Some?)
      && (r == Rejected(SelfUpdateConflict) <==> s.admission == Open && s.rebootPending.None? && foreign)
      && (r.Rejected? <==> !free)
      && (r.Wait? <==> free && (s.slot.Some? || full))
      && (r.Acquired? <==> free && s.slot.None? && !full)
      && (r.Acquired? ==>
            && r.generation == (s.generation + 1) % 0x1_0000_0000_0000_0000
            && s' == s.(slot := Some(id), generation := r.generation, jobs := s'.jobs)
            && s'.jobs.Keys == s.jobs.Keys
            && (forall k :: k in s.jobs ==>
                  s'.jobs[k] == if k == id then s.jobs[k].(status := Running) else s.jobs[k]))
      && (!r.Acquired? ==> s' == s)
  {
    BusyIsActive(s.jobs);
    hide RunningIds, InProgress;
  }

  // ---------------------------------------------------- what a call changes

  /** The call reserves a reboot. */
  predicate Reserves(s: SchedState, c: Call) {
    c.CallReserveReboot? && RebootRefusal(s, c.force, c.ack) == None
  }

  /** The watchdog of `c` still owns the slot. */
  predicate Owns(s: SchedState, c: Call)
    requires c.CallFinalize?
  {
    s.slot == Some(c.id) && s.generation == c.generation
  }

  /**
   * Who changes admission, the slot and the two reservations, and how.  Loading
   * and recovery at startup are not among the calls.
   */
  lemma FieldsChangeExactly(s: SchedState, c: Call)
    ensures
      var s' := Exec(s, c);
      && s'.maxConcurrent == s.maxConcurrent && s'.maxQueueDepth == s.maxQueueDepth
      && s'.admission == (if c.CallFreeze? then Frozen else s.admission)
      && s'.slot == (if c.CallTryAcquire? && TryAcquire(s, c.id).1.Acquired? then Some(c.id)
                     else if c.CallFinalize? && Owns(s, c) then None
                     else s.slot)
      && (s'.generation != s.generation ==> c.CallTryAcquire? && TryAcquire(s, c.id).1.Acquired?)
      && s'.selfUpdate == (if c.CallReserveSelfUpdate?
                              && TryReserveSelfUpdate(s, c.id, c.packages, c.now, c.boot).1.Ok? then Some(c.id)
                           else if (c.CallReleaseSelfUpdate? || c.CallDropSelfUpdateGuard?) && s.selfUpdate == Some(c.id)
                           then None
                           else s.selfUpdate)
      && s'.rebootPending == (if Reserves(s, c) then Some(c.id)
                              else if c.CallRollbackReboot? && s.rebootPending == Some(c.id) then None
                              else s.rebootPending)
  {
    hide RebootRefusal, FailPending, InsertAll, RecoverAll, RunningIds, ActiveRealIds;
  }

  predicate Runs(c: Call) {
    !c.CallLoadHistory? && !c.CallRecover?
  }

  /** The calls that remove job `k`: a deletion of a finished job, and the drop of a self-update's guard. */
  lemma JobsVanishExactly(s: SchedState, c: Call, k: Id)
    requires Runs(c) && k in s.jobs
    ensures k !in Exec(s, c).jobs <==>
            (c == CallDelete(k) && Ended(s.jobs[k].status)) || c == CallDropSelfUpdateGuard(k)
  {
  }

  /**
   * The status of a known job after a call: each change is listed with the only
   * calls and conditions that make it, everything else leaves the record alone.
   */
  ghost function StatusAfter(s: SchedState, c: Call, k: Id): JobStatus
    requires k in s.jobs
  {
    var status := s.jobs[k].status;
    match c
    case CallComplete(id, _) => if id == k then Completed else status
    case CallFail(id, _, _) => if id == k then Failed else status
    case CallFailWithDiagnostics(id, _, _, _) => if id == k then Failed else status
    case CallSetRebooting(id) => if id == k && status == Running then Rebooting else status
    case CallBeginReboot(id) =>
      if id == k && s.rebootPending == Some(k) && status == Pending then Rebooting else status
    case CallRollbackReboot(id, error, _) =>
      if id == k && s.rebootPending == Some(k) then (if error.Some? then Failed else Cancelled) else status
    case CallReserveReboot(_, _, _, _, _) => if Reserves(s, c) && status == Pending then Failed else status
    case CallTryAcquire(id) => if id == k && TryAcquire(s, id).1.Acquired? then Running else status
    case CallFinalize(id, _, alive, _, _) =>
      if id == k && Owns(s, c) && !alive && (status == Running || status == Pending) then Failed else status
    case CallUpdate(id, wanted, _) =>
      var starts := (wanted == Running || wanted == Rebooting) && status != Running;
      if id == k && !(starts && |InProgress(s.jobs)| >= s.maxConcurrent) then wanted else status
    case _ => status
  }

  lemma UpdatesChangeExactly(s: SchedState, c: Call, k: Id)
    requires c.CallUpdate? && k in s.jobs
    ensures
      var s' := Exec(s, c);
      k in s'.jobs && s'.jobs[k].status == StatusAfter(s, c, k)
      && (k != c.id ==> s'.jobs[k] == s.jobs[k])
  {
    BusyIsActive(s.jobs);
    hide RunningIds, InProgress;
  }

  /** Where the status stays, only `update_job` and a repeated end touch the record at all. */
  lemma StatusesChangeExactly(s: SchedState, c: Call, k: Id)
    requires Runs(c) && k in s.jobs && NewId(c) != Some(k) && k in Exec(s, c).jobs
    ensures Exec(s, c).jobs[k].status == StatusAfter(s, c, k)
    ensures Exec(s, c).jobs[k] != s.jobs[k] ==>
              StatusAfter(s, c, k) != s.jobs[k].status
              || ((c.CallComplete? || c.CallFail? || c.CallFailWithDiagnostics? || c.CallUpdate?
                   || c.CallRollbackReboot?) && c.id == k)
  {
    if c.CallUpdate? {
      UpdatesChangeExactly(s, c, k);
    }
    hide RunningIds, InProgress, ActiveRealIds;
  }

  /** A finished job carries its completion time and result. */
  lemma EndsAreRecorded(s: SchedState, id: Id, now: Time, reason: string, code: string)
    requires id in s.jobs
    ensures
      var job := s.jobs[id];
      && CompleteJob(s, id, now)
         == s.(jobs := s.jobs[id := job.(status := Completed, progress := 100, completedAt := Some(now))])
      && FailJob(s, id, reason, now)
         == s.(jobs := s.jobs[id := job.(status := Failed, error := Some(reason), completedAt := Some(now))])
      && FailJobWithDiagnostics(s, id, reason, code, now)
         == s.(jobs := s.jobs[id := job.(status := Failed, error := Some(reason), errorCode := Some(code),
                                         completedAt := Some(now))])
  {
  }

  /** A scheduler starts open and empty, with both limits at least one. */
  lemma StartIsExact(concurrent: nat, depth: nat)
    ensures NewScheduler(concurrent, depth)
            == SchedState(Open, map[], None, 0, None, None,
                          if concurrent >= 1 then concurrent else 1, if depth >= 1 then depth else 1)
  {
  }
}
