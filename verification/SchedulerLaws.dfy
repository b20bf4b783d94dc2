/**
 * Laws of the scheduler's locked sections for arbitrary clients: every
 * sequence of calls, with any arguments, in any order.
 */
module SchedulerLaws {
  import opened Wrappers
  import opened Jobs
  import opened SchedulerState

  // ----------------------------------------------------------------- counting

  lemma {:induction false} SubsetSize<T>(a: set<T>, b: set<T>)
    requires a <= b
    ensures |a| <= |b|
    decreases a
  {
    if a != {} {
      var x :| x in a;
      SubsetSize(a - {x}, b - {x});
    }
  }

  /** No job starts running: the running count cannot grow. */
  lemma RunningShrinks(jobs: map<Id, Job>, jobs': map<Id, Job>)
    requires forall k :: k in jobs' && jobs'[k].status == Running ==> k in jobs && jobs[k].status == Running
    ensures |RunningIds(jobs')| <= |RunningIds(jobs)|
  {
    SubsetSize(RunningIds(jobs'), RunningIds(jobs));
  }

  /** At most job `id` starts running: the count grows by at most one. */
  lemma RunningGrowsByOne(jobs: map<Id, Job>, jobs': map<Id, Job>, id: Id)
    requires forall k :: k in jobs' && jobs'[k].status == Running && k != id ==> k in jobs && jobs[k].status == Running
    ensures |RunningIds(jobs')| <= |RunningIds(jobs)| + 1
  {
    SubsetSize(RunningIds(jobs'), RunningIds(jobs) + {id});
  }

  lemma ActiveShrinks(jobs: map<Id, Job>, jobs': map<Id, Job>)
    requires forall k :: k in jobs' && jobs'[k].IsActiveReal() ==> k in jobs && jobs[k].IsActiveReal()
    ensures |ActiveRealIds(jobs')| <= |ActiveRealIds(jobs)|
  {
    SubsetSize(ActiveRealIds(jobs'), ActiveRealIds(jobs));
  }

  lemma ActiveGrowsByOne(jobs: map<Id, Job>, jobs': map<Id, Job>, id: Id)
    requires forall k :: k in jobs' && jobs'[k].IsActiveReal() && k != id ==> k in jobs && jobs[k].IsActiveReal()
    ensures |ActiveRealIds(jobs')| <= |ActiveRealIds(jobs)| + 1
  {
    SubsetSize(ActiveRealIds(jobs'), ActiveRealIds(jobs) + {id});
  }

  // ------------------------------------------------------- arbitrary clients

  datatype Call =
    | CallAdmit(id: Id, op: JobOperation, packages: seq<string>, now: Time, boot: Option<string>)
    | CallRollbackJob(original: Id, id: Id, now: Time, boot: Option<string>)
    | CallReserveSelfUpdate(id: Id, packages: seq<string>, now: Time, boot: Option<string>)
    | CallReleaseSelfUpdate(id: Id)
    | CallDropSelfUpdateGuard(id: Id)
    | CallReserveReboot(id: Id, force: bool, ack: bool, now: Time, boot: Option<string>)
    | CallRollbackReboot(id: Id, error: Option<string>, now: Time)
    | CallBeginReboot(id: Id)
    | CallSetRebooting(id: Id)
    | CallTryAcquire(id: Id)
    | CallFinalize(id: Id, generation: nat, callerAlive: bool, ok: bool, now: Time)
    | CallFreeze
    | CallComplete(id: Id, now: Time)
    | CallFail(id: Id, reason: string, now: Time)
    | CallFailWithDiagnostics(id: Id, reason: string, code: string, now: Time)
    | CallDelete(id: Id)
    | CallUpdate(id: Id, status: JobStatus, newProgress: Option<nat>)
    | CallLoadHistory(history: seq<Job>)
    | CallRecover(orphans: seq<Job>, clock: nat -> Time, boot: Option<string>)

  /** Startup hands `load_history` only the terminal part of the file. */
  predicate Permitted(c: Call) {
    c.CallLoadHistory? ==> forall i :: 0 <= i < |c.history| ==> c.history[i].status.IsTerminal()
  }

  function Exec(s: SchedState, c: Call): SchedState {
    match c
    case CallAdmit(id, op, packages, now, boot) => AdmitJob(s, id, op, packages, now, boot).0
    case CallRollbackJob(original, id, now, boot) => CreateRollbackJob(s, original, id, now, boot).0
    case CallReserveSelfUpdate(id, packages, now, boot) => TryReserveSelfUpdate(s, id, packages, now, boot).0
    case CallReleaseSelfUpdate(id) => ReleaseSelfUpdate(s, id).0
    case CallDropSelfUpdateGuard(id) => DropSelfUpdateGuard(s, id)
    case CallReserveReboot(id, force, ack, now, boot) => ReserveReboot(s, id, force, ack, now, boot).0
    case CallRollbackReboot(id, error, now) => RollbackReboot(s, id, error, now).0
    case CallBeginReboot(id) => BeginRebootExecution(s, id).0
    case CallSetRebooting(id) => SetJobRebooting(s, id).0
    case CallTryAcquire(id) => TryAcquire(s, id).0
    case CallFinalize(id, generation, alive, ok, now) => Finalize(s, id, generation, alive, ok, now)
    case CallFreeze => FreezeAdmission(s)
    case CallComplete(id, now) => CompleteJob(s, id, now)
    case CallFail(id, reason, now) => FailJob(s, id, reason, now)
    case CallFailWithDiagnostics(id, reason, code, now) => FailJobWithDiagnostics(s, id, reason, code, now)
    case CallDelete(id) => DeleteJob(s, id).0
    case CallUpdate(id, status, progress) => UpdateJob(s, id, status, progress).0
    case CallLoadHistory(history) => LoadHistory(s, history)
    case CallRecover(orphans, clock, boot) => RecoverOrphanedJobs(s, orphans, clock, boot)
  }

  /** The id of the job the call creates if it is admitted. */
  function NewId(c: Call): Option<Id> {
    match c
    case CallAdmit(id, _, _, _, _) => Some(id)
    case CallRollbackJob(_, id, _, _) => Some(id)
    case CallReserveSelfUpdate(id, _, _, _) => Some(id)
    case CallReserveReboot(id, _, _, _, _) => Some(id)
    case _ => None
  }

  function ExecAll(s: SchedState, calls: seq<Call>): SchedState
    decreases |calls|
  {
    if calls == [] then s else Exec(ExecAll(s, calls[..|calls| - 1]), calls[|calls| - 1])
  }

  /** Bulk insertion of terminal jobs starts nothing. */
  lemma {:induction false} InsertTerminal(jobs: map<Id, Job>, extra: seq<Job>)
    requires forall i :: 0 <= i < |extra| ==> extra[i].status.IsTerminal()
    ensures forall k :: k in InsertAll(jobs, extra) && InsertAll(jobs, extra)[k].status == Running ==>
              k in jobs && jobs[k].status == Running
    decreases |extra|
  {
    if extra != [] {
      InsertTerminal(jobs, extra[..|extra| - 1]);
    }
  }

  /** No job is Running after the call that was not before. */
  ghost predicate StartsNothing(s: SchedState, c: Call) {
    forall k :: k in Exec(s, c).jobs && Exec(s, c).jobs[k].status == Running ==>
      k in s.jobs && s.jobs[k].status == Running
  }

  predicate IsRebootCall(c: Call) {
    c.CallReserveReboot? || c.CallRollbackReboot? || c.CallBeginReboot? || c.CallSetRebooting?
  }

  predicate IsStartupCall(c: Call) {
    c.CallLoadHistory? || c.CallRecover?
  }

  lemma StartupStartsNothing(s: SchedState, c: Call)
    requires Permitted(c) && IsStartupCall(c)
    ensures StartsNothing(s, c)
  {
    match c
    case CallLoadHistory(history) => InsertTerminal(s.jobs, history);
    case CallRecover(orphans, clock, boot) => InsertTerminal(s.jobs, RecoverAll(orphans, clock, boot));
  }

  lemma RebootStartsNothing(s: SchedState, c: Call)
    requires IsRebootCall(c)
    ensures StartsNothing(s, c)
  {
  }

  lemma OthersStartNothing(s: SchedState, c: Call)
    requires !IsRebootCall(c) && !IsStartupCall(c) && !c.CallTryAcquire? && !c.CallUpdate?
    ensures StartsNothing(s, c)
  {
  }

  /** The calls that can start a job are exactly the slot acquisition and `update_job`. */
  lemma OnlyTwoCallsStartJobs(s: SchedState, c: Call)
    requires Permitted(c) && !c.CallTryAcquire? && !c.CallUpdate?
    ensures StartsNothing(s, c)
  {
    hide StartsNothing;
    if IsStartupCall(c) {
      StartupStartsNothing(s, c);
    } else if IsRebootCall(c) {
      RebootStartsNothing(s, c);
    } else {
      OthersStartNothing(s, c);
    }
  }

  lemma AcquireBound(s: SchedState, id: Id)
    requires |RunningIds(s.jobs)| <= s.maxConcurrent
    ensures |RunningIds(TryAcquire(s, id).0.jobs)| <= s.maxConcurrent == TryAcquire(s, id).0.maxConcurrent
  {
    var jobs := TryAcquire(s, id).0.jobs;
    if id in s.jobs && s.jobs[id].status != Running && jobs != s.jobs {
      RunningGrowsByOne(s.jobs, jobs, id);
    } else {
      RunningShrinks(s.jobs, jobs);
    }
  }

  lemma UpdateBound(s: SchedState, id: Id, status: JobStatus, progress: Option<nat>)
    requires |RunningIds(s.jobs)| <= s.maxConcurrent
    ensures |RunningIds(UpdateJob(s, id, status, progress).0.jobs)| <= s.maxConcurrent
            == UpdateJob(s, id, status, progress).0.maxConcurrent
  {
    var jobs := UpdateJob(s, id, status, progress).0.jobs;
    if status == Running && id in s.jobs && s.jobs[id].status != Running && jobs != s.jobs {
      RunningGrowsByOne(s.jobs, jobs, id);
    } else {
      RunningShrinks(s.jobs, jobs);
    }
  }

  lemma LimitIsConstant(s: SchedState, c: Call)
    ensures Exec(s, c).maxConcurrent == s.maxConcurrent
  {
  }

  lemma RunningBoundStep(s: SchedState, c: Call)
    requires Permitted(c) && |RunningIds(s.jobs)| <= s.maxConcurrent
    ensures |RunningIds(Exec(s, c).jobs)| <= s.maxConcurrent == Exec(s, c).maxConcurrent
  {
    hide TryAcquire, UpdateJob, RunningIds;
    LimitIsConstant(s, c);
    match c
    case CallTryAcquire(id) => AcquireBound(s, id);
    case CallUpdate(id, status, progress) => UpdateBound(s, id, status, progress);
    case _ =>
      OnlyTwoCallsStartJobs(s, c);
      RunningShrinks(s.jobs, Exec(s, c).jobs);
  }

  /** Whatever calls clients make, in whatever order, running jobs never exceed the limit. */
  lemma {:induction false} RunningNeverExceedsLimit(concurrent: nat, depth: nat, calls: seq<Call>)
    requires forall i :: 0 <= i < |calls| ==> Permitted(calls[i])
    ensures
      var s := ExecAll(NewScheduler(concurrent, depth), calls);
      |RunningIds(s.jobs)| <= s.maxConcurrent == Max1(concurrent)
    decreases |calls|
  {
    if calls == [] {
      assert RunningIds(map[]) == {};
    } else {
      RunningNeverExceedsLimit(concurrent, depth, calls[..|calls| - 1]);
      RunningBoundStep(ExecAll(NewScheduler(concurrent, depth), calls[..|calls| - 1]), calls[|calls| - 1]);
    }
  }

  // ------------------------------------------------------ reboot admission

  /**
   * `force` is not monotone: a forced request without acknowledgement is
   * refused where an unforced one is admitted, exactly when something holds the
   * slot although no non-internal job is active.
   */
  lemma ForceCanRefuse(s: SchedState, ack: bool)
    requires s.maxQueueDepth >= 1
    ensures RebootRefusal(s, false, ack).None? && RebootRefusal(s, true, false).Some? <==>
            && s.admission == Open && s.rebootPending.None? && s.selfUpdate.None?
            && (forall k :: k in s.jobs ==> !s.jobs[k].IsActiveReal())
            && s.slot.Some?
  {
    if |ActiveRealIds(s.jobs)| == 0 {
      assert forall k :: k in s.jobs ==> k !in ActiveRealIds(s.jobs);
    } else {
      var k :| k in ActiveRealIds(s.jobs);
      assert k in s.jobs && s.jobs[k].IsActiveReal();
    }
  }

  // -------------------------------------------------------- reboot rollbacks

  /** A rollback request by some guard or handler: its owner and the reason it gives. */
  datatype RollbackRequest = RollbackRequest(owner: Id, error: Option<string>, now: Time)

  function RollBackAll(s: SchedState, requests: seq<RollbackRequest>): SchedState
    decreases |requests|
  {
    if requests == [] then s
    else
      RollBackAll(RollbackReboot(s, requests[0].owner, requests[0].error, requests[0].now).0, requests[1..])
  }

  /** Index of the first request made by `owner`, or the length when there is none. */
  function FirstBy(requests: seq<RollbackRequest>, owner: Id): (n: nat)
    ensures n <= |requests|
    ensures forall i :: 0 <= i < n ==> requests[i].owner != owner
    ensures n < |requests| ==> requests[n].owner == owner
    decreases |requests|
  {
    if requests == [] || requests[0].owner == owner then 0 else 1 + FirstBy(requests[1..], owner)
  }

  /** Without a reservation, rollbacks and guard drops change nothing. */
  lemma {:induction false} RollbacksWithoutReservation(s: SchedState, requests: seq<RollbackRequest>)
    requires s.rebootPending.None?
    ensures RollBackAll(s, requests) == s
    decreases |requests|
  {
    if requests != [] {
      RollbacksWithoutReservation(s, requests[1..]);
    }
  }

  /**
   * Only the owner's first rollback has an effect: any number of stale guard
   * drops and repeated rollbacks, in any order, amount to that one (or to
   * nothing when the owner is not among them).
   */
  lemma {:induction false} OnlyOwnersFirstRollbackCounts(s: SchedState, requests: seq<RollbackRequest>)
    requires s.rebootPending.Some?
    ensures
      var n := FirstBy(requests, s.rebootPending.value);
      RollBackAll(s, requests) ==
      if n == |requests| then s
      else RollbackReboot(s, requests[n].owner, requests[n].error, requests[n].now).0
    decreases |requests|
  {
    if requests != [] {
      var s' := RollbackReboot(s, requests[0].owner, requests[0].error, requests[0].now).0;
      if requests[0].owner == s.rebootPending.value {
        RollbacksWithoutReservation(s', requests[1..]);
      } else {
        OnlyOwnersFirstRollbackCounts(s, requests[1..]);
      }
    }
  }
}
