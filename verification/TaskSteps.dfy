/**
 * What single steps do to the scheduler.  Every action of the concurrent
 * system performs at most one locked section; the facts the theorems about
 * runs are built from are proved once per locked section.
 */
module TaskSteps {
  import opened Wrappers
  import opened Jobs
  import opened SchedulerState
  import opened SchedulerLaws
  import opened Tasks
  import opened TaskInvariant

  // ---------------------------------------------------- one call per action

  /** The locked section an action executes, if any. */
  function CallOf(s: Sys, a: Action): Option<Call>
    requires Enabled(s, a)
  {
    match a
    case Admit(id, kind, packages, now, boot) => Some(CallAdmit(id, OperationOf(kind), packages, now, boot))
    case AdmitRollback(original, id, now, boot) => Some(CallRollbackJob(original, id, now, boot))
    case ReserveUpdate(id, now, boot) => Some(CallReserveSelfUpdate(id, [SELF_PACKAGE_NAME], now, boot))
    case DropUpdateGuard(t) => Some(CallDropSelfUpdateGuard(t))
    case RequestReboot(id, force, ack, now, boot) => Some(CallReserveReboot(id, force, ack, now, boot))
    case Dispatch(t) => Some(CallTryAcquire(t))
    case WatchdogFinalize(w, now) =>
      var alive := w.job in s.tasks && s.tasks[w.job].pc.InFlight?;
      Some(CallFinalize(w.job, w.generation, alive, w.result.value, now))
    case Complete(t, now) => Some(CallComplete(t, now))
    case Fail(t, reason, code, now) =>
      Some(if s.tasks[t].kind == Refresh then CallFail(t, reason, now)
           else CallFailWithDiagnostics(t, reason, code, now))
    case DeleteTracking(t) => Some(CallDelete(t))
    case Release(t) => Some(CallReleaseSelfUpdate(t))
    case PatchReserve(_, id, now, boot) => Some(CallReserveReboot(id, true, false, now, boot))
    case PatchMark(t) => Some(CallSetRebooting(t))
    case Begin(t) => Some(CallBeginReboot(s.tasks[t].pc.r))
    case RollBack(t, reason, now) => Some(CallRollbackReboot(s.tasks[t].pc.r, Some(reason), now))
    case PatchComplete(t, now) => Some(CallComplete(t, now))
    case DropRebootGuard(t, now) => Some(CallRollbackReboot(s.tasks[t].pc.r, Some(GUARD_DROPPED), now))
    case Freeze => Some(CallFreeze)
    case UserDelete(id) => Some(CallDelete(id))
    case _ => None
  }

  function SchedulerAfter(s: Sys, a: Action): SchedState
    requires Enabled(s, a)
  {
    match CallOf(s, a)
    case Some(c) => Exec(s.sch, c)
    case None => s.sch
  }

  lemma RequestsAreCalls(s: Sys, a: Action)
    requires Enabled(s, a) && a.IsRequest()
    ensures Core(s, a).sch == SchedulerAfter(s, a)
  {
  }

  lemma DispatchesAreCalls(s: Sys, a: Action)
    requires Enabled(s, a) && a.IsDispatch()
    ensures Core(s, a).sch == SchedulerAfter(s, a)
  {
  }

  lemma OutcomesAreCalls(s: Sys, a: Action)
    requires Enabled(s, a) && a.IsOutcome()
    ensures Core(s, a).sch == SchedulerAfter(s, a)
  {
  }

  /** The tasks drive the scheduler only through its locked sections. */
  lemma StepsAreCalls(s: Sys, step: Step)
    requires Permissible(s, step)
    ensures Apply(s, step).sch == SchedulerAfter(s, step.action)
  {
    var a := step.action;
    if a.IsRequest() {
      RequestsAreCalls(s, a);
    } else if a.IsDispatch() {
      DispatchesAreCalls(s, a);
    } else {
      OutcomesAreCalls(s, a);
    }
  }

  // ------------------------------------------------- facts about every call

  /** Calls that tasks make: everything but `update_job` and the startup calls. */
  predicate FromTask(c: Call) {
    !c.CallUpdate? && !c.CallLoadHistory? && !c.CallRecover?
  }

  predicate CallAcquires(s: SchedState, c: Call) {
    c.CallTryAcquire? && TryAcquire(s, c.id).1.Acquired?
  }

  predicate CallRevives(s: SchedState, c: Call) {
    CallAcquires(s, c) && c.id in s.jobs && !Dispatchable(s, c.id)
  }

  /** Jobs the call did not create only disappear or move forward in their life cycle. */
  lemma CallMovesForward(s: SchedState, c: Call)
    requires FromTask(c) && !CallRevives(s, c)
    ensures forall k :: k in Exec(s, c).jobs && NewId(c) != Some(k) ==>
              k in s.jobs && s.jobs[k].status.Rank() <= Exec(s, c).jobs[k].status.Rank()
  {
  }

  /** Active jobs are not removed, except by the drop of a self-update's own guard. */
  lemma CallKeepsActiveJobs(s: SchedState, c: Call, k: Id)
    requires FromTask(c) && k in s.jobs && s.jobs[k].status.IsActive() && c != CallDropSelfUpdateGuard(k)
    ensures k in Exec(s, c).jobs
  {
  }

  /** While admission is frozen no job appears and the slot is not taken. */
  lemma CallWhenFrozen(s: SchedState, c: Call)
    requires FromTask(c) && s.admission == Frozen
    ensures Exec(s, c).admission == Frozen
    ensures Exec(s, c).jobs.Keys <= s.jobs.Keys
    ensures Exec(s, c).slot == s.slot || Exec(s, c).slot == None
    ensures Exec(s, c).generation == s.generation
  {
  }

  /** While a reboot is reserved no job appears, the slot is not taken, and only its rollback ends it. */
  lemma CallUnderReservation(s: SchedState, c: Call)
    requires FromTask(c) && s.rebootPending.Some?
    ensures (c.CallRollbackReboot? && s.rebootPending == Some(c.id)) || Exec(s, c).rebootPending == s.rebootPending
    ensures Exec(s, c).jobs.Keys <= s.jobs.Keys
    ensures Exec(s, c).slot == s.slot || Exec(s, c).slot == None
    ensures Exec(s, c).generation == s.generation
  {
  }

  /** While a self-update is reserved only its owner can take the slot. */
  lemma CallUnderSelfUpdate(s: SchedState, c: Call)
    requires FromTask(c) && s.selfUpdate.Some? && Exec(s, c).selfUpdate == s.selfUpdate
    ensures CallAcquires(s, c) ==> c.id == s.selfUpdate.value
    ensures
      || (Exec(s, c).slot == s.slot && Exec(s, c).generation == s.generation)
      || Exec(s, c).slot == None
      || Exec(s, c).slot == s.selfUpdate
  {
  }

  // -------------------------------------------------- facts about every step

  predicate Acquires(s: Sys, a: Action) {
    a.Dispatch? && TryAcquire(s.sch, a.t).1.Acquired?
  }

  /** Known jobs only disappear or move forward; new jobs have new ids. */
  ghost predicate MovesForward(s: Sys, s': Sys) {
    && s.used <= s'.used
    && forall k :: k in s.used && k in s'.sch.jobs ==>
         k in s.sch.jobs && s.sch.jobs[k].status.Rank() <= s'.sch.jobs[k].status.Rank()
  }

  lemma ForwardIsTransitive(s: Sys, s': Sys, s'': Sys)
    requires MovesForward(s, s') && MovesForward(s', s'')
    ensures MovesForward(s, s'')
  {
  }

  lemma UsedGrowsByRequest(s: Sys, a: Action)
    requires Enabled(s, a) && a.IsRequest()
    ensures s.used <= Core(s, a).used
  {
    hide AdmitJob, CreateRollbackJob, TryReserveSelfUpdate, ReserveReboot, DropSelfUpdateGuard, DeleteJob;
  }

  lemma UsedGrowsOtherwise(s: Sys, a: Action)
    requires Enabled(s, a) && !a.IsRequest()
    ensures s.used <= Core(s, a).used
  {
    hide TryAcquire, Finalize, CompleteJob, FailJob, FailJobWithDiagnostics, DeleteJob, ReleaseSelfUpdate, ReserveReboot,
         SetJobRebooting, BeginRebootExecution, RollbackReboot;
  }

  lemma UsedGrows(s: Sys, step: Step)
    requires Permissible(s, step)
    ensures s.used <= Apply(s, step).used
  {
    hide Core, Enabled;
    if step.action.IsRequest() {
      UsedGrowsByRequest(s, step.action);
    } else {
      UsedGrowsOtherwise(s, step.action);
    }
  }

  lemma NewIdsAreFresh(s: Sys, a: Action)
    requires Enabled(s, a)
    ensures CallOf(s, a).Some? && NewId(CallOf(s, a).value).Some? ==> NewId(CallOf(s, a).value).value !in s.used
  {
  }

  lemma TaskCallsOnly(s: Sys, a: Action)
    requires Enabled(s, a)
    ensures CallOf(s, a).Some? ==> FromTask(CallOf(s, a).value)
  {
  }

  lemma StepMovesForward(s: Sys, step: Step)
    requires Permissible(s, step)
    requires Acquires(s, step.action) ==> step.action.t !in s.sch.jobs || Dispatchable(s.sch, step.action.t)
    ensures MovesForward(s, Apply(s, step))
  {
    hide Core, Enabled, Exec;
    UsedGrows(s, step);
    StepsAreCalls(s, step);
    NewIdsAreFresh(s, step.action);
    TaskCallsOnly(s, step.action);
    if CallOf(s, step.action).Some? {
      CallMovesForward(s.sch, CallOf(s, step.action).value);
    }
  }

  /** Taking the slot for a job that already left the running phase starts it again. */
  lemma RevivalMovesBack(s: Sys, step: Step)
    requires Inv(s) && Permissible(s, step) && Acquires(s, step.action)
    requires step.action.t in s.sch.jobs && !Dispatchable(s.sch, step.action.t)
    ensures !MovesForward(s, Apply(s, step))
  {
    var t := step.action.t;
    assert JobFits(s.tasks[t], s.sch.jobs[t]);
    assert t in s.used && Apply(s, step).sch.jobs[t].status == Running;
  }

  lemma HistoryOfDispatch(s: Sys, t: Id)
    requires t in s.tasks
    ensures
      var acquires := Acquires(s, Dispatch(t));
      && DoDispatch(s, t).acquired == s.acquired + (if acquires then 1 else 0)
      && DoDispatch(s, t).revived
         == s.revived + (if acquires && t in s.sch.jobs && !Dispatchable(s.sch, t) then 1 else 0)
      && DoDispatch(s, t).phantoms == s.phantoms + (if acquires && t !in s.sch.jobs then 1 else 0)
      && DoDispatch(s, t).detached == s.detached
  {
  }

  lemma HistoryOfRequest(s: Sys, a: Action)
    requires Enabled(s, a) && a.IsRequest()
    ensures
      var s' := Core(s, a);
      && s'.acquired == s.acquired && s'.revived == s.revived && s'.phantoms == s.phantoms
      && s'.detached == s.detached
  {
    hide AdmitJob, CreateRollbackJob, TryReserveSelfUpdate, ReserveReboot, DropSelfUpdateGuard, DeleteJob;
  }

  lemma HistoryOfOutcome(s: Sys, a: Action)
    requires Enabled(s, a) && a.IsOutcome()
    ensures
      var s' := Core(s, a);
      && s'.acquired == s.acquired && s'.revived == s.revived && s'.phantoms == s.phantoms
      && s'.detached == s.detached
  {
    hide CompleteJob, FailJob, FailJobWithDiagnostics, DeleteJob, ReleaseSelfUpdate, ReserveReboot, SetJobRebooting,
         BeginRebootExecution, RollbackReboot;
  }

  lemma HistoryOfWatch(s: Sys, a: Action)
    requires Enabled(s, a) && a.IsDispatch() && !a.Dispatch?
    ensures
      var s' := Core(s, a);
      && s'.acquired == s.acquired && s'.revived == s.revived && s'.phantoms == s.phantoms
      && s'.detached <= s.detached + if a.Backstop? then 1 else 0
  {
    hide Finalize;
  }

  /** The history counters count the acquisitions that the code's missing check lets through. */
  lemma HistoryCounts(s: Sys, step: Step)
    requires Permissible(s, step)
    ensures
      var t := if Acquires(s, step.action) then Some(step.action.t) else None;
      && Apply(s, step).acquired == s.acquired + (if t.Some? then 1 else 0)
      && Apply(s, step).revived
         == s.revived + (if t.Some? && t.value in s.sch.jobs && !Dispatchable(s.sch, t.value) then 1 else 0)
      && Apply(s, step).phantoms == s.phantoms + (if t.Some? && t.value !in s.sch.jobs then 1 else 0)
      && Apply(s, step).detached <= s.detached + (if step.action.Backstop? then 1 else 0)
  {
    if step.action.Dispatch? {
      HistoryOfDispatch(s, step.action.t);
    } else if step.action.IsRequest() {
      HistoryOfRequest(s, step.action);
    } else if step.action.IsDispatch() {
      HistoryOfWatch(s, step.action);
    } else {
      HistoryOfOutcome(s, step.action);
    }
  }

  /** Only a task that holds the guard, after a failed command, ends a reservation. */
  lemma OnlyOwnerEndsReservation(s: Sys, step: Step)
    requires Inv(s) && Permissible(s, step) && s.sch.rebootPending.Some?
    ensures Apply(s, step).sch.rebootPending != s.sch.rebootPending ==>
              && step.action.RollBack? && s.rebootBy == Some(step.action.t)
              && step.action.t in s.tasks && s.tasks[step.action.t].pc == RollingBack(s.sch.rebootPending.value)
  {
    var a := step.action;
    StepsAreCalls(s, step);
    TaskCallsOnly(s, a);
    if Apply(s, step).sch.rebootPending == s.sch.rebootPending {
      return;
    }
    CallUnderReservation(s.sch, CallOf(s, a).value);
    if a.RollBack? {
      ReservationIsLive(s, a.t);
    } else {
      assert a.DropRebootGuard?;
      DroppedGuardIsStale(s, a.t, a.now);
    }
  }

  lemma OutcomeKeepsAcknowledgement(s: Sys, a: Action)
    requires Enabled(s, a) && a.IsOutcome() && s.sch.rebootPending.Some?
    requires Core(s, a).sch.rebootPending == s.sch.rebootPending
    ensures Core(s, a).unacked == s.unacked && Core(s, a).blind == s.blind && Core(s, a).rebootBy == s.rebootBy
  {
  }

  lemma RequestKeepsAcknowledgement(s: Sys, a: Action)
    requires Enabled(s, a) && a.IsRequest() && s.sch.rebootPending.Some?
    ensures Core(s, a).unacked == s.unacked && Core(s, a).blind == s.blind && Core(s, a).rebootBy == s.rebootBy
  {
  }

  lemma DispatchKeepsAcknowledgement(s: Sys, a: Action)
    requires Enabled(s, a) && a.IsDispatch() && s.sch.rebootPending.Some?
    ensures Core(s, a).unacked == s.unacked && Core(s, a).blind == s.blind && Core(s, a).rebootBy == s.rebootBy
  {
  }

  /** A lasting reservation keeps its owner and the kind of acknowledgement it was made with. */
  lemma AcknowledgementStays(s: Sys, step: Step)
    requires Permissible(s, step) && s.sch.rebootPending.Some?
    requires Apply(s, step).sch.rebootPending == s.sch.rebootPending
    ensures Apply(s, step).unacked == s.unacked && Apply(s, step).blind == s.blind
    ensures Apply(s, step).rebootBy == s.rebootBy
  {
    hide Core, Enabled, Notifies;
    if step.action.IsOutcome() {
      OutcomeKeepsAcknowledgement(s, step.action);
    } else if step.action.IsRequest() {
      RequestKeepsAcknowledgement(s, step.action);
    } else {
      DispatchKeepsAcknowledgement(s, step.action);
    }
  }

  // ------------------------------------------------------ which task moves

  /** The task an action belongs to. */
  function Subject(a: Action): Option<Id> {
    match a
    case Admit(id, _, _, _, _) => Some(id)
    case ReserveUpdate(id, _, _) => Some(id)
    case RequestReboot(id, _, _, _, _) => Some(id)
    case WatchdogFinalize(w, _) => Some(w.job)
    case AdmitRollback(_, _, _, _) => None
    case ClosureExit(_, _) => None
    case Backstop(_) => None
    case DetachedExit => None
    case Freeze => None
    case UserDelete(_) => None
    case _ => Some(a.t)
  }

  lemma DispatchMovesOneTask(s: Sys, a: Action, t: Id)
    requires Enabled(s, a) && a.IsDispatch() && t in s.tasks && Subject(a) != Some(t)
    ensures t in Core(s, a).tasks && Core(s, a).tasks[t] == s.tasks[t]
  {
    hide TryAcquire, Finalize;
  }

  lemma RequestMovesOneTask(s: Sys, a: Action, t: Id)
    requires Enabled(s, a) && a.IsRequest() && t in s.tasks && Subject(a) != Some(t)
    ensures t in Core(s, a).tasks && Core(s, a).tasks[t] == s.tasks[t]
  {
    hide AdmitJob, CreateRollbackJob, TryReserveSelfUpdate, ReserveReboot, DropSelfUpdateGuard, DeleteJob;
  }

  lemma RebootMovesOneTask(s: Sys, a: Action, t: Id)
    requires Enabled(s, a) && a.IsOutcome() && a.IsReboot() && t in s.tasks && Subject(a) != Some(t)
    ensures t in Core(s, a).tasks && Core(s, a).tasks[t] == s.tasks[t]
  {
    hide CompleteJob, FailJob, FailJobWithDiagnostics, DeleteJob, ReleaseSelfUpdate, ReserveReboot, SetJobRebooting,
         BeginRebootExecution, RollbackReboot;
  }

  lemma OutcomeMovesOneTask(s: Sys, a: Action, t: Id)
    requires Enabled(s, a) && a.IsOutcome() && !a.IsReboot() && t in s.tasks && Subject(a) != Some(t)
    ensures t in Core(s, a).tasks && Core(s, a).tasks[t] == s.tasks[t]
  {
    hide CompleteJob, FailJob, FailJobWithDiagnostics, DeleteJob, ReleaseSelfUpdate, ReserveReboot, SetJobRebooting,
         BeginRebootExecution, RollbackReboot;
  }

  /** An action moves no task but its own. */
  lemma OnlySubjectMoves(s: Sys, a: Action, t: Id)
    requires Enabled(s, a) && t in s.tasks && Subject(a) != Some(t)
    ensures t in Core(s, a).tasks && Core(s, a).tasks[t] == s.tasks[t]
  {
    hide Core, Enabled;
    if a.IsDispatch() {
      DispatchMovesOneTask(s, a, t);
    } else if a.IsRequest() {
      RequestMovesOneTask(s, a, t);
    } else if a.IsReboot() {
      RebootMovesOneTask(s, a, t);
    } else {
      OutcomeMovesOneTask(s, a, t);
    }
  }

  /** No action is enabled at a task that waits for the reboot. */
  lemma AwaitingRebootIsIdle(s: Sys, a: Action, t: Id)
    requires Enabled(s, a) && t in s.tasks && t in s.used && s.tasks[t].pc.AwaitingReboot? && !a.WatchdogFinalize?
    ensures Subject(a) != Some(t)
  {
  }

  lemma TasksAreUsed(s: Sys)
    requires Inv(s)
    ensures s.tasks.Keys <= s.used && s.sch.jobs.Keys <= s.used
  {
  }

  /** A task that waits for the reboot never moves again. */
  lemma AwaitingRebootIsFinal(s: Sys, step: Step, t: Id)
    requires Inv(s) && Permissible(s, step) && t in s.tasks && s.tasks[t].pc.AwaitingReboot?
    ensures t in Apply(s, step).tasks && Apply(s, step).tasks[t] == s.tasks[t]
  {
    hide Core, Inv;
    TasksAreUsed(s);
    if step.action.WatchdogFinalize? {
      WatchdogOwnsSlot(s, step.action.w);
    } else {
      AwaitingRebootIsIdle(s, step.action, t);
    }
    OnlySubjectMoves(s, step.action, t);
  }

  /** Nor is its job removed. */
  lemma AwaitingJobStays(s: Sys, step: Step, t: Id)
    requires Inv(s) && Permissible(s, step) && t in s.tasks && s.tasks[t].pc.AwaitingReboot? && t in s.sch.jobs
    ensures t in Apply(s, step).sch.jobs
  {
    hide Inv, Core, Exec;
    TaskFacts(s, t);
    StepsAreCalls(s, step);
    TaskCallsOnly(s, step.action);
    if CallOf(s, step.action).Some? {
      CallKeepsActiveJobs(s.sch, CallOf(s, step.action).value, t);
    }
  }
}
