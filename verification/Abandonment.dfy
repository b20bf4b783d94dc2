/**
 * Jobs that nobody will ever finish: their caller was dropped, or they never
 * had one.  Such a job keeps its record on every continuation, counts against
 * the queue and bars reboots and self-updates; only a forced reboot reservation
 * still fails it, and only while it is Pending.
 */
module Abandonment {
  import opened Wrappers
  import opened Jobs
  import opened SchedulerState
  import opened SchedulerLaws
  import opened Tasks
  import opened TaskInvariant
  import opened TaskSteps
  import opened TaskLimits
  import opened Cancellation

  /** No task acts for job `k`, now or later, and it is not the reserved reboot. */
  predicate Callerless(s: Sys, k: Id) {
    k in s.used && (k in s.tasks ==> s.tasks[k].pc == Dropped) && s.sch.rebootPending != Some(k)
  }

  ghost predicate Unwatched(s: Sys, k: Id) {
    forall w :: w in s.watch ==> w.job != k
  }

  predicate IsActiveJob(s: SchedState, k: Id) {
    k in s.jobs && s.jobs[k].status.IsActive()
  }

  /** The step is a request or a patch task's attempt that reserves a reboot. */
  predicate ReservesReboot(s: Sys, a: Action) {
    match a
    case RequestReboot(_, force, ack, _, _) => RebootRefusal(s.sch, force, ack).None?
    case PatchReserve(_, _, _, _) => RebootRefusal(s.sch, true, false).None?
    case _ => false
  }

  ghost predicate NoReboot(states: seq<Sys>, steps: seq<Step>, i: nat)
    requires i <= |steps| <= |states|
  {
    forall m :: 0 <= m < i ==> !ReservesReboot(states[m], steps[m].action)
  }

  // ----------------------------------------------------------- single calls

  /** Calls by which the task or the watchdog of job `k` itself would change the job. */
  predicate IsOwnCall(c: Call, k: Id) {
    || ((c.CallComplete? || c.CallFail? || c.CallFailWithDiagnostics? || c.CallSetRebooting? || c.CallTryAcquire?
         || c.CallFinalize? || c.CallDropSelfUpdateGuard? || c.CallReleaseSelfUpdate?) && c.id == k)
    || NewId(c) == Some(k)
  }

  predicate CallReserves(s: SchedState, c: Call) {
    c.CallReserveReboot? && RebootRefusal(s, c.force, c.ack).None?
  }

  /** Apart from a reboot reservation, which fails it while it is Pending, no other call touches an active job. */
  lemma OtherCallLeavesActive(s: SchedState, c: Call, k: Id)
    requires FromTask(c) && !IsOwnCall(c, k) && s.rebootPending != Some(k) && IsActiveJob(s, k)
    ensures
      var s' := Exec(s, c);
      if CallReserves(s, c) && s.jobs[k].status == Pending then k in s'.jobs && s'.jobs[k].status == Failed
      else k in s'.jobs && s'.jobs[k] == s.jobs[k]
  {
  }

  /** Nor does any other call make the job active, take the slot for it, or reserve the reboot as it. */
  lemma OtherCallStartsNothing(s: SchedState, c: Call, k: Id)
    requires FromTask(c) && !IsOwnCall(c, k) && s.rebootPending != Some(k)
    ensures Exec(s, c).rebootPending != Some(k)
    ensures Exec(s, c).slot == Some(k) ==> s.slot == Some(k)
    ensures !IsActiveJob(s, k) ==> !IsActiveJob(Exec(s, c), k)
  {
  }

  // ----------------------------------------------------------- single steps

  lemma NoCallerNoCall(s: Sys, a: Action, k: Id)
    requires Enabled(s, a) && Callerless(s, k) && Unwatched(s, k)
    ensures CallOf(s, a).Some? ==> !IsOwnCall(CallOf(s, a).value, k)
  {
  }

  lemma ReservationsAreCalls(s: Sys, a: Action)
    requires Enabled(s, a)
    ensures ReservesReboot(s, a) <==> CallOf(s, a).Some? && CallReserves(s.sch, CallOf(s, a).value)
  {
    hide RebootRefusal;
  }

  lemma WatchKeepsUnwatched(s: Sys, a: Action, k: Id)
    requires Enabled(s, a) && IsWatch(a) && (k in s.tasks ==> s.tasks[k].pc == Dropped) && Unwatched(s, k)
    ensures Unwatched(Core(s, a), k)
  {
    hide Finalize;
  }

  lemma StepKeepsUnwatched(s: Sys, a: Action, k: Id)
    requires Enabled(s, a) && (k in s.tasks ==> s.tasks[k].pc == Dropped) && Unwatched(s, k)
    ensures Unwatched(Core(s, a), k)
  {
    hide Core, Enabled;
    if IsWatch(a) {
      WatchKeepsUnwatched(s, a, k);
    } else if a.IsDispatch() {
      DispatchKeepsWatch(s, a);
    } else if a.IsRequest() {
      RequestKeepsWatch(s, a);
    } else {
      OutcomeKeepsWatch(s, a);
    }
  }

  /** New tasks belong to new jobs. */
  lemma RequestAddsFreshTasks(s: Sys, a: Action, k: Id)
    requires Enabled(s, a) && a.IsRequest() && k in s.used && k !in s.tasks
    ensures k !in Core(s, a).tasks
  {
    hide AdmitJob, CreateRollbackJob, TryReserveSelfUpdate, ReserveReboot, DropSelfUpdateGuard, DeleteJob;
  }

  lemma DispatchAddsNoTasks(s: Sys, a: Action, k: Id)
    requires Enabled(s, a) && a.IsDispatch() && k !in s.tasks
    ensures k !in Core(s, a).tasks
  {
    hide TryAcquire, Finalize;
  }

  lemma RebootAddsNoTasks(s: Sys, a: Action, k: Id)
    requires Enabled(s, a) && a.IsOutcome() && a.IsReboot() && k !in s.tasks
    ensures k !in Core(s, a).tasks
  {
    hide ReserveReboot, SetJobRebooting, BeginRebootExecution, RollbackReboot;
  }

  lemma OutcomeAddsNoTasks(s: Sys, a: Action, k: Id)
    requires Enabled(s, a) && a.IsOutcome() && !a.IsReboot() && k !in s.tasks
    ensures k !in Core(s, a).tasks
  {
    hide CompleteJob, FailJob, FailJobWithDiagnostics, DeleteJob, ReleaseSelfUpdate;
  }

  lemma AbsentStaysAbsent(s: Sys, step: Step, k: Id)
    requires Permissible(s, step) && k in s.used && k !in s.tasks
    ensures k !in Apply(s, step).tasks
  {
    hide Core, Enabled;
    if step.action.IsRequest() {
      RequestAddsFreshTasks(s, step.action, k);
    } else if step.action.IsDispatch() {
      DispatchAddsNoTasks(s, step.action, k);
    } else if step.action.IsReboot() {
      RebootAddsNoTasks(s, step.action, k);
    } else {
      OutcomeAddsNoTasks(s, step.action, k);
    }
  }

  /** A job without a caller never gets one. */
  lemma StepKeepsCallerless(s: Sys, step: Step, k: Id)
    requires Permissible(s, step) && Callerless(s, k) && Unwatched(s, k)
    ensures Callerless(Apply(s, step), k) && Unwatched(Apply(s, step), k)
    ensures Apply(s, step).sch.slot == Some(k) ==> s.sch.slot == Some(k)
  {
    var a := step.action;
    UsedGrows(s, step);
    if k in s.tasks {
      DroppedIsFinal(s, step, k);
    } else {
      AbsentStaysAbsent(s, step, k);
    }
    StepKeepsUnwatched(s, a, k);
    NoCallerNoCall(s, a, k);
    StepsAreCalls(s, step);
    TaskCallsOnly(s, a);
    hide Core, Enabled, Notifies, Exec, IsOwnCall, FromTask;
    if CallOf(s, a).Some? {
      OtherCallStartsNothing(s.sch, CallOf(s, a).value, k);
    }
  }

  /** Its record changes by one kind of step only. */
  lemma StepLeavesJob(s: Sys, step: Step, k: Id)
    requires Permissible(s, step) && Callerless(s, k) && Unwatched(s, k)
    ensures
      IsActiveJob(Apply(s, step).sch, k)
      <==> IsActiveJob(s.sch, k) && !(s.sch.jobs[k].status == Pending && ReservesReboot(s, step.action))
    ensures IsActiveJob(Apply(s, step).sch, k) ==> Apply(s, step).sch.jobs[k] == s.sch.jobs[k]
  {
    var a := step.action;
    NoCallerNoCall(s, a, k);
    StepsAreCalls(s, step);
    TaskCallsOnly(s, a);
    ReservationsAreCalls(s, a);
    hide Apply, Permissible, Exec, IsOwnCall, FromTask, ReservesReboot, CallReserves;
    if CallOf(s, a).Some? {
      if IsActiveJob(s.sch, k) {
        OtherCallLeavesActive(s.sch, CallOf(s, a).value, k);
      } else {
        OtherCallStartsNothing(s.sch, CallOf(s, a).value, k);
      }
    }
  }

  // ---------------------------------------------------- whole continuations

  lemma ContinuesStep(states: seq<Sys>, steps: seq<Step>, i: nat)
    requires Continues(states, steps) && i < |steps|
    ensures |states| == |steps| + 1 && Permissible(states[i], steps[i]) && states[i + 1] == Apply(states[i], steps[i])
  {
  }

  lemma {:induction false} CallerlessAlong(states: seq<Sys>, steps: seq<Step>, k: Id, i: nat)
    requires Continues(states, steps) && i < |states| && Callerless(states[0], k) && Unwatched(states[0], k)
    ensures Callerless(states[i], k) && Unwatched(states[i], k)
    ensures states[i].sch.slot == Some(k) ==> states[0].sch.slot == Some(k)
    decreases i
  {
    if i > 0 {
      hide Apply, Permissible, Callerless, Unwatched;
      CallerlessAlong(states, steps, k, i - 1);
      ContinuesStep(states, steps, i - 1);
      StepKeepsCallerless(states[i - 1], steps[i - 1], k);
    }
  }

  lemma OneMoreWithoutReboot(states: seq<Sys>, steps: seq<Step>, i: nat)
    requires i < |steps| <= |states|
    ensures NoReboot(states, steps, i + 1)
            <==> NoReboot(states, steps, i) && !ReservesReboot(states[i], steps[i].action)
  {
    hide ReservesReboot;
  }

  /**
   * The record of a job without a caller stays as it is for as long as the job
   * is active, and the job ends if and only if it was Pending and a reboot has
   * been reserved since.
   */
  lemma {:induction false} OnlyRebootsEndIt(states: seq<Sys>, steps: seq<Step>, k: Id, i: nat)
    requires Continues(states, steps) && i < |states| && Callerless(states[0], k) && Unwatched(states[0], k)
    ensures |states| == |steps| + 1
    ensures
      IsActiveJob(states[i].sch, k)
      <==> IsActiveJob(states[0].sch, k) && (states[0].sch.jobs[k].status == Pending ==> NoReboot(states, steps, i))
    ensures IsActiveJob(states[i].sch, k) ==> states[i].sch.jobs[k] == states[0].sch.jobs[k]
    decreases i
  {
    if i > 0 {
      hide Continues, NoReboot, Apply, Permissible, Callerless, Unwatched, ReservesReboot, IsActiveJob;
      OnlyRebootsEndIt(states, steps, k, i - 1);
      CallerlessAlong(states, steps, k, i - 1);
      ContinuesStep(states, steps, i - 1);
      OneMoreWithoutReboot(states, steps, i - 1);
      StepLeavesJob(states[i - 1], steps[i - 1], k);
    }
  }

  // -------------------------------------------------------- dropped callers

  /** Up to its acquisition, and after a rejection, a dispatch leaves its job Pending (or failed by a reboot). */
  predicate HasNotRun(pc: Pc) {
    || pc.Queued? || pc.Pausing? || pc.Sleeping? || pc.Woken? || pc.Rechecking?
    || (pc.Returned? && !pc.ran)
  }

  /** A caller dropped anywhere in its dispatch but while its closure is under way leaves nobody behind. */
  lemma DroppedIsCallerless(s: Sys, t: Id)
    requires Inv(s) && t in s.tasks && InDispatch(s.tasks[t].pc)
    ensures Callerless(CancelAt(s, t), t)
    ensures !s.tasks[t].pc.InFlight? ==> Unwatched(CancelAt(s, t), t)
  {
    TaskFacts(s, t);
  }

  /**
   * A caller dropped before its closure was spawned, or after its result was
   * delivered, leaves its job as it is: on every continuation the job ends if
   * and only if it was Pending and a reboot has been reserved.
   */
  lemma DroppedJobIsLeft(s: Sys, t: Id, states: seq<Sys>, steps: seq<Step>, i: nat)
    requires Inv(s) && t in s.tasks && InDispatch(s.tasks[t].pc) && !s.tasks[t].pc.InFlight?
    requires Continues(states, steps) && states[0] == CancelAt(s, t) && i < |states|
    ensures |states| == |steps| + 1
    ensures
      IsActiveJob(states[i].sch, t)
      <==> IsActiveJob(s.sch, t) && (s.sch.jobs[t].status == Pending ==> NoReboot(states, steps, i))
    ensures IsActiveJob(states[i].sch, t) ==> states[i].sch.jobs[t] == s.sch.jobs[t]
    ensures states[i].sch.slot == Some(t) ==> s.sch.slot == Some(t)
  {
    hide Inv, Apply, Permissible;
    DroppedIsCallerless(s, t);
    OnlyRebootsEndIt(states, steps, t, i);
    CallerlessAlong(states, steps, t, i);
  }

  /** No request for a self-update or an unforced reboot is admitted. */
  ghost predicate BarsOthers(s: SchedState) {
    && (forall ack :: RebootRefusal(s, false, ack).Some?)
    && (forall id, packages, now, boot :: TryReserveSelfUpdate(s, id, packages, now, boot).1.Err?)
  }

  lemma ActiveJobBars(s: SchedState, k: Id)
    requires k in s.jobs && s.jobs[k].IsActiveReal()
    ensures BarsOthers(s)
  {
    assert k in ActiveRealIds(s.jobs);
  }

  /**
   * A caller dropped while it waits, or with a rejection in hand, leaves its
   * Pending job behind: on every continuation without a reboot reservation the
   * job stays as it is, cannot be deleted, and bars self-updates and unforced
   * reboots.
   */
  lemma WaitingJobIsLeftForGood(s: Sys, t: Id, states: seq<Sys>, steps: seq<Step>, i: nat)
    requires Inv(s) && t in s.tasks && HasNotRun(s.tasks[t].pc)
    requires t in s.sch.jobs && s.sch.jobs[t].status == Pending
    requires Continues(states, steps) && states[0] == CancelAt(s, t) && i < |states|
    ensures |states| == |steps| + 1
    ensures NoReboot(states, steps, i) <==> IsActiveJob(states[i].sch, t)
    ensures NoReboot(states, steps, i) ==>
              && states[i].sch.jobs[t] == s.sch.jobs[t]
              && DeleteJob(states[i].sch, t) == (states[i].sch, false)
    ensures NoReboot(states, steps, i) && s.tasks[t].kind != Refresh ==>
              t in ActiveRealIds(states[i].sch.jobs) && BarsOthers(states[i].sch)
  {
    TaskFacts(s, t);
    hide Inv, NoReboot, Continues, BarsOthers;
    DroppedJobIsLeft(s, t, states, steps, i);
    if NoReboot(states, steps, i) && s.tasks[t].kind != Refresh {
      ActiveJobBars(states[i].sch, t);
    }
  }

  /**
   * A caller dropped with a delivered result leaves its job Running on every
   * continuation: it never ends, cannot be deleted, and counts against
   * `max_concurrent` and the queue.
   */
  lemma JobRunsForGood(s: Sys, t: Id, states: seq<Sys>, steps: seq<Step>, i: nat)
    requires Inv(s) && t in s.tasks && s.tasks[t].pc.Returned? && s.tasks[t].pc.ran && t in s.sch.jobs
    requires Continues(states, steps) && states[0] == CancelAt(s, t) && i < |states|
    ensures t in states[i].sch.jobs && states[i].sch.jobs[t] == s.sch.jobs[t] && s.sch.jobs[t].status == Running
    ensures DeleteJob(states[i].sch, t) == (states[i].sch, false)
    ensures states[i].sch.slot != Some(t)
  {
    TaskFacts(s, t);
    assert s.sch.slot != Some(t);
    hide Inv, Continues;
    DroppedJobIsLeft(s, t, states, steps, i);
  }

  // -------------------------------------------------- a lost self-update

  /** The self-update is reserved for `t`, whose caller is gone. */
  predicate UpdateIsLost(s: Sys, t: Id) {
    t in s.used && t in s.tasks && s.tasks[t].pc == Dropped && s.sch.selfUpdate == Some(t)
  }

  /** A self-update reservation ends only by its owner's calls. */
  lemma OtherCallKeepsSelfUpdate(s: SchedState, c: Call, t: Id)
    requires FromTask(c) && s.selfUpdate == Some(t)
    requires c != CallReleaseSelfUpdate(t) && c != CallDropSelfUpdateGuard(t)
    ensures Exec(s, c).selfUpdate == Some(t)
  {
  }

  lemma LostUpdateIsIdle(s: Sys, a: Action, t: Id)
    requires Enabled(s, a) && UpdateIsLost(s, t)
    ensures CallOf(s, a) != Some(CallReleaseSelfUpdate(t)) && CallOf(s, a) != Some(CallDropSelfUpdateGuard(t))
    ensures !Acquires(s, a)
  {
  }

  lemma StepKeepsUpdateLost(s: Sys, step: Step, t: Id)
    requires UpdateIsLost(s, t) && Permissible(s, step)
    ensures UpdateIsLost(Apply(s, step), t) && Apply(s, step).acquired == s.acquired
  {
    var a := step.action;
    LostUpdateIsIdle(s, a, t);
    HistoryCounts(s, step);
    UsedGrows(s, step);
    DroppedIsFinal(s, step, t);
    StepsAreCalls(s, step);
    TaskCallsOnly(s, a);
    hide Apply, Permissible, Exec, FromTask, Acquires;
    if CallOf(s, a).Some? {
      OtherCallKeepsSelfUpdate(s.sch, CallOf(s, a).value, t);
    }
  }

  lemma DroppedUpgradeLosesUpdate(s: Sys, t: Id)
    requires Inv(s) && t in s.tasks && InDispatch(s.tasks[t].pc) && s.tasks[t].kind == Upgrade
    ensures UpdateIsLost(CancelAt(s, t), t)
  {
  }

  /**
   * An update of the agent whose caller is dropped anywhere in its dispatch
   * stays reserved on every continuation, and no mutation starts any more.
   */
  lemma {:induction false} SelfUpdateIsLostForGood(s: Sys, t: Id, states: seq<Sys>, steps: seq<Step>, i: nat)
    requires Inv(s) && t in s.tasks && InDispatch(s.tasks[t].pc) && s.tasks[t].kind == Upgrade
    requires Continues(states, steps) && states[0] == CancelAt(s, t) && i < |states|
    ensures UpdateIsLost(states[i], t) && states[i].acquired == s.acquired
    decreases i
  {
    hide Inv, Apply, Permissible, UpdateIsLost;
    if i == 0 {
      DroppedUpgradeLosesUpdate(s, t);
    } else {
      SelfUpdateIsLostForGood(s, t, states, steps, i - 1);
      ContinuesStep(states, steps, i - 1);
      StepKeepsUpdateLost(states[i - 1], steps[i - 1], t);
    }
  }

  // ------------------------------------------------ exactly which jobs can end

  /** On some continuation without a reboot reservation job `k` is finished or gone at the end. */
  ghost predicate CanEnd(s: Sys, k: Id) {
    exists states: seq<Sys>, steps: seq<Step> ::
      && Continues(states, steps) && states[0] == s
      && NoReboot(states, steps, |steps|) && !IsActiveJob(states[|steps|].sch, k)
  }

  /** Whoever sleeps, some choice of the sleeper to wake makes an enabled action a step. */
  lemma SomeStep(s: Sys, a: Action) returns (step: Step)
    requires Enabled(s, a)
    ensures step.action == a && Permissible(s, step)
  {
    hide Core, Notifies, Enabled;
    step := Step(a, 0);
    if t: Id :| IsSleeping(Core(s, a), t) {
      step := Step(a, t);
    }
  }

  lemma NobodyLeftCannotEnd(s: Sys, k: Id)
    requires Callerless(s, k) && Unwatched(s, k) && IsActiveJob(s.sch, k)
    ensures !CanEnd(s, k)
  {
    hide Apply, Permissible, Callerless, Unwatched, IsActiveJob, ReservesReboot;
    if CanEnd(s, k) {
      var states: seq<Sys>, steps: seq<Step> :|
        && Continues(states, steps) && states[0] == s
        && NoReboot(states, steps, |steps|) && !IsActiveJob(states[|steps|].sch, k);
      OnlyRebootsEndIt(states, steps, k, |steps|);
      assert false;
    }
  }

  lemma EndedCanEnd(s: Sys, k: Id)
    requires !IsActiveJob(s.sch, k)
    ensures CanEnd(s, k)
  {
    hide Apply, Permissible, IsActiveJob, ReservesReboot;
    var states, steps: seq<Step> := [s], [];
    assert Continues(states, steps) && NoReboot(states, steps, |steps|);
  }

  /** One more step in front of a continuation. */
  lemma EarlierCanEnd(s: Sys, step: Step, k: Id)
    requires Permissible(s, step) && !ReservesReboot(s, step.action) && CanEnd(Apply(s, step), k)
    ensures CanEnd(s, k)
  {
    hide Permissible, Apply, IsActiveJob, ReservesReboot;
    var states: seq<Sys>, steps: seq<Step> :|
      && Continues(states, steps) && states[0] == Apply(s, step)
      && NoReboot(states, steps, |steps|) && !IsActiveJob(states[|steps|].sch, k);
    var states', steps' := [s] + states, [step] + steps;
    assert Continues(states', steps') by {
      forall i {:trigger steps'[i]} | 0 <= i < |steps'|
        ensures Permissible(states'[i], steps'[i]) && states'[i + 1] == Apply(states'[i], steps'[i])
      {
        if i > 0 {
          ContinuesStep(states, steps, i - 1);
        }
      }
    }
    assert NoReboot(states', steps', |steps'|) by {
      forall m | 0 <= m < |steps'|
        ensures !ReservesReboot(states'[m], steps'[m].action)
      {
        if m > 0 {
          assert states'[m] == states[m - 1] && steps'[m] == steps[m - 1];
        }
      }
    }
    assert states'[|steps'|] == states[|steps|];
  }

  /** A watchdog with its result ends the job of a caller that is gone. */
  lemma FinalizationEnds(s: Sys, w: Watchdog)
    requires w in s.watch && w.result.Some? && StillOwns(s.sch, w.job, w.generation)
    requires (w.job in s.tasks ==> s.tasks[w.job].pc == Dropped)
    requires w.job in s.sch.jobs && s.sch.jobs[w.job].status == Running
    ensures CanEnd(s, w.job)
  {
    var a := WatchdogFinalize(w, 0);
    var step := SomeStep(s, a);
    StepsAreCalls(s, step);
    assert !IsActiveJob(Apply(s, step).sch, w.job);
    hide Apply, Permissible, CanEnd;
    EndedCanEnd(Apply(s, step), w.job);
    EarlierCanEnd(s, step, w.job);
  }

  lemma ExitLeadsToResult(s: Sys, w: Watchdog, ok: bool)
    requires w in s.watch && w.result.None?
    ensures Permissible(s, Step(ClosureExit(w, ok), 0)) && !ReservesReboot(s, ClosureExit(w, ok))
    ensures
      var s' := Apply(s, Step(ClosureExit(w, ok), 0));
      s'.sch == s.sch && s'.tasks == s.tasks && w.(result := Some(ok)) in s'.watch
  {
  }

  lemma WatchdogEnds(s: Sys, w: Watchdog)
    requires w in s.watch && StillOwns(s.sch, w.job, w.generation)
    requires (w.job in s.tasks ==> s.tasks[w.job].pc == Dropped)
    requires w.job in s.sch.jobs && s.sch.jobs[w.job].status == Running
    ensures CanEnd(s, w.job)
  {
    hide CanEnd, Apply, Permissible, ReservesReboot, StillOwns;
    if w.result.Some? {
      FinalizationEnds(s, w);
    } else {
      ExitLeadsToResult(s, w, true);
      var step := Step(ClosureExit(w, true), 0);
      FinalizationEnds(Apply(s, step), w.(result := Some(true)));
      EarlierCanEnd(s, step, w.job);
    }
  }

  /**
   * A job that no caller is left for, be it a rollback job or that of a dropped
   * caller, can end without a reboot exactly if it has ended
   * or a watchdog is at work for it.
   */
  lemma CallerlessJobCanEnd(s: Sys, k: Id)
    requires Inv(s) && Callerless(s, k)
    ensures CanEnd(s, k) <==> !IsActiveJob(s.sch, k) || exists w :: w in s.watch && w.job == k
  {
    if !IsActiveJob(s.sch, k) {
      EndedCanEnd(s, k);
    } else if w :| w in s.watch && w.job == k {
      assert StillOwns(s.sch, w.job, w.generation) && s.sch.jobs[k].status == Running;
      hide Inv, CanEnd;
      WatchdogEnds(s, w);
    } else {
      hide Inv, CanEnd;
      NobodyLeftCannotEnd(s, k);
    }
  }

  /**
   * The job of a caller dropped inside its dispatch can still end without a
   * reboot if and only if the caller awaited its watchdog, or the job had
   * already been failed or deleted.
   */
  lemma DroppedJobCanEnd(s: Sys, t: Id)
    requires Inv(s) && t in s.tasks && InDispatch(s.tasks[t].pc)
    ensures CanEnd(CancelAt(s, t), t) <==> s.tasks[t].pc.InFlight? || !IsActiveJob(s.sch, t)
  {
    hide CanEnd, IsActiveJob;
    DroppedIsCallerless(s, t);
    if !IsActiveJob(s.sch, t) {
      EndedCanEnd(CancelAt(s, t), t);
    } else if s.tasks[t].pc.InFlight? {
      InFlightIsWatched(s, t);
      hide Inv;
      MoveKeeps(s, t, Dropped);
      CallerlessJobCanEnd(CancelAt(s, t), t);
    } else {
      NobodyLeftCannotEnd(CancelAt(s, t), t);
    }
  }

  lemma InFlightIsWatched(s: Sys, t: Id)
    requires Inv(s) && t in s.tasks && s.tasks[t].pc.InFlight?
    ensures exists w :: w in s.watch && w.job == t
    ensures SmoothMove(s.tasks[t], Dropped)
  {
    assert s.sch.slot == Some(t) && s.watch != {};
    var w :| w in s.watch;
    assert w.job == t;
  }
}
