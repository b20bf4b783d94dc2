/**
 * No stranded waiter: `Notify` stores at most one permit and wakes one waiter
 * at a time, yet a dispatch never sleeps with nothing left to wake it.
 */
module Waiters {
  import opened Wrappers
  import opened Jobs
  import opened SchedulerState
  import opened Tasks
  import opened TaskInvariant
  import opened TaskSteps

  /** Asleep, or about to fall asleep with the lock already released. */
  predicate Waiting(pc: Pc) {
    pc.Pausing? || pc.Sleeping?
  }

  /** Awake with a notification of its own that it has not acted on. */
  predicate Notified(pc: Pc) {
    pc.Woken? || pc.Rechecking?
  }

  /** The task still has a notifying step ahead: complete, fail, set-rebooting or begin-reboot. */
  predicate WillNotify(pc: Pc) {
    pc.Returned? || pc.Reserving? || pc.Marking? || pc.Beginning? || pc.Completing?
  }

  predicate IsLive(s: Sys, t: Id) {
    t in s.tasks && (Notified(s.tasks[t].pc) || WillNotify(s.tasks[t].pc))
  }

  predicate IsWaiting(s: Sys, t: Id) {
    t in s.tasks && Waiting(s.tasks[t].pc)
  }

  /** Something is left that wakes a waiter: the permit, the slot's holder, or a live task. */
  ghost predicate HasWaker(s: Sys) {
    s.permit || s.sch.slot.Some? || exists t :: IsLive(s, t)
  }

  ghost predicate NoStranded(s: Sys) {
    (exists t :: IsWaiting(s, t)) ==> HasWaker(s)
  }

  lemma NotificationLeavesWaker(s: Sys, wake: Id)
    ensures HasWaker(NotifyOne(s, wake))
  {
    if IsSleeping(s, wake) {
      assert IsLive(NotifyOne(s, wake), wake);
    }
  }

  /** A dispatch that has to wait leaves behind the reason it waits for. */
  lemma WaitHasReason(s: Sys, t: Id)
    requires Inv(s) && At(s, t, {Queued, Rechecking}) && TryAcquire(s.sch, t).1.Wait?
    ensures HasWaker(DoDispatch(s, t))
  {
    if s.sch.slot.None? {
      var k := SomeRunning(s.sch);
      assert k != t && RanNotFinished(s.tasks[k].pc);
      assert IsLive(DoDispatch(s, t), k);
    }
  }

  lemma SomeRunning(s: SchedState) returns (k: Id)
    requires |RunningIds(s.jobs)| >= 1
    ensures k in s.jobs && s.jobs[k].status == Running
  {
    k :| k in RunningIds(s.jobs);
  }

  lemma DispatchLeavesWaker(s: Sys, t: Id)
    requires Inv(s) && At(s, t, {Queued, Rechecking})
    ensures HasWaker(DoDispatch(s, t))
  {
    match TryAcquire(s.sch, t).1
    case Rejected(_) => assert IsLive(DoDispatch(s, t), t);
    case Wait => WaitHasReason(s, t);
    case Acquired(_) =>
  }

  /** Other silent steps hand their task's role on, and leave slot and permit alone. */
  lemma SilentStepKeepsRole(s: Sys, a: Action, t: Id)
    requires Enabled(s, a) && !Notifies(s, a) && !a.Dispatch? && !a.Poll? && !a.Begin? && Subject(a) == Some(t)
    ensures IsLive(s, t) ==> IsLive(Core(s, a), t)
    ensures IsWaiting(Core(s, a), t) ==> IsWaiting(s, t)
  {
  }

  lemma SilentRequestKeepsSlot(s: Sys, a: Action)
    requires Enabled(s, a) && !Notifies(s, a) && a.IsRequest()
    ensures Core(s, a).sch.slot == s.sch.slot && Core(s, a).permit == s.permit
  {
  }

  lemma SilentDispatchKeepsSlot(s: Sys, a: Action)
    requires Enabled(s, a) && !Notifies(s, a) && a.IsDispatch() && !a.Dispatch? && !a.Poll?
    ensures Core(s, a).sch.slot == s.sch.slot && Core(s, a).permit == s.permit
  {
  }

  lemma SilentOutcomeKeepsSlot(s: Sys, a: Action)
    requires Enabled(s, a) && !Notifies(s, a) && a.IsOutcome()
    ensures Core(s, a).sch.slot == s.sch.slot && Core(s, a).permit == s.permit
  {
  }

  lemma SilentStepKeepsSlot(s: Sys, a: Action)
    requires Enabled(s, a) && !Notifies(s, a) && !a.Dispatch? && !a.Poll?
    ensures Core(s, a).sch.slot == s.sch.slot && Core(s, a).permit == s.permit
  {
    hide Core, Enabled, Notifies;
    if a.IsRequest() {
      SilentRequestKeepsSlot(s, a);
    } else if a.IsDispatch() {
      SilentDispatchKeepsSlot(s, a);
    } else {
      SilentOutcomeKeepsSlot(s, a);
    }
  }

  lemma PollKeepsWaker(s: Sys, t: Id)
    requires At(s, t, {Pausing}) && HasWaker(s)
    ensures HasWaker(DoPoll(s, t))
  {
    if s.permit {
      assert IsLive(DoPoll(s, t), t);
    } else if u: Id :| IsLive(s, u) {
      assert IsLive(DoPoll(s, t), u);
    }
  }

  /** A reboot reservation that is about to start its command is never lost, so starting it notifies. */
  lemma BeginNotifies(s: Sys, t: Id)
    requires Inv(s) && t in s.tasks && s.tasks[t].pc.Beginning?
    ensures Notifies(s, Begin(t))
  {
    ReservationIsLive(s, t);
  }

  lemma NewTasksDoNotWait(s: Sys, a: Action, t: Id)
    requires Enabled(s, a) && t !in s.tasks
    ensures !IsWaiting(Core(s, a), t)
  {
  }

  lemma SilentStepKeepsWaker(s: Sys, a: Action)
    requires Inv(s) && NoStranded(s) && Enabled(s, a) && !Notifies(s, a) && !a.Dispatch? && !a.Poll? && !a.Begin?
    ensures NoStranded(Core(s, a))
  {
    hide Inv, Core, Enabled, Notifies;
    SilentStepKeepsSlot(s, a);
    if v: Id :| IsWaiting(Core(s, a), v) {
      if Subject(a) == Some(v) {
        SilentStepKeepsRole(s, a, v);
      } else if v in s.tasks {
        OnlySubjectMoves(s, a, v);
      } else {
        NewTasksDoNotWait(s, a, v);
      }
      assert IsWaiting(s, v);
      if u: Id :| IsLive(s, u) {
        if Subject(a) == Some(u) {
          SilentStepKeepsRole(s, a, u);
        } else {
          OnlySubjectMoves(s, a, u);
        }
        assert IsLive(Core(s, a), u);
      }
    }
  }

  lemma StepKeepsWaker(s: Sys, step: Step)
    requires Inv(s) && NoStranded(s) && Permissible(s, step)
    ensures NoStranded(Apply(s, step))
  {
    hide Inv, Core;
    var a := step.action;
    if Notifies(s, a) {
      NotificationLeavesWaker(Core(s, a), step.wake);
    } else {
      match a
      case Dispatch(t) => DispatchStep(s, t);
      case Poll(t) => PollStep(s, t);
      case Begin(t) => BeginNotifies(s, t);
      case _ => SilentStepKeepsWaker(s, a);
    }
  }

  lemma DispatchStep(s: Sys, t: Id)
    requires Inv(s) && At(s, t, {Queued, Rechecking})
    ensures NoStranded(Core(s, Dispatch(t)))
  {
    DispatchLeavesWaker(s, t);
  }

  lemma PollStep(s: Sys, t: Id)
    requires NoStranded(s) && At(s, t, {Pausing})
    ensures NoStranded(Core(s, Poll(t)))
  {
    assert IsWaiting(s, t);
    PollKeepsWaker(s, t);
  }

  lemma {:induction false} NobodyStrandedAlongRun(states: seq<Sys>, steps: seq<Step>, i: nat)
    requires IsRun(states, steps) && i < |states|
    ensures NoStranded(states[i])
    decreases i
  {
    hide IsRun;
    var launch := RunStart(states, steps);
    if i > 0 {
      hide Inv, Apply, Permissible, NoStranded;
      RunStep(states, steps, i - 1);
      NobodyStrandedAlongRun(states, steps, i - 1);
      RunKeeps(states, steps, i - 1);
      StepKeepsWaker(states[i - 1], steps[i - 1]);
    }
  }

  // ------------------------------------------------------- who is notified

  /** Actions that always notify, whether or not they changed anything. */
  predicate AlwaysNotifies(a: Action) {
    a.WatchdogFinalize? || a.Complete? || a.Fail? || a.PatchComplete? || a.DropUpdateGuard? || a.Freeze?
  }

  lemma RequestsNotifyOnChange(s: Sys, a: Action)
    requires Ids(s.used, s.sch.jobs, s.tasks) && Enabled(s, a) && a.IsRequest() && !AlwaysNotifies(a) && !a.UserDelete?
    ensures Notifies(s, a) <==> SchedulerAfter(s, a) != s.sch
  {
  }

  lemma OutcomesNotifyOnChange(s: Sys, a: Action)
    requires Ids(s.used, s.sch.jobs, s.tasks) && Enabled(s, a) && a.IsOutcome() && !AlwaysNotifies(a)
    requires !a.DeleteTracking?
    ensures Notifies(s, a) <==> SchedulerAfter(s, a) != s.sch
  {
  }

  lemma DispatchesNotifyRarely(s: Sys, a: Action)
    requires Enabled(s, a) && a.IsDispatch() && !AlwaysNotifies(a)
    ensures Notifies(s, a) <==> a.Cancel? && s.tasks[a.t].pc == Woken
    ensures !a.Dispatch? ==> SchedulerAfter(s, a) == s.sch
  {
    hide TryAcquire;
  }

  lemma DeletionsAreSilent(s: Sys, a: Action)
    requires Enabled(s, a) && (a.UserDelete? || a.DeleteTracking?)
    ensures !Notifies(s, a) && !AlwaysNotifies(a)
  {
  }

  lemma SomeAlwaysNotify(s: Sys, a: Action)
    requires Enabled(s, a) && AlwaysNotifies(a)
    ensures Notifies(s, a)
  {
  }

  /**
   * Apart from those, an action notifies exactly if its critical section
   * changed the scheduler; taking the slot and deleting a job never do, and a
   * dropped caller passes on a notification it has not acted on.
   */
  lemma NotificationsAreExact(s: Sys, a: Action)
    requires Inv(s) && Enabled(s, a)
    ensures Notifies(s, a) <==>
            || AlwaysNotifies(a)
            || (a.Cancel? && s.tasks[a.t].pc == Woken)
            || (!a.Dispatch? && !a.UserDelete? && !a.DeleteTracking? && SchedulerAfter(s, a) != s.sch)
  {
    assert Ids(s.used, s.sch.jobs, s.tasks);
    hide Inv, Ids, Enabled, Notifies, AlwaysNotifies, SchedulerAfter;
    if AlwaysNotifies(a) {
      SomeAlwaysNotify(s, a);
    } else if a.UserDelete? || a.DeleteTracking? {
      DeletionsAreSilent(s, a);
    } else if a.IsRequest() {
      RequestsNotifyOnChange(s, a);
    } else if a.IsDispatch() {
      DispatchesNotifyRarely(s, a);
    } else {
      OutcomesNotifyOnChange(s, a);
    }
  }

  // ---------------------------------------------------- the stored permit

  /** A stored permit wakes nobody who is already asleep, so nobody is. */
  ghost predicate NobodySleepsOnPermit(s: Sys) {
    s.permit ==> forall t :: !IsSleeping(s, t)
  }

  /** Only a poll that finds no permit puts its task to sleep. */
  lemma OwnStepDoesNotSleep(s: Sys, a: Action, t: Id)
    requires Enabled(s, a) && !a.Poll? && Subject(a) == Some(t)
    ensures IsSleeping(Core(s, a), t) ==> IsSleeping(s, t)
  {
  }

  lemma SleepersAreOld(s: Sys, a: Action, t: Id)
    requires Enabled(s, a) && !a.Poll? && IsSleeping(Core(s, a), t)
    ensures IsSleeping(s, t)
  {
    hide Core, Enabled;
    if Subject(a) == Some(t) {
      OwnStepDoesNotSleep(s, a, t);
    } else if t in s.tasks {
      OnlySubjectMoves(s, a, t);
    } else {
      NewTasksDoNotWait(s, a, t);
    }
  }

  lemma RequestKeepsPermit(s: Sys, a: Action)
    requires Enabled(s, a) && a.IsRequest()
    ensures Core(s, a).permit == s.permit
  {
    hide AdmitJob, CreateRollbackJob, TryReserveSelfUpdate, ReserveReboot, DropSelfUpdateGuard, DeleteJob;
  }

  lemma DispatchKeepsPermit(s: Sys, a: Action)
    requires Enabled(s, a) && a.IsDispatch() && !a.Poll?
    ensures Core(s, a).permit == s.permit
  {
    hide TryAcquire, Finalize;
  }

  lemma OutcomeKeepsPermit(s: Sys, a: Action)
    requires Enabled(s, a) && a.IsOutcome()
    ensures Core(s, a).permit == s.permit
  {
    hide CompleteJob, FailJob, FailJobWithDiagnostics, DeleteJob, ReleaseSelfUpdate, ReserveReboot, SetJobRebooting,
         BeginRebootExecution, RollbackReboot;
  }

  lemma CoreKeepsPermitFree(s: Sys, a: Action)
    requires Enabled(s, a) && !a.Poll? && NobodySleepsOnPermit(s)
    ensures NobodySleepsOnPermit(Core(s, a))
  {
    hide Core, Enabled;
    if a.IsRequest() {
      RequestKeepsPermit(s, a);
    } else if a.IsDispatch() {
      DispatchKeepsPermit(s, a);
    } else {
      OutcomeKeepsPermit(s, a);
    }
    if t: Id :| IsSleeping(Core(s, a), t) {
      SleepersAreOld(s, a, t);
    }
  }

  lemma NotifyKeepsPermitFree(s: Sys, wake: Id)
    requires NobodySleepsOnPermit(s) && ((exists t :: IsSleeping(s, t)) ==> IsSleeping(s, wake))
    ensures NobodySleepsOnPermit(NotifyOne(s, wake))
  {
    if !IsSleeping(s, wake) {
      assert forall t :: IsSleeping(NotifyOne(s, wake), t) <==> IsSleeping(s, t);
    }
  }

  lemma StepKeepsPermitFree(s: Sys, step: Step)
    requires NobodySleepsOnPermit(s) && Permissible(s, step)
    ensures NobodySleepsOnPermit(Apply(s, step))
  {
    var a := step.action;
    if a.Poll? {
      assert !Notifies(s, a) && !Core(s, a).permit;
    } else {
      CoreKeepsPermitFree(s, a);
      hide Core, Enabled;
      if Notifies(s, a) {
        NotifyKeepsPermitFree(Core(s, a), step.wake);
      }
    }
  }

  lemma {:induction false} PermitFreeAlongRun(states: seq<Sys>, steps: seq<Step>, i: nat)
    requires IsRun(states, steps) && i < |states|
    ensures NobodySleepsOnPermit(states[i])
    decreases i
  {
    hide IsRun;
    var launch := RunStart(states, steps);
    if i > 0 {
      hide Apply, Permissible, NobodySleepsOnPermit;
      RunStep(states, steps, i - 1);
      PermitFreeAlongRun(states, steps, i - 1);
      StepKeepsPermitFree(states[i - 1], steps[i - 1]);
    }
  }

  /** Something other than the permit: a watchdog, or another task that holds the slot or will notify. */
  ghost predicate HasOtherWaker(s: Sys, t: Id) {
    || s.watch != {}
    || exists u :: u in s.tasks && u != t
         && (Notified(s.tasks[u].pc) || s.tasks[u].pc.Persisting? || WillNotify(s.tasks[u].pc))
  }

  lemma WakerIsPermitOrOther(s: Sys, t: Id)
    requires Inv(s) && NoStranded(s) && IsWaiting(s, t)
    ensures s.permit || HasOtherWaker(s, t)
  {
    if !s.permit && s.watch == {} {
      if s.sch.slot.Some? {
        assert s.tasks[s.sch.slot.value].pc.Persisting?;
      } else {
        var u :| IsLive(s, u);
        assert u in s.tasks;
      }
    }
  }

  /**
   * In every reachable state in which a dispatch sleeps there is a notified
   * dispatch that has not rechecked, the holder of the slot (a watchdog, or a
   * task about to spawn it), or a task with a notifying step ahead; where one is
   * about to sleep there is one of these or a stored permit, and a permit is
   * never stored while somebody sleeps.
   */
  lemma NoStrandedWaiter(states: seq<Sys>, steps: seq<Step>, i: nat, t: Id)
    requires IsRun(states, steps) && i < |states| && IsWaiting(states[i], t)
    ensures IsSleeping(states[i], t) ==> !states[i].permit && HasOtherWaker(states[i], t)
    ensures states[i].tasks[t].pc.Pausing? ==> states[i].permit || HasOtherWaker(states[i], t)
  {
    NobodyStrandedAlongRun(states, steps, i);
    PermitFreeAlongRun(states, steps, i);
    RunKeeps(states, steps, i);
    hide IsRun, Inv, HasOtherWaker, NoStranded;
    WakerIsPermitOrOther(states[i], t);
  }
}
