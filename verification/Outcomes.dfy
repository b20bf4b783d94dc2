/**
 * How a job ends is decided by what its closure returned: from the exit of the
 * closure, or the end of its time limit, forwards to the final status.
 */
module Outcomes {
  import opened Wrappers
  import opened Jobs
  import opened SchedulerState
  import opened SchedulerLaws
  import opened Tasks
  import opened TaskInvariant
  import opened TaskSteps
  import opened Abandonment

  /** The action that fixes the result of job `t`'s closure: its exit, or the end of its time limit. */
  predicate Gives(a: Action, t: Id, ok: bool) {
    (a.ClosureExit? && a.w.job == t && a.ok == ok) || (a.Backstop? && a.w.job == t && !ok)
  }

  // ------------------------------------------------------- a result given

  /** The task stands where its closure has returned `ok`. */
  predicate Knows(task: Task, ok: bool) {
    match task.pc
    case InFlight(_) => true
    case Returned(result, ran) => result == ok && ran
    case Dropped => true
    case Deleting => true
    case Releasing => true
    case Done => task.kind != Restart
    case Reserving => ok
    case Marking(_) => ok
    case Beginning(_) => ok && task.kind != Restart
    case Commanding(_) => ok && task.kind != Restart
    case RollingBack(_) => ok && task.kind != Restart
    case AwaitingReboot(_) => ok && task.kind != Restart
    case Completing(_) => ok
    case DroppingGuard(_) => ok
    case _ => false
  }

  /** The statuses that go with it; a dropped caller's job is failed by the watchdog. */
  predicate Suits(pc: Pc, ok: bool, status: JobStatus) {
    match pc
    case Dropped => status == Running || status == Failed
    case Done => status == if ok then Completed else Failed
    case Deleting => status == if ok then Completed else Failed
    case Releasing => status == if ok then Completed else Failed
    case DroppingGuard(_) => status == Completed
    case _ => status == Running || (ok && status == Rebooting)
  }

  /** Task `t` and its job stand as after the result `ok`. */
  predicate Follows(s: Sys, t: Id, ok: bool) {
    && t in s.tasks && Knows(s.tasks[t], ok) && KindOk(s.tasks[t].kind, s.tasks[t].pc)
    && (t in s.sch.jobs ==> Suits(s.tasks[t].pc, ok, s.sch.jobs[t].status))
  }

  /** Job `t`'s closure has returned `ok`, and nothing about the job says otherwise. */
  ghost predicate OnTrack(s: Sys, t: Id, ok: bool) {
    && t in s.used && t in s.tasks && Knows(s.tasks[t], ok)
    && (forall w :: w in s.watch && w.job == t ==> w.result == Some(ok))
    && (t in s.sch.jobs ==> Suits(s.tasks[t].pc, ok, s.sch.jobs[t].status))
  }

  lemma ResultEffect(s: Sys, step: Step, t: Id, ok: bool)
    requires Permissible(s, step) && Gives(step.action, t, ok)
    ensures
      var (s', w) := (Apply(s, step), step.action.w);
      && w in s.watch && s'.watch == s.watch - {w} + {w.(result := Some(ok))}
      && s'.sch == s.sch && s'.tasks == s.tasks && s'.used == s.used
  {
  }

  lemma ResultPutsOnTrack(s: Sys, step: Step, t: Id, ok: bool)
    requires Inv(s) && Permissible(s, step) && Gives(step.action, t, ok)
    ensures OnTrack(Apply(s, step), t, ok)
  {
    hide Inv, Apply, Permissible, OnTrack;
    ResultEffect(s, step, t, ok);
    ResultFacts(s, step.action.w);
    WaitingIsOnTrack(Apply(s, step), t, ok);
  }

  lemma WaitingIsOnTrack(s: Sys, t: Id, ok: bool)
    requires t in s.used && t in s.tasks && (s.tasks[t].pc.InFlight? || s.tasks[t].pc == Dropped)
    requires forall w :: w in s.watch ==> w.result == Some(ok)
    requires t in s.sch.jobs ==> s.sch.jobs[t].status == Running
    ensures OnTrack(s, t, ok)
  {
  }

  /** The closure of a watchdog without result belongs to a running job whose caller waits or is gone. */
  lemma ResultFacts(s: Sys, w: Watchdog)
    requires Inv(s) && w in s.watch
    ensures w.job in s.used && w.job in s.tasks && (s.tasks[w.job].pc.InFlight? || s.tasks[w.job].pc == Dropped)
    ensures forall v :: v in s.watch ==> v == w
    ensures w.job in s.sch.jobs ==> s.sch.jobs[w.job].status == Running
  {
    WatchdogOwnsSlot(s, w);
    TasksAreUsed(s);
  }

  lemma TrackedIsNotReserved(s: Sys, t: Id, ok: bool)
    requires Inv(s) && OnTrack(s, t, ok)
    ensures s.sch.rebootPending != Some(t)
  {
    TaskFacts(s, t);
  }

  /** Calls of others leave the status of a job that has been dispatched alone. */
  lemma OtherCallKeepsStatus(s: SchedState, c: Call, k: Id)
    requires FromTask(c) && !IsOwnCall(c, k) && s.rebootPending != Some(k) && k in Exec(s, c).jobs
    ensures k in s.jobs && (s.jobs[k].status != Pending ==> Exec(s, c).jobs[k].status == s.jobs[k].status)
  {
  }

  lemma OthersMakeOtherCalls(s: Sys, a: Action, t: Id)
    requires Enabled(s, a) && t in s.used && Subject(a) != Some(t)
    ensures CallOf(s, a).Some? ==> !IsOwnCall(CallOf(s, a).value, t)
  {
  }

  /** The watchdogs of other jobs come and go without touching those of job `t`. */
  lemma OthersKeepResult(s: Sys, a: Action, t: Id, ok: bool)
    requires Enabled(s, a) && Subject(a) != Some(t)
    requires forall w :: w in s.watch && w.job == t ==> w.result == Some(ok)
    ensures forall w :: w in Core(s, a).watch && w.job == t ==> w.result == Some(ok)
  {
    hide TryAcquire, Finalize, AdmitJob, CreateRollbackJob, TryReserveSelfUpdate, ReserveReboot, DropSelfUpdateGuard,
         DeleteJob, CompleteJob, FailJob, FailJobWithDiagnostics, ReleaseSelfUpdate, SetJobRebooting,
         BeginRebootExecution, RollbackReboot;
  }

  lemma OtherStepKeepsTrack(s: Sys, step: Step, t: Id, ok: bool)
    requires Inv(s) && Permissible(s, step) && OnTrack(s, t, ok) && Subject(step.action) != Some(t)
    ensures OnTrack(Core(s, step.action), t, ok)
  {
    var a := step.action;
    TrackedIsNotReserved(s, t, ok);
    hide Inv;
    UsedGrows(s, step);
    OnlySubjectMoves(s, a, t);
    OthersKeepResult(s, a, t, ok);
    OthersMakeOtherCalls(s, a, t);
    StepsAreCalls(s, step);
    TaskCallsOnly(s, a);
    hide Core, Enabled, Notifies, Exec, IsOwnCall, FromTask;
    if CallOf(s, a).Some? && t in SchedulerAfter(s, a).jobs {
      OtherCallKeepsStatus(s.sch, CallOf(s, a).value, t);
    }
  }

  /** The watchdog delivers the result, or fails the job of a caller that is gone. */
  lemma FinalizeKeepsTrack(s: Sys, w: Watchdog, now: Time, ok: bool)
    requires Inv(s) && w in s.watch && w.result.Some? && OnTrack(s, w.job, ok)
    ensures OnTrack(DoFinalize(s, w, now), w.job, ok)
  {
    ResultFacts(s, w);
    WatchdogOwnsSlot(s, w);
    FinalizedStatus(s.sch, w, s.tasks[w.job].pc.InFlight?, now);
    hide Inv, Finalize, StillOwns;
    FinalizeMoves(s, w, now);
  }

  lemma FinalizeMoves(s: Sys, w: Watchdog, now: Time)
    requires w in s.watch && w.result.Some? && w.job in s.tasks
    ensures
      var (s', alive) := (DoFinalize(s, w, now), s.tasks[w.job].pc.InFlight?);
      && s'.sch == Finalize(s.sch, w.job, w.generation, alive, w.result.value, now)
      && s'.watch == s.watch - {w} && s'.used == s.used && w.job in s'.tasks
      && s'.tasks[w.job] == if alive then s.tasks[w.job].(pc := Returned(w.result.value, true)) else s.tasks[w.job]
  {
    hide Finalize;
  }

  lemma FinalizedStatus(s: SchedState, w: Watchdog, alive: bool, now: Time)
    requires w.result.Some? && StillOwns(s, w.job, w.generation)
    ensures
      var s' := Finalize(s, w.job, w.generation, alive, w.result.value, now);
      && s'.jobs.Keys == s.jobs.Keys
      && (w.job in s.jobs && s.jobs[w.job].status == Running ==>
            s'.jobs[w.job].status == if alive then Running else Failed)
  {
  }

  lemma OwnDispatchKeepsTrack(s: Sys, a: Action, t: Id, ok: bool)
    requires Inv(s) && Enabled(s, a) && OnTrack(s, t, ok) && Subject(a) == Some(t) && a.IsDispatch()
    ensures OnTrack(Core(s, a), t, ok)
  {
    if a.WatchdogFinalize? {
      FinalizeKeepsTrack(s, a.w, a.now, ok);
    } else {
      assert a == Cancel(t);
      TaskFacts(s, t);
    }
  }

  lemma OwnRequestIsOver(s: Sys, a: Action, t: Id, ok: bool)
    requires Inv(s) && Enabled(s, a) && OnTrack(s, t, ok) && Subject(a) == Some(t)
    ensures !a.IsRequest()
  {
    TaskFacts(s, t);
    hide Inv;
  }

  /** The step moves task `t` to where `ok` leads, and touches no watchdog. */
  ghost predicate MovesOn(s: Sys, s': Sys, t: Id, ok: bool) {
    && s'.watch == s.watch && s.used <= s'.used && t in s.tasks && t in s'.tasks
    && s'.tasks == s.tasks[t := s.tasks[t].(pc := s'.tasks[t].pc)] && Knows(s'.tasks[t], ok)
    && (t in s'.sch.jobs ==> Suits(s'.tasks[t].pc, ok, s'.sch.jobs[t].status))
  }

  /** Completion and failure follow the result. */
  lemma OwnEndMovesOn(s: Sys, a: Action, t: Id, ok: bool)
    requires Enabled(s, a) && Follows(s, t, ok) && Subject(a) == Some(t)
    requires a.Complete? || a.Fail? || a.PatchComplete?
    ensures MovesOn(s, Core(s, a), t, ok)
  {
  }

  lemma OwnRestMovesOn(s: Sys, a: Action, t: Id, ok: bool)
    requires Enabled(s, a) && Follows(s, t, ok) && Subject(a) == Some(t)
    requires a.DeleteTracking? || a.Release? || a.PatchDecide?
    ensures MovesOn(s, Core(s, a), t, ok)
  {
  }

  /** The critical sections of a reboot leave a dispatched job alone, except for marking it. */
  lemma RebootSections(s: SchedState, t: Id, r: Id, id: Id, reason: string, now: Time, boot: Option<string>)
    requires s.rebootPending != Some(t) && id != t
    requires t in s.jobs ==> s.jobs[t].status != Pending
    ensures
      && SameStatus(s, ReserveReboot(s, id, true, false, now, boot).0, t)
      && SameStatus(s, BeginRebootExecution(s, r).0, t)
      && SameStatus(s, RollbackReboot(s, r, Some(reason), now).0, t)
      && (t in SetJobRebooting(s, t).0.jobs ==>
            && t in s.jobs
            && SetJobRebooting(s, t).0.jobs[t].status
               == if s.jobs[t].status == Running then Rebooting else s.jobs[t].status)
  {
  }

  predicate SameStatus(s: SchedState, s': SchedState, t: Id) {
    t in s'.jobs ==> t in s.jobs && s'.jobs[t].status == s.jobs[t].status
  }

  lemma OwnReservationMovesOn(s: Sys, a: Action, t: Id, ok: bool)
    requires Enabled(s, a) && Follows(s, t, ok) && t in s.used && s.sch.rebootPending != Some(t)
    requires a.PatchReserve? && a.t == t
    ensures MovesOn(s, Core(s, a), t, ok)
  {
    hide ReserveReboot;
    RebootSections(s.sch, t, 0, a.id, "", a.now, a.boot);
  }

  lemma OwnMarkMovesOn(s: Sys, t: Id, ok: bool)
    requires Enabled(s, PatchMark(t)) && Follows(s, t, ok) && s.sch.rebootPending != Some(t)
    ensures MovesOn(s, Core(s, PatchMark(t)), t, ok)
  {
    hide SetJobRebooting;
    RebootSections(s.sch, t, t, t + 1, "", 0, None);
  }

  lemma OwnBeginMovesOn(s: Sys, t: Id, ok: bool)
    requires Enabled(s, Begin(t)) && Follows(s, t, ok) && s.sch.rebootPending != Some(t)
    ensures MovesOn(s, Core(s, Begin(t)), t, ok)
  {
    hide BeginRebootExecution;
    RebootSections(s.sch, t, s.tasks[t].pc.r, t + 1, "", 0, None);
  }

  lemma OwnCommandMovesOn(s: Sys, t: Id, done: bool, ok: bool)
    requires Enabled(s, Command(t, done)) && Follows(s, t, ok)
    ensures MovesOn(s, Core(s, Command(t, done)), t, ok)
  {
  }

  lemma RolledBackMoves(s: Sys, t: Id, r: Id, reason: string, now: Time)
    requires s.sch.rebootPending != Some(t) && (t in s.sch.jobs ==> s.sch.jobs[t].status != Pending)
    ensures
      var s' := RolledBack(s, r, reason, now);
      && s'.tasks == s.tasks && s'.watch == s.watch && s'.used == s.used && SameStatus(s.sch, s'.sch, t)
  {
    hide RollbackReboot;
    RebootSections(s.sch, t, r, t + 1, reason, now, None);
  }

  lemma OwnRollbackMovesOn(s: Sys, t: Id, reason: string, now: Time, ok: bool)
    requires Enabled(s, RollBack(t, reason, now)) && Follows(s, t, ok) && s.sch.rebootPending != Some(t)
    ensures MovesOn(s, Core(s, RollBack(t, reason, now)), t, ok)
  {
    hide RolledBack;
    RolledBackMoves(s, t, s.tasks[t].pc.r, reason, now);
  }

  lemma OwnGuardDropMovesOn(s: Sys, t: Id, now: Time, ok: bool)
    requires Enabled(s, DropRebootGuard(t, now)) && Follows(s, t, ok) && s.sch.rebootPending != Some(t)
    ensures MovesOn(s, Core(s, DropRebootGuard(t, now)), t, ok)
  {
    hide RolledBack, GUARD_DROPPED;
    RolledBackMoves(s, t, s.tasks[t].pc.r, GUARD_DROPPED, now);
  }

  lemma OwnRebootMovesOn(s: Sys, a: Action, t: Id, ok: bool)
    requires Enabled(s, a) && Follows(s, t, ok) && t in s.used && s.sch.rebootPending != Some(t)
    requires Subject(a) == Some(t) && a.IsReboot()
    ensures MovesOn(s, Core(s, a), t, ok)
  {
    hide Core, Enabled, Follows, MovesOn;
    match a
    case PatchReserve(_, _, _, _) => OwnReservationMovesOn(s, a, t, ok);
    case PatchMark(_) => OwnMarkMovesOn(s, t, ok);
    case Begin(_) => OwnBeginMovesOn(s, t, ok);
    case Command(_, done) => OwnCommandMovesOn(s, t, done, ok);
    case RollBack(_, reason, now) => OwnRollbackMovesOn(s, t, reason, now, ok);
    case DropRebootGuard(_, now) => OwnGuardDropMovesOn(s, t, now, ok);
  }

  lemma OwnOutcomeMovesOn(s: Sys, a: Action, t: Id, ok: bool)
    requires Enabled(s, a) && Follows(s, t, ok) && t in s.used && s.sch.rebootPending != Some(t)
    requires Subject(a) == Some(t) && a.IsOutcome()
    ensures MovesOn(s, Core(s, a), t, ok)
  {
    hide Core, Enabled, Follows, MovesOn;
    if a.IsReboot() {
      OwnRebootMovesOn(s, a, t, ok);
    } else if a.Complete? || a.Fail? || a.PatchComplete? {
      OwnEndMovesOn(s, a, t, ok);
    } else {
      OwnRestMovesOn(s, a, t, ok);
    }
  }

  lemma UnwatchedUnlessWaiting(s: Sys, t: Id)
    requires Inv(s) && t in s.tasks && !s.tasks[t].pc.InFlight? && s.tasks[t].pc != Dropped
    ensures Unwatched(s, t)
  {
  }

  lemma TrackFollows(s: Sys, t: Id, ok: bool)
    requires Inv(s) && OnTrack(s, t, ok)
    ensures Follows(s, t, ok) && s.sch.rebootPending != Some(t)
  {
    TaskFacts(s, t);
  }

  lemma OwnOutcomeNeedsNoWatchdog(s: Sys, a: Action, t: Id)
    requires Enabled(s, a) && Subject(a) == Some(t) && a.IsOutcome()
    ensures t in s.tasks && !s.tasks[t].pc.InFlight? && s.tasks[t].pc != Dropped
  {
  }

  lemma OwnOutcomeKeepsTrack(s: Sys, a: Action, t: Id, ok: bool)
    requires Inv(s) && Enabled(s, a) && OnTrack(s, t, ok) && Subject(a) == Some(t) && a.IsOutcome()
    ensures OnTrack(Core(s, a), t, ok)
  {
    TrackFollows(s, t, ok);
    OwnOutcomeNeedsNoWatchdog(s, a, t);
    UnwatchedUnlessWaiting(s, t);
    hide Inv, Core, Enabled, Follows;
    OwnOutcomeMovesOn(s, a, t, ok);
  }

  lemma NotifyKeepsTrack(s: Sys, wake: Id, t: Id, ok: bool)
    requires OnTrack(s, t, ok)
    ensures OnTrack(NotifyOne(s, wake), t, ok)
  {
  }

  lemma StepKeepsTrack(s: Sys, step: Step, t: Id, ok: bool)
    requires Inv(s) && Permissible(s, step) && OnTrack(s, t, ok)
    ensures OnTrack(Apply(s, step), t, ok)
  {
    var a := step.action;
    hide Inv, Core, Enabled, Notifies, OnTrack;
    if Subject(a) != Some(t) {
      OtherStepKeepsTrack(s, step, t, ok);
    } else if a.IsDispatch() {
      OwnDispatchKeepsTrack(s, a, t, ok);
    } else {
      OwnRequestIsOver(s, a, t, ok);
      OwnOutcomeKeepsTrack(s, a, t, ok);
    }
    NotifyKeepsTrack(Core(s, a), step.wake, t, ok);
  }

  // ------------------------------------------------------ from result to status

  /** The caller of job `t` is dropped before step `i`. */
  ghost predicate WasDropped(steps: seq<Step>, i: nat, t: Id) {
    exists m :: 0 <= m < i <= |steps| && steps[m].action == Cancel(t)
  }

  lemma DroppedStep(s: Sys, step: Step, t: Id)
    requires Permissible(s, step) && step.action != Cancel(t)
    requires At(Apply(s, step), t, {Dropped})
    ensures At(s, t, {Dropped})
  {
    var a := step.action;
    if Subject(a) == Some(t) {
      OwnStepDropsNobody(s, a, t);
    } else if t in s.tasks {
      hide Core, Enabled;
      OnlySubjectMoves(s, a, t);
    } else {
      NewTasksAreNotDropped(s, a, t);
    }
  }

  lemma OwnStepDropsNobody(s: Sys, a: Action, t: Id)
    requires Enabled(s, a) && Subject(a) == Some(t) && a != Cancel(t)
    ensures At(Core(s, a), t, {Dropped}) ==> At(s, t, {Dropped})
  {
    hide TryAcquire, Finalize, AdmitJob, TryReserveSelfUpdate, ReserveReboot, DropSelfUpdateGuard,
         DeleteJob, CompleteJob, FailJob, FailJobWithDiagnostics, ReleaseSelfUpdate, SetJobRebooting,
         BeginRebootExecution, RollbackReboot;
  }

  lemma NewTasksAreNotDropped(s: Sys, a: Action, t: Id)
    requires Enabled(s, a) && t !in s.tasks
    ensures !At(Core(s, a), t, {Dropped})
  {
  }

  lemma {:induction false} DroppedWasDropped(states: seq<Sys>, steps: seq<Step>, i: nat, t: Id)
    requires IsRun(states, steps) && i < |states| && At(states[i], t, {Dropped})
    ensures WasDropped(steps, i, t)
    decreases i
  {
    hide IsRun, Apply, Permissible;
    var launch := RunStart(states, steps);
    if i > 0 {
      RunStep(states, steps, i - 1);
      if steps[i - 1].action != Cancel(t) {
        DroppedStep(states[i - 1], steps[i - 1], t);
        DroppedWasDropped(states, steps, i - 1, t);
      }
    }
  }

  lemma {:induction false} TrackAlongRun(states: seq<Sys>, steps: seq<Step>, m: nat, i: nat, t: Id, ok: bool)
    requires IsRun(states, steps) && m < i < |states| && Gives(steps[m].action, t, ok)
    ensures OnTrack(states[i], t, ok)
    decreases i
  {
    hide IsRun, Apply, Permissible, Inv, OnTrack;
    RunLength(states, steps);
    RunStep(states, steps, i - 1);
    RunKeeps(states, steps, i - 1);
    if i == m + 1 {
      ResultPutsOnTrack(states[m], steps[m], t, ok);
    } else {
      TrackAlongRun(states, steps, m, i - 1, t, ok);
      StepKeepsTrack(states[i - 1], steps[i - 1], t, ok);
    }
  }

  lemma TrackMeans(s: Sys, t: Id, ok: bool)
    requires Inv(s) && OnTrack(s, t, ok) && t in s.sch.jobs
    ensures
      var status := s.sch.jobs[t].status;
      && (status == Running || status == Rebooting || status == Completed || status == Failed)
      && (ok && status == Failed ==> At(s, t, {Dropped}))
      && (!ok ==> status == Running || status == Failed)
      && (At(s, t, {Done}) ==> status == if ok then Completed else Failed)
      && (At(s, t, {Dropped}) ==> status == Running || status == Failed)
  {
    TaskFacts(s, t);
    hide Inv;
  }

  /**
   * The result of a closure decides how its job ends, for every kind of task:
   * after a success the job never ends Failed unless its caller was dropped,
   * and after a failure or an elapsed backstop it never ends Completed.  When
   * the task is over, the job, if it is still there, has ended accordingly.
   */
  lemma ResultDecides(states: seq<Sys>, steps: seq<Step>, m: nat, i: nat, t: Id, ok: bool)
    requires IsRun(states, steps) && m < i < |states| && Gives(steps[m].action, t, ok)
    ensures t in states[i].sch.jobs ==>
              var status := states[i].sch.jobs[t].status;
              && (status == Running || status == Rebooting || status == Completed || status == Failed)
              && (ok && status == Failed ==> WasDropped(steps, i, t))
              && (!ok ==> status == Running || status == Failed)
    ensures At(states[i], t, {Done}) && t in states[i].sch.jobs ==>
              states[i].sch.jobs[t].status == if ok then Completed else Failed
    ensures At(states[i], t, {Dropped}) && t in states[i].sch.jobs ==>
              states[i].sch.jobs[t].status == Running || states[i].sch.jobs[t].status == Failed
  {
    hide IsRun, Inv, OnTrack;
    RunLength(states, steps);
    TrackAlongRun(states, steps, m, i, t, ok);
    RunKeeps(states, steps, i);
    if t in states[i].sch.jobs {
      TrackMeans(states[i], t, ok);
    }
    if At(states[i], t, {Dropped}) {
      DroppedWasDropped(states, steps, i, t);
    }
  }
}
