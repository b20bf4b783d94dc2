/**
 * Every status a job gets on a run has its cause before it, what a reboot
 * command leads to, and what a finished task leaves behind.
 */
module Causes {
  import opened Wrappers
  import opened Jobs
  import opened SchedulerState
  import opened SchedulerLaws
  import opened SchedulerAnswers
  import opened Tasks
  import opened TaskInvariant
  import opened TaskSteps
  import opened TaskTheorems
  import opened TaskLimits
  import opened Abandonment
  import opened Outcomes

  // ------------------------------------------------------ from status to cause

  /** What has happened to job `t` so far. */
  datatype Past = Past(gaveOk: bool, gaveErr: bool, refused: bool, dropped: bool, commandFailed: bool, decided: bool)

  /** A dispatch of job `t` is turned away: admission is not open, or something else is reserved. */
  predicate IsRefused(s: SchedState, t: Id) {
    s.admission != Open || s.rebootPending.Some? || (s.selfUpdate.Some? && s.selfUpdate != Some(t))
  }

  function Later(past: Past, s: Sys, a: Action, t: Id): Past {
    Past(past.gaveOk || Gives(a, t, true),
         past.gaveErr || Gives(a, t, false),
         past.refused || (a == Dispatch(t) && IsRefused(s.sch, t)),
         past.dropped || a == Cancel(t),
         past.commandFailed || a == Command(t, false),
         past.decided || a == PatchDecide(t, true))
  }

  function PastOf(states: seq<Sys>, steps: seq<Step>, i: nat, t: Id): Past
    requires i <= |steps| <= |states|
    decreases i
  {
    if i == 0 then Past(false, false, false, false, false, false)
    else Later(PastOf(states, steps, i - 1, t), states[i - 1], steps[i - 1].action, t)
  }

  /** Where task `t` stands, its past explains. */
  predicate Explains(past: Past, task: Task) {
    match task.pc
    case Returned(ok, ran) => if !ran then past.refused else if ok then past.gaveOk else past.gaveErr
    case Dropped => past.dropped
    case Reserving => past.gaveOk && past.decided
    case Marking(_) => past.gaveOk && past.decided
    case Completing(_) => past.gaveOk
    case RollingBack(_) => past.commandFailed
    case _ => true
  }

  /** A patch task on its way to a reboot has succeeded. */
  predicate TaskExplained(past: Past, task: Task) {
    Explains(past, task) && (task.kind == Patch && Late(task.pc) ==> past.gaveOk)
  }

  /** Between the reservation of a patch task's reboot and its end. */
  predicate Late(pc: Pc) {
    pc.Beginning? || pc.Commanding? || pc.RollingBack? || pc.AwaitingReboot?
  }

  ghost predicate ResultsExplained(past: Past, watch: set<Watchdog>, t: Id) {
    forall w :: w in watch && w.job == t && w.result.Some? ==> if w.result.value then past.gaveOk else past.gaveErr
  }

  /** So are the results its watchdog holds. */
  ghost predicate Explained(s: Sys, t: Id, past: Past) {
    (t in s.tasks ==> TaskExplained(past, s.tasks[t])) && ResultsExplained(past, s.watch, t)
  }

  lemma WatchIsExplained(s: Sys, a: Action, t: Id, past: Past)
    requires Enabled(s, a) && IsWatch(a) && ResultsExplained(past, s.watch, t)
    ensures ResultsExplained(Later(past, s, a, t), Core(s, a).watch, t)
  {
    hide Finalize;
  }

  lemma ResultsStayExplained(s: Sys, a: Action, t: Id, past: Past)
    requires Enabled(s, a) && ResultsExplained(past, s.watch, t)
    ensures ResultsExplained(Later(past, s, a, t), Core(s, a).watch, t)
  {
    hide Core, Enabled, IsRefused;
    if IsWatch(a) {
      WatchIsExplained(s, a, t, past);
    } else if a.IsDispatch() {
      DispatchKeepsWatch(s, a);
    } else if a.IsRequest() {
      RequestKeepsWatch(s, a);
    } else {
      OutcomeKeepsWatch(s, a);
    }
  }

  lemma PastOnlyGrows(past: Past, s: Sys, a: Action, t: Id, task: Task)
    requires TaskExplained(past, task)
    ensures TaskExplained(Later(past, s, a, t), task)
  {
    hide IsRefused, Gives;
  }

  lemma OthersAddNoTask(s: Sys, a: Action, t: Id)
    requires Enabled(s, a) && Subject(a) != Some(t) && t !in s.tasks
    ensures t !in Core(s, a).tasks
  {
    hide Core, Enabled;
    if a.IsRequest() {
      OtherRequestAddsNoTask(s, a, t);
    } else if a.IsDispatch() {
      DispatchAddsNoTasks(s, a, t);
    } else if a.IsReboot() {
      RebootAddsNoTasks(s, a, t);
    } else {
      OutcomeAddsNoTasks(s, a, t);
    }
  }

  lemma OtherRequestAddsNoTask(s: Sys, a: Action, t: Id)
    requires Enabled(s, a) && a.IsRequest() && Subject(a) != Some(t) && t !in s.tasks
    ensures t !in Core(s, a).tasks
  {
    hide AdmitJob, CreateRollbackJob, TryReserveSelfUpdate, ReserveReboot, DropSelfUpdateGuard, DeleteJob;
  }

  lemma OtherTaskStaysExplained(s: Sys, a: Action, t: Id, past: Past)
    requires Enabled(s, a) && Subject(a) != Some(t) && (t in s.tasks ==> TaskExplained(past, s.tasks[t]))
    ensures t in Core(s, a).tasks ==> TaskExplained(Later(past, s, a, t), Core(s, a).tasks[t])
  {
    hide Core, Enabled, TaskExplained, Later;
    if t in s.tasks {
      OnlySubjectMoves(s, a, t);
      PastOnlyGrows(past, s, a, t, s.tasks[t]);
    } else {
      OthersAddNoTask(s, a, t);
    }
  }

  lemma DispatchIsExplained(s: Sys, t: Id, past: Past)
    requires Enabled(s, Dispatch(t)) && TaskExplained(past, s.tasks[t])
    ensures TaskExplained(Later(past, s, Dispatch(t), t), DoDispatch(s, t).tasks[t])
  {
    DispatchIsExact(s.sch, t);
    hide TryAcquire, RunningIds, InProgress;
  }

  lemma FinalizationIsExplained(s: Sys, w: Watchdog, now: Time, past: Past)
    requires w in s.watch && w.result.Some? && ResultsExplained(past, s.watch, w.job)
    requires w.job in s.tasks ==> TaskExplained(past, s.tasks[w.job])
    ensures w.job in DoFinalize(s, w, now).tasks ==> TaskExplained(past, DoFinalize(s, w, now).tasks[w.job])
  {
    hide Finalize;
  }

  lemma OwnDispatchIsExplained(s: Sys, a: Action, t: Id, past: Past)
    requires Enabled(s, a) && Subject(a) == Some(t) && a.IsDispatch() && Explained(s, t, past)
    ensures t in Core(s, a).tasks ==> TaskExplained(Later(past, s, a, t), Core(s, a).tasks[t])
  {
    if a.Dispatch? {
      DispatchIsExplained(s, t, past);
    } else if a.WatchdogFinalize? {
      FinalizationIsExplained(s, a.w, a.now, past);
    } else {
      hide Explained;
    }
  }

  lemma RequestLeads(s: Sys, a: Action, t: Id)
    requires Enabled(s, a) && Subject(a) == Some(t) && a.IsRequest()
    requires t in s.tasks ==> KindOk(s.tasks[t].kind, s.tasks[t].pc)
    ensures t in Core(s, a).tasks ==>
              var task := Core(s, a).tasks[t];
              || (t in s.tasks && task == s.tasks[t])
              || task.pc.Queued? || task.pc.Guarded? || task.pc.Reserved? || task.pc.Done?
              || (task.pc.Beginning? && task.kind == Restart)
  {
    hide AdmitJob, CreateRollbackJob, TryReserveSelfUpdate, ReserveReboot, DropSelfUpdateGuard, DeleteJob;
  }

  lemma OwnRequestIsExplained(s: Sys, a: Action, t: Id, past: Past)
    requires Enabled(s, a) && Subject(a) == Some(t) && a.IsRequest()
    requires t in s.tasks ==> TaskExplained(past, s.tasks[t]) && KindOk(s.tasks[t].kind, s.tasks[t].pc)
    ensures t in Core(s, a).tasks ==> TaskExplained(Later(past, s, a, t), Core(s, a).tasks[t])
  {
    RequestLeads(s, a, t);
    hide Core, Enabled, Later;
    if t in s.tasks {
      PastOnlyGrows(past, s, a, t, s.tasks[t]);
    }
  }

  lemma OwnRebootIsExplained(s: Sys, a: Action, t: Id, past: Past)
    requires Enabled(s, a) && Subject(a) == Some(t) && a.IsReboot()
    requires t in s.tasks && TaskExplained(past, s.tasks[t]) && KindOk(s.tasks[t].kind, s.tasks[t].pc)
    ensures t in Core(s, a).tasks ==> TaskExplained(Later(past, s, a, t), Core(s, a).tasks[t])
  {
    hide ReserveReboot, SetJobRebooting, BeginRebootExecution, RolledBack, GUARD_DROPPED, IsRefused;
    if a.RollBack? || a.DropRebootGuard? {
      RolledBackKeepsTasks(s, s.tasks[t].pc.r, if a.RollBack? then a.reason else GUARD_DROPPED, a.now);
    }
  }

  lemma RolledBackKeepsTasks(s: Sys, r: Id, reason: string, now: Time)
    ensures RolledBack(s, r, reason, now).tasks == s.tasks
  {
  }

  lemma DecisionIsExplained(s: Sys, t: Id, reboot: bool, past: Past)
    requires Enabled(s, PatchDecide(t, reboot)) && TaskExplained(past, s.tasks[t])
    requires KindOk(s.tasks[t].kind, s.tasks[t].pc)
    ensures TaskExplained(Later(past, s, PatchDecide(t, reboot), t), Core(s, PatchDecide(t, reboot)).tasks[t])
  {
  }

  lemma OutcomeLeads(s: Sys, a: Action, t: Id)
    requires Enabled(s, a) && Subject(a) == Some(t) && a.IsOutcome() && !a.IsReboot() && !a.PatchDecide?
    ensures t in Core(s, a).tasks
    ensures
      var pc := Core(s, a).tasks[t].pc;
      pc.Deleting? || pc.Releasing? || pc.Done? || pc.DroppingGuard?
  {
    hide CompleteJob, FailJob, FailJobWithDiagnostics, DeleteJob, ReleaseSelfUpdate;
  }

  lemma OwnOutcomeIsExplained(s: Sys, a: Action, t: Id, past: Past)
    requires Enabled(s, a) && Subject(a) == Some(t) && a.IsOutcome() && !a.IsReboot()
    requires t in s.tasks && TaskExplained(past, s.tasks[t]) && KindOk(s.tasks[t].kind, s.tasks[t].pc)
    ensures t in Core(s, a).tasks ==> TaskExplained(Later(past, s, a, t), Core(s, a).tasks[t])
  {
    if a.PatchDecide? {
      DecisionIsExplained(s, t, a.reboot, past);
    } else {
      OutcomeLeads(s, a, t);
      hide Core, Enabled, Later;
    }
  }

  lemma NotifyKeepsExplained(s: Sys, wake: Id, t: Id, past: Past)
    requires Explained(s, t, past)
    ensures Explained(NotifyOne(s, wake), t, past)
  {
  }

  lemma StepIsExplained(s: Sys, step: Step, t: Id, past: Past)
    requires Inv(s) && Permissible(s, step) && Explained(s, t, past)
    ensures Explained(Apply(s, step), t, Later(past, s, step.action, t))
  {
    var a := step.action;
    if t in s.tasks {
      TaskFacts(s, t);
    }
    hide Inv, Core, Enabled, Notifies, Later, TaskExplained, ResultsExplained;
    ResultsStayExplained(s, a, t, past);
    if Subject(a) != Some(t) {
      OtherTaskStaysExplained(s, a, t, past);
    } else if a.IsRequest() {
      OwnRequestIsExplained(s, a, t, past);
    } else if a.IsDispatch() {
      OwnDispatchIsExplained(s, a, t, past);
    } else {
      OwnOutcomeNeedsNoWatchdog(s, a, t);
      if a.IsReboot() {
        OwnRebootIsExplained(s, a, t, past);
      } else {
        OwnOutcomeIsExplained(s, a, t, past);
      }
    }
    NotifyKeepsExplained(Core(s, a), step.wake, t, Later(past, s, a, t));
  }

  lemma {:induction false} ExplainedAlongRun(states: seq<Sys>, steps: seq<Step>, i: nat, t: Id)
    requires IsRun(states, steps) && i < |states|
    ensures |states| == |steps| + 1 && Explained(states[i], t, PastOf(states, steps, i, t))
    decreases i
  {
    hide IsRun, Apply, Permissible, Inv, Later;
    var launch := RunStart(states, steps);
    if i > 0 {
      hide Explained;
      ExplainedAlongRun(states, steps, i - 1, t);
      RunKeeps(states, steps, i - 1);
      RunStep(states, steps, i - 1);
      StepIsExplained(states[i - 1], steps[i - 1], t, PastOf(states, steps, i - 1, t));
    }
  }

  // ------------------------------------------------- the causes of a status

  /** A job that appears is Pending. */
  lemma JobsAppearPending(s: SchedState, c: Call, k: Id)
    requires FromTask(c) && k !in s.jobs && k in Exec(s, c).jobs
    ensures Exec(s, c).jobs[k].status == Pending
  {
  }

  /** The calls by which job `k` gets a new status. */
  lemma StatusHasCall(s: Sys, step: Step, k: Id)
    requires Inv(s) && Permissible(s, step)
    requires k in Apply(s, step).sch.jobs
    requires k in s.sch.jobs ==> s.sch.jobs[k].status != Apply(s, step).sch.jobs[k].status
    ensures
      var status := Apply(s, step).sch.jobs[k].status;
      if k !in s.sch.jobs then status == Pending
      else CallOf(s, step.action).Some? && status == StatusAfter(s.sch, CallOf(s, step.action).value, k)
  {
    var a := step.action;
    StepsAreCalls(s, step);
    TaskCallsOnly(s, a);
    NewIdsAreFresh(s, a);
    TasksAreUsed(s);
    hide Inv, Apply, Permissible, Exec, StatusAfter;
    if CallOf(s, a).Some? {
      var c := CallOf(s, a).value;
      if k in s.sch.jobs {
        StatusesChangeExactly(s.sch, c, k);
      } else {
        JobsAppearPending(s.sch, c, k);
      }
    }
  }

  lemma CompletionHasCause(s: Sys, a: Action, k: Id, past: Past)
    requires Enabled(s, a) && k in s.sch.jobs && s.sch.jobs[k].status != Completed
    requires CallOf(s, a).Some? && StatusAfter(s.sch, CallOf(s, a).value, k) == Completed
    requires Explained(s, k, past) && (k in s.tasks ==> KindOk(s.tasks[k].kind, s.tasks[k].pc))
    ensures past.gaveOk && (a.Complete? || a.PatchComplete?) && a.t == k
  {
    hide TryAcquire, RebootRefusal, InProgress;
  }

  lemma StaleGuardEndsNothing(s: Sys, a: Action)
    requires Inv(s) && Enabled(s, a) && a.DropRebootGuard?
    ensures s.sch.rebootPending != Some(s.tasks[a.t].pc.r)
  {
    DroppedGuardIsStale(s, a.t, a.now);
  }

  /** The watchdog's own caller is gone. */
  lemma AbandonedWasDropped(s: Sys, w: Watchdog)
    requires Inv(s) && w in s.watch && !(w.job in s.tasks && s.tasks[w.job].pc.InFlight?)
    ensures At(s, w.job, {Dropped})
  {
    ResultFacts(s, w);
  }

  lemma FailureHasCall(s: Sys, a: Action, k: Id)
    requires Enabled(s, a) && k in s.sch.jobs && s.sch.jobs[k].status != Failed
    requires CallOf(s, a).Some? && StatusAfter(s.sch, CallOf(s, a).value, k) == Failed
    ensures
      || (a.Fail? && a.t == k)
      || ReservesReboot(s, a)
      || (a.WatchdogFinalize? && a.w.job == k && !(k in s.tasks && s.tasks[k].pc.InFlight?))
      || ((a.RollBack? || a.DropRebootGuard?) && s.sch.rebootPending == Some(k) && s.tasks[a.t].pc.r == k)
  {
    hide TryAcquire, RebootRefusal, InProgress;
  }

  lemma FailureHasCause(s: Sys, a: Action, k: Id, past: Past)
    requires Inv(s) && Enabled(s, a) && k in s.sch.jobs && s.sch.jobs[k].status != Failed
    requires CallOf(s, a).Some? && StatusAfter(s.sch, CallOf(s, a).value, k) == Failed
    requires Explained(s, k, past)
    ensures
      || past.gaveErr || past.refused || ReservesReboot(s, a)
      || (past.dropped && a.WatchdogFinalize? && a.w.job == k)
      || (a.RollBack? && s.sch.rebootPending == Some(k))
  {
    FailureHasCall(s, a, k);
    if a.Fail? {
      hide Inv;
    } else if a.WatchdogFinalize? && a.w.job == k && !(k in s.tasks && s.tasks[k].pc.InFlight?) {
      AbandonedWasDropped(s, a.w);
      hide Inv;
    } else if a.DropRebootGuard? {
      StaleGuardEndsNothing(s, a);
      hide Inv;
    }
  }

  lemma RebootingHasCause(s: Sys, a: Action, k: Id, past: Past)
    requires Enabled(s, a) && k in s.sch.jobs && s.sch.jobs[k].status != Rebooting
    requires CallOf(s, a).Some? && StatusAfter(s.sch, CallOf(s, a).value, k) == Rebooting
    requires Explained(s, k, past)
    ensures (a == PatchMark(k) && past.gaveOk && past.decided) || (a.Begin? && s.sch.rebootPending == Some(k))
  {
    hide TryAcquire, RebootRefusal, InProgress;
  }

  lemma OtherStatusesHaveCause(s: Sys, a: Action, k: Id)
    requires Enabled(s, a) && k in s.sch.jobs && CallOf(s, a).Some?
    requires s.sch.jobs[k].status != StatusAfter(s.sch, CallOf(s, a).value, k)
    ensures
      var status := StatusAfter(s.sch, CallOf(s, a).value, k);
      && (status == Running ==> a == Dispatch(k) && TryAcquire(s.sch, k).1.Acquired?)
      && status != Pending && status != Cancelled && status != TimedOut
  {
    hide TryAcquire, RebootRefusal, InProgress;
  }

  /** Some earlier step of the run was the action described. */
  ghost predicate Gave(steps: seq<Step>, i: nat, k: Id, ok: bool) {
    exists m :: 0 <= m < i <= |steps| && Gives(steps[m].action, k, ok)
  }

  ghost predicate WasRefused(states: seq<Sys>, steps: seq<Step>, i: nat, k: Id) {
    exists m :: 0 <= m < i <= |steps| <= |states| && steps[m].action == Dispatch(k) && IsRefused(states[m].sch, k)
  }

  ghost predicate Happened(steps: seq<Step>, i: nat, a: Action) {
    exists m :: 0 <= m < i <= |steps| && steps[m].action == a
  }

  lemma {:induction false} PastMeans(states: seq<Sys>, steps: seq<Step>, i: nat, k: Id)
    requires i <= |steps| <= |states|
    ensures
      var past := PastOf(states, steps, i, k);
      && (past.gaveOk ==> Gave(steps, i, k, true)) && (past.gaveErr ==> Gave(steps, i, k, false))
      && (past.refused ==> WasRefused(states, steps, i, k)) && (past.dropped ==> WasDropped(steps, i, k))
      && (past.commandFailed ==> Happened(steps, i, Command(k, false)))
      && (past.decided ==> Happened(steps, i, PatchDecide(k, true)))
    decreases i
  {
    hide Gives, IsRefused;
    if i > 0 {
      PastMeans(states, steps, i - 1, k);
      PastStays(states, steps, i - 1, k);
      var a := steps[i - 1].action;
      assert PastOf(states, steps, i, k) == Later(PastOf(states, steps, i - 1, k), states[i - 1], a, k);
    }
  }

  lemma PastStays(states: seq<Sys>, steps: seq<Step>, i: nat, k: Id)
    requires i < |steps| <= |states|
    ensures Gave(steps, i, k, true) ==> Gave(steps, i + 1, k, true)
    ensures Gave(steps, i, k, false) ==> Gave(steps, i + 1, k, false)
    ensures WasRefused(states, steps, i, k) ==> WasRefused(states, steps, i + 1, k)
    ensures WasDropped(steps, i, k) ==> WasDropped(steps, i + 1, k)
    ensures forall a :: Happened(steps, i, a) ==> Happened(steps, i + 1, a)
  {
    hide Gives, IsRefused;
  }

  lemma RollbackStands(s: Sys, step: Step)
    requires Permissible(s, step) && step.action.RollBack?
    ensures step.action.t in s.tasks && s.tasks[step.action.t].pc.RollingBack?
  {
    hide Core, Notifies;
  }

  lemma RollbackWasOrdered(states: seq<Sys>, steps: seq<Step>, i: nat)
    requires IsRun(states, steps) && i < |steps| && steps[i].action.RollBack?
    ensures Happened(steps, i, Command(steps[i].action.t, false))
  {
    hide IsRun, Apply, Permissible;
    var t := steps[i].action.t;
    RunLength(states, steps);
    RunStep(states, steps, i);
    RollbackStands(states[i], steps[i]);
    ExplainedAlongRun(states, steps, i, t);
    PastMeans(states, steps, i, t);
  }

  /**
   * Every new status of a job on a run has its cause before it: Completed, a
   * successful exit of the job's own closure; Failed, a failed exit or an
   * elapsed backstop of it, a dispatch that was turned away, a caller that was
   * dropped, a reboot that is being reserved, or one whose command failed and
   * that is rolled back; Rebooting, the start of the reserved reboot or, after a
   * successful exit, the decision to reboot; Running, its own dispatch.
   */
  lemma StatusHasCause(states: seq<Sys>, steps: seq<Step>, i: nat, k: Id)
    requires IsRun(states, steps) && i < |steps| && k in states[i + 1].sch.jobs
    requires k in states[i].sch.jobs ==> states[i].sch.jobs[k].status != states[i + 1].sch.jobs[k].status
    ensures
      var (s, a) := (states[i], steps[i].action);
      match states[i + 1].sch.jobs[k].status
      case Pending => k !in s.sch.jobs
      case Running => a == Dispatch(k) && !IsRefused(s.sch, k)
      case Rebooting =>
        || (a.Begin? && s.sch.rebootPending == Some(k))
        || (a == PatchMark(k) && Gave(steps, i, k, true) && Happened(steps, i, PatchDecide(k, true)))
      case Completed => Gave(steps, i, k, true)
      case Failed =>
        || Gave(steps, i, k, false) || WasRefused(states, steps, i, k)
        || (a.WatchdogFinalize? && a.w.job == k && WasDropped(steps, i, k))
        || ReservesReboot(s, a)
        || (a.RollBack? && s.sch.rebootPending == Some(k) && Happened(steps, i, Command(a.t, false)))
      case _ => false
  {
    var (s, step) := (states[i], steps[i]);
    RunKeeps(states, steps, i);
    RunStep(states, steps, i);
    ExplainedAlongRun(states, steps, i, k);
    PastMeans(states, steps, i, k);
    StatusHasCall(s, step, k);
    if k in s.tasks {
      TaskFacts(s, k);
    }
    if step.action.RollBack? {
      RollbackWasOrdered(states, steps, i);
    }
    if k in s.sch.jobs {
      CauseOf(s, step.action, k, PastOf(states, steps, i, k));
    }
    hide IsRun, Inv, Apply, Permissible, Explained, StatusAfter, ReservesReboot, IsRefused;
  }

  lemma CauseOf(s: Sys, a: Action, k: Id, past: Past)
    requires Inv(s) && Enabled(s, a) && k in s.sch.jobs && CallOf(s, a).Some? && Explained(s, k, past)
    requires s.sch.jobs[k].status != StatusAfter(s.sch, CallOf(s, a).value, k)
    ensures
      match StatusAfter(s.sch, CallOf(s, a).value, k)
      case Running => a == Dispatch(k) && !IsRefused(s.sch, k)
      case Rebooting =>
        (a.Begin? && s.sch.rebootPending == Some(k)) || (a == PatchMark(k) && past.gaveOk && past.decided)
      case Completed => past.gaveOk
      case Failed =>
        || past.gaveErr || past.refused || ReservesReboot(s, a)
        || (past.dropped && a.WatchdogFinalize? && a.w.job == k)
        || (a.RollBack? && s.sch.rebootPending == Some(k))
      case _ => false
  {
    if k in s.tasks {
      TaskFacts(s, k);
    }
    DispatchIsExact(s.sch, k);
    OtherStatusesHaveCause(s, a, k);
    hide Inv, Enabled, Explained, StatusAfter, TryAcquire, InProgress;
    match StatusAfter(s.sch, CallOf(s, a).value, k)
    case Completed => CompletionHasCause(s, a, k, past);
    case Failed => FailureHasCause(s, a, k, past);
    case Rebooting => RebootingHasCause(s, a, k, past);
    case _ =>
  }

  // ---------------------------------------------------------- reboot commands

  lemma CommandEffect(s: Sys, step: Step, t: Id, done: bool)
    requires Inv(s) && Permissible(s, step) && step.action == Command(t, done)
    ensures
      var (s', r) := (Apply(s, step), s.tasks[t].pc.r);
      && s.sch.rebootPending == Some(r) && t in s'.tasks
      && s'.tasks[t].pc == if done then AwaitingReboot(r) else RollingBack(r)
  {
    ReservationIsLive(s, t);
    hide Inv;
  }

  lemma WaitingRebootJob(s: Sys, t: Id)
    requires Inv(s) && t in s.tasks && s.tasks[t].pc.AwaitingReboot?
    ensures
      var r := s.tasks[t].pc.r;
      s.sch.rebootPending == Some(r) && r in s.sch.jobs && s.sch.jobs[r].status == Rebooting
  {
    ReservationIsLive(s, t);
  }

  /** After a successful reboot command the reservation and its Rebooting job stay for the rest of the run. */
  lemma SuccessfulCommandLasts(states: seq<Sys>, steps: seq<Step>, m: nat, i: nat, t: Id)
    requires IsRun(states, steps) && m < i < |states| && steps[m].action == Command(t, true)
    ensures states[m].sch.rebootPending.Some?
    ensures
      var r := states[m].sch.rebootPending.value;
      && states[i].sch.rebootPending == Some(r)
      && r in states[i].sch.jobs && states[i].sch.jobs[r].status == Rebooting
  {
    hide IsRun, Inv, Apply, Permissible;
    RunLength(states, steps);
    RunKeeps(states, steps, m);
    RunKeeps(states, steps, i);
    RunStep(states, steps, m);
    CommandEffect(states[m], steps[m], t, true);
    AwaitingRebootLasts(states, steps, m + 1, i, t);
    WaitingRebootJob(states[i], t);
  }

  /** A rollback follows a failed command, ends the reservation and fails its job with the reason given. */
  lemma RollbackEndsReservation(states: seq<Sys>, steps: seq<Step>, i: nat)
    requires IsRun(states, steps) && i < |steps| && steps[i].action.RollBack?
    ensures Happened(steps, i, Command(steps[i].action.t, false))
    ensures states[i].sch.rebootPending.Some? && states[i + 1].sch.rebootPending == None
    ensures
      var r := states[i].sch.rebootPending.value;
      && r in states[i + 1].sch.jobs && states[i + 1].sch.jobs[r].status == Failed
      && states[i + 1].sch.jobs[r].error == Some(steps[i].action.reason)
      && states[i + 1].sch.jobs[r].completedAt == Some(steps[i].action.now)
  {
    RollbackWasOrdered(states, steps, i);
    RunKeeps(states, steps, i);
    RunStep(states, steps, i);
    hide IsRun;
    RollbackEffect(states[i], steps[i]);
  }

  lemma RollbackEffect(s: Sys, step: Step)
    requires Inv(s) && Permissible(s, step) && step.action.RollBack?
    ensures s.sch.rebootPending.Some?
    ensures
      var (s', r) := (Apply(s, step), s.sch.rebootPending.value);
      && s'.sch.rebootPending == None && r in s'.sch.jobs && s'.sch.jobs[r].status == Failed
      && s'.sch.jobs[r].error == Some(step.action.reason) && s'.sch.jobs[r].completedAt == Some(step.action.now)
  {
    ReservationIsLive(s, step.action.t);
    hide Inv;
  }

  // ------------------------------------------------------------- tidy endings

  /** A refresh that is over has removed its job, and an update that is over has released its reservation. */
  predicate IsTidy(s: Sys, t: Id) {
    At(s, t, {Done}) ==>
      && (s.tasks[t].kind == Refresh ==> t !in s.sch.jobs)
      && (s.tasks[t].kind == Upgrade ==> s.sch.selfUpdate != Some(t))
  }

  lemma OtherCallKeepsTidy(s: SchedState, c: Call, t: Id)
    requires FromTask(c) && NewId(c) != Some(t)
    ensures t !in s.jobs ==> t !in Exec(s, c).jobs
    ensures s.selfUpdate != Some(t) ==> Exec(s, c).selfUpdate != Some(t)
  {
  }

  lemma OtherStepKeepsTidy(s: Sys, step: Step, t: Id)
    requires Inv(s) && Permissible(s, step) && Subject(step.action) != Some(t) && IsTidy(s, t)
    ensures IsTidy(Core(s, step.action), t)
  {
    var a := step.action;
    TasksAreUsed(s);
    NewIdsAreFresh(s, a);
    TaskCallsOnly(s, a);
    StepsAreCalls(s, step);
    hide Inv, Core, Enabled, Notifies, Exec, FromTask;
    if t in s.tasks {
      OnlySubjectMoves(s, a, t);
      if CallOf(s, a).Some? {
        OtherCallKeepsTidy(s.sch, CallOf(s, a).value, t);
      }
    } else {
      OthersAddNoTask(s, a, t);
    }
  }

  lemma OwnRequestIsTidy(s: Sys, a: Action, t: Id)
    requires Enabled(s, a) && Subject(a) == Some(t) && a.IsRequest()
    requires t in s.tasks ==> t in s.used && KindOk(s.tasks[t].kind, s.tasks[t].pc)
    ensures IsTidy(Core(s, a), t)
  {
    hide AdmitJob, CreateRollbackJob, TryReserveSelfUpdate, ReserveReboot, DeleteJob;
  }

  lemma OwnDispatchIsTidy(s: Sys, a: Action, t: Id)
    requires Enabled(s, a) && Subject(a) == Some(t) && a.IsDispatch() && (a.WatchdogFinalize? ==> !At(s, t, {Done}))
    ensures IsTidy(Core(s, a), t)
  {
    hide TryAcquire, Finalize;
  }

  lemma OwnRebootIsTidy(s: Sys, a: Action, t: Id)
    requires Enabled(s, a) && Subject(a) == Some(t) && a.IsReboot()
    requires KindOk(s.tasks[t].kind, s.tasks[t].pc)
    ensures IsTidy(Core(s, a), t)
  {
    hide ReserveReboot, SetJobRebooting, BeginRebootExecution, RollbackReboot, GUARD_DROPPED;
  }

  lemma OwnOutcomeIsTidy(s: Sys, a: Action, t: Id)
    requires Enabled(s, a) && Subject(a) == Some(t) && a.IsOutcome() && !a.IsReboot()
    requires KindOk(s.tasks[t].kind, s.tasks[t].pc)
    requires t in s.sch.jobs ==> StatusOk(s.tasks[t].kind, s.tasks[t].pc, s.sch.jobs[t].status)
    ensures IsTidy(Core(s, a), t)
  {
    hide CompleteJob, FailJob, FailJobWithDiagnostics;
  }

  lemma NotifyKeepsTidy(s: Sys, wake: Id, t: Id)
    requires IsTidy(s, t)
    ensures IsTidy(NotifyOne(s, wake), t)
  {
  }

  lemma StepKeepsTidy(s: Sys, step: Step, t: Id)
    requires Inv(s) && Permissible(s, step) && IsTidy(s, t)
    ensures IsTidy(Apply(s, step), t)
  {
    var a := step.action;
    TasksAreUsed(s);
    if t in s.tasks {
      TaskFacts(s, t);
    }
    if a.WatchdogFinalize? {
      ResultFacts(s, a.w);
    }
    hide Inv, Core, Enabled, Notifies, IsTidy;
    if Subject(a) != Some(t) {
      OtherStepKeepsTidy(s, step, t);
    } else if a.IsRequest() {
      OwnRequestIsTidy(s, a, t);
    } else if a.IsDispatch() {
      OwnDispatchIsTidy(s, a, t);
    } else {
      OwnOutcomeNeedsNoWatchdog(s, a, t);
      if a.IsReboot() {
        OwnRebootIsTidy(s, a, t);
      } else {
        OwnOutcomeIsTidy(s, a, t);
      }
    }
    NotifyKeepsTidy(Core(s, a), step.wake, t);
  }

  /** Whatever the closure returned: a refresh's tracking job goes, and a self-update lets go of its reservation. */
  lemma {:induction false} EndedTasksAreTidy(states: seq<Sys>, steps: seq<Step>, i: nat, t: Id)
    requires IsRun(states, steps) && i < |states|
    ensures IsTidy(states[i], t)
    decreases i
  {
    hide IsRun, Apply, Permissible, Inv;
    var launch := RunStart(states, steps);
    if i > 0 {
      hide IsTidy;
      EndedTasksAreTidy(states, steps, i - 1, t);
      RunKeeps(states, steps, i - 1);
      RunStep(states, steps, i - 1);
      StepKeepsTidy(states[i - 1], steps[i - 1], t);
    }
  }
}
