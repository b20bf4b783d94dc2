/**
 * Nothing gets stuck: what requests and tasks can always do, and that every
 * result can still be recorded.
 */
module Progress {
  import opened Wrappers
  import opened Jobs
  import opened SchedulerState
  import opened SchedulerAnswers
  import opened Tasks
  import opened TaskInvariant
  import opened TaskSteps
  import opened Cancellation
  import opened Abandonment
  import opened Outcomes
  import opened FullQueue

  // -------------------------------------------------------------- no deadlock

  /** The next thing task `t` does by itself; a sleeper and one whose closure is under way wait for others. */
  function NextOf(s: Sys, t: Id, unused: Id): Option<Action>
    requires t in s.tasks
  {
    match s.tasks[t].pc
    case Queued => Some(Dispatch(t))
    case Pausing => Some(Poll(t))
    case Woken => Some(Resume(t))
    case Rechecking => Some(Dispatch(t))
    case Persisting(_) => Some(Spawn(t))
    case Returned(ok, _) =>
      if !ok then Some(Fail(t, "", "", 0))
      else if s.tasks[t].kind == Patch then Some(PatchDecide(t, false))
      else Some(Complete(t, 0))
    case Reserving => Some(PatchReserve(t, unused, 0, None))
    case Marking(_) => Some(PatchMark(t))
    case Reserved(_) => Some(CommitReboot(t))
    case Beginning(_) => Some(Begin(t))
    case Commanding(_) => Some(Command(t, false))
    case RollingBack(_) => Some(RollBack(t, "", 0))
    case Completing(_) => Some(PatchComplete(t, 0))
    case DroppingGuard(_) => Some(DropRebootGuard(t, 0))
    case Guarded => Some(CommitUpdate(t))
    case Deleting => Some(DeleteTracking(t))
    case Releasing => Some(Release(t))
    case _ => None
  }

  lemma NextIsEnabled(s: Sys, t: Id, unused: Id)
    requires t in s.tasks && unused !in s.used && NextOf(s, t, unused).Some?
    ensures Enabled(s, NextOf(s, t, unused).value) && Subject(NextOf(s, t, unused).value) == Some(t)
  {
  }

  /** A decision of the environment is never forced: both are possible. */
  lemma ChoicesAreOpen(s: Sys, t: Id, ok: bool)
    requires t in s.tasks
    ensures s.tasks[t].pc.Commanding? ==> Enabled(s, Command(t, ok))
    ensures s.tasks[t].pc.Returned? && s.tasks[t].pc.ok && s.tasks[t].kind == Patch ==> Enabled(s, PatchDecide(t, ok))
    ensures s.tasks[t].pc.Guarded? ==> Enabled(s, CommitUpdate(t)) && Enabled(s, DropUpdateGuard(t))
  {
  }

  /** Callers can be dropped while they wait, while their closure is under way, and after reserving a reboot. */
  lemma CallersCanBeDropped(s: Sys, t: Id)
    requires t in s.tasks
    ensures
      var pc := s.tasks[t].pc;
      (pc == Queued || pc == Pausing || pc == Sleeping || pc == Woken || pc.InFlight? || pc.Reserved?) ==>
        Enabled(s, Cancel(t))
  {
  }

  /** A watchdog can always go on: its closure may return anything or outlive the backstop; a result is finalized. */
  lemma WatchdogsCanMove(s: Sys, w: Watchdog, ok: bool, now: Time)
    requires w in s.watch
    ensures w.result.None? ==> Enabled(s, ClosureExit(w, ok)) && Enabled(s, Backstop(w))
    ensures w.result.Some? ==> Enabled(s, WatchdogFinalize(w, now))
  {
  }

  /**
   * In every reachable state each task that is neither over nor asleep can take
   * a step of its own, or its watchdog can.
   */
  lemma NobodyIsStuck(states: seq<Sys>, steps: seq<Step>, i: nat, t: Id)
    returns (a: Action)
    requires IsRun(states, steps) && i < |states| && t in states[i].tasks
    requires
      var pc := states[i].tasks[t].pc;
      !pc.Sleeping? && !pc.Done? && !pc.Dropped? && !pc.AwaitingReboot?
    ensures Enabled(states[i], a)
    ensures Subject(a) == Some(t) || (a.ClosureExit? && a.w.job == t)
  {
    var s := states[i];
    RunKeeps(states, steps, i);
    hide IsRun;
    if s.tasks[t].pc.InFlight? {
      InFlightIsWatched(s, t);
      hide Inv;
      var w :| w in s.watch && w.job == t;
      WatchdogsCanMove(s, w, true, 0);
      a := if w.result.None? then ClosureExit(w, true) else WatchdogFinalize(w, 0);
    } else {
      hide Inv;
      var unused := Bounded(s.used);
      NextIsEnabled(s, t, unused);
      a := NextOf(s, t, unused).value;
    }
  }

  // -------------------------------------------------------------- requests

  function OperationFor(kind: Kind): JobOperation
    requires kind.Package? || kind == Patch || kind == Refresh
  {
    if kind == Patch then PatchApply else if kind == Refresh then Install else kind.op
  }

  /** A valid request for packages is a step, and if the scheduler admits it, its job and its task exist. */
  lemma RequestsAreOpen(s: Sys, id: Id, kind: Kind, packages: seq<string>, now: Time, boot: Option<string>)
    requires id !in s.used
    requires (kind.Package? && (kind.op == Install || kind.op == Update || kind.op == Remove)) || kind == Patch
    requires forall i :: 0 <= i < |packages| ==> ValidPackageName(packages[i])
    ensures
      var a := Admit(id, kind, packages, now, boot);
      && Enabled(s, a)
      && (s.sch.admission == Open && s.sch.selfUpdate.None? && s.sch.rebootPending.None?
          && |Busy(s.sch.jobs)| < s.sch.maxQueueDepth ==>
            && Core(s, a).sch.jobs == s.sch.jobs[id := Fresh(id, OperationFor(kind), packages, now, boot)]
            && Core(s, a).tasks == s.tasks[id := Task(kind, Queued)])
  {
    AdmissionIsExact(s.sch, id, OperationFor(kind), packages, now, boot);
    hide AdmitJob, Busy;
    assert OperationOf(kind) == OperationFor(kind);
  }

  /** So are the other requests, whatever the state. */
  lemma OtherRequestsAreOpen(s: Sys, id: Id, original: Id, force: bool, ack: bool, now: Time, boot: Option<string>)
    requires id !in s.used
    ensures Enabled(s, Admit(id, Refresh, ["__health_refresh__"], now, boot))
    ensures Enabled(s, Admit(id, Refresh, ["__patch_list_refresh__"], now, boot))
    ensures Enabled(s, AdmitRollback(original, id, now, boot)) && Enabled(s, ReserveUpdate(id, now, boot))
    ensures Enabled(s, RequestReboot(id, force, ack, now, boot))
    ensures Enabled(s, UserDelete(original)) && Enabled(s, Freeze)
  {
  }

  // ------------------------------------------------- results can be recorded

  /** How far a task is from its end, counted in own steps at most. */
  function Distance(pc: Pc): nat {
    match pc
    case InFlight(_) => 12
    case Returned(_, _) => 11
    case Reserving => 10
    case Marking(_) => 9
    case Beginning(_) => 8
    case Commanding(_) => 7
    case RollingBack(_) => 6
    case Completing(_) => 5
    case DroppingGuard(_) => 4
    case Deleting => 3
    case Releasing => 2
    case AwaitingReboot(_) => 1
    case _ => 0
  }

  lemma OwnRebootAdvances(s: Sys, a: Action, t: Id)
    requires Enabled(s, a) && Subject(a) == Some(t) && a.IsReboot()
    ensures t in s.tasks && t in Core(s, a).tasks
    ensures Distance(Core(s, a).tasks[t].pc) < Distance(s.tasks[t].pc)
    ensures !Core(s, a).tasks[t].pc.Dropped? && (Core(s, a).tasks[t].pc.AwaitingReboot? ==> a == Command(t, true))
  {
    if a.RollBack? || a.DropRebootGuard? {
      OwnRollbackAdvances(s, a, t);
    } else {
      hide ReserveReboot, SetJobRebooting, BeginRebootExecution;
    }
  }

  lemma OwnRollbackAdvances(s: Sys, a: Action, t: Id)
    requires Enabled(s, a) && Subject(a) == Some(t) && (a.RollBack? || a.DropRebootGuard?)
    ensures t in s.tasks && t in Core(s, a).tasks
    ensures Distance(Core(s, a).tasks[t].pc) < Distance(s.tasks[t].pc)
    ensures !Core(s, a).tasks[t].pc.Dropped? && !Core(s, a).tasks[t].pc.AwaitingReboot?
  {
    hide RolledBack, GUARD_DROPPED;
    RolledBackKeepsTask(s, s.tasks[t].pc.r, if a.RollBack? then a.reason else GUARD_DROPPED, a.now);
  }

  lemma RolledBackKeepsTask(s: Sys, r: Id, reason: string, now: Time)
    ensures RolledBack(s, r, reason, now).tasks == s.tasks
  {
  }

  lemma OwnOutcomeAdvances(s: Sys, a: Action, t: Id)
    requires Enabled(s, a) && Subject(a) == Some(t) && a.IsOutcome() && !a.IsReboot()
    ensures t in s.tasks && t in Core(s, a).tasks
    ensures Distance(Core(s, a).tasks[t].pc) < Distance(s.tasks[t].pc)
    ensures !Core(s, a).tasks[t].pc.Dropped? && !Core(s, a).tasks[t].pc.AwaitingReboot?
  {
    hide CompleteJob, FailJob, FailJobWithDiagnostics, DeleteJob, ReleaseSelfUpdate;
  }

  /** After its dispatch every step of a task brings it closer to its end. */
  lemma OutcomesAdvance(s: Sys, step: Step, t: Id)
    requires Permissible(s, step) && Subject(step.action) == Some(t) && step.action.IsOutcome()
    ensures t in s.tasks && t in Apply(s, step).tasks
    ensures Distance(Apply(s, step).tasks[t].pc) < Distance(s.tasks[t].pc)
    ensures !Apply(s, step).tasks[t].pc.Dropped?
    ensures Apply(s, step).tasks[t].pc.AwaitingReboot? ==> step.action == Command(t, true)
  {
    hide Core, Enabled, Notifies;
    if step.action.IsReboot() {
      OwnRebootAdvances(s, step.action, t);
    } else {
      OwnOutcomeAdvances(s, step.action, t);
    }
  }

  lemma DeliveryAdvances(s: Sys, step: Step, t: Id)
    requires Permissible(s, step) && step.action.WatchdogFinalize? && step.action.w.job == t
    requires t in s.tasks && s.tasks[t].pc.InFlight?
    ensures t in Apply(s, step).tasks && Apply(s, step).tasks[t].pc.Returned?
  {
    hide Finalize;
  }

  /** The next step of a task that knows its result. */
  lemma NextAfterResult(s: Sys, t: Id, ok: bool) returns (step: Step)
    requires Inv(s) && OnTrack(s, t, ok)
    requires !s.tasks[t].pc.Done? && !s.tasks[t].pc.Dropped? && !s.tasks[t].pc.AwaitingReboot?
    ensures Permissible(s, step) && t in Apply(s, step).tasks && !Apply(s, step).tasks[t].pc.Dropped?
    ensures Distance(Apply(s, step).tasks[t].pc) < Distance(s.tasks[t].pc)
    ensures !Apply(s, step).tasks[t].pc.AwaitingReboot?
  {
    var unused := Bounded(s.used);
    if s.tasks[t].pc.InFlight? {
      InFlightIsWatched(s, t);
      hide Inv;
      var w :| w in s.watch && w.job == t;
      step := SomeStep(s, WatchdogFinalize(w, 0));
      DeliveryAdvances(s, step, t);
    } else {
      hide Inv;
      NextIsEnabled(s, t, unused);
      var a := NextOf(s, t, unused).value;
      step := SomeStep(s, a);
      NextIsOutcome(s, t, unused, ok);
      OutcomesAdvance(s, step, t);
    }
  }

  lemma NextIsOutcome(s: Sys, t: Id, unused: Id, ok: bool)
    requires OnTrack(s, t, ok) && NextOf(s, t, unused).Some?
    ensures NextOf(s, t, unused).value.IsOutcome() && NextOf(s, t, unused) != Some(Command(t, true))
  {
  }

  /** `states` and `steps` continue `s` until task `t` is over and its job, if it is still there, has the status. */
  ghost predicate Records(s: Sys, t: Id, status: JobStatus, states: seq<Sys>, steps: seq<Step>) {
    && Continues(states, steps) && states[0] == s
    && At(states[|steps|], t, {Done})
    && (t in states[|steps|].sch.jobs ==> states[|steps|].sch.jobs[t].status == status)
  }

  lemma Prepend(s: Sys, step: Step, t: Id, status: JobStatus, states: seq<Sys>, steps: seq<Step>)
    requires Permissible(s, step) && Records(Apply(s, step), t, status, states, steps)
    ensures Records(s, t, status, [s] + states, [step] + steps)
  {
    hide Permissible, Apply;
    var states', steps' := [s] + states, [step] + steps;
    forall i {:trigger steps'[i]} | 0 <= i < |steps'|
      ensures Permissible(states'[i], steps'[i]) && states'[i + 1] == Apply(states'[i], steps'[i])
    {
      if i > 0 {
        ContinuesStep(states, steps, i - 1);
      }
    }
    assert states'[|steps'|] == states[|steps|];
  }

  lemma {:induction false} Recorded(s: Sys, t: Id, ok: bool) returns (states: seq<Sys>, steps: seq<Step>)
    requires Inv(s) && OnTrack(s, t, ok) && !s.tasks[t].pc.Dropped? && !s.tasks[t].pc.AwaitingReboot?
    ensures Records(s, t, if ok then Completed else Failed, states, steps)
    ensures |steps| <= Distance(s.tasks[t].pc)
    decreases Distance(s.tasks[t].pc)
  {
    if s.tasks[t].pc.Done? {
      hide Inv, Apply, Permissible;
      states, steps := [s], [];
    } else {
      hide Inv, Apply, Permissible, Knows, Suits;
      var step := NextAfterResult(s, t, ok);
      StepKeeps(s, step);
      StepKeepsTrack(s, step, t, ok);
      var later, rest := Recorded(Apply(s, step), t, ok);
      Prepend(s, step, t, if ok then Completed else Failed, later, rest);
      states, steps := [s] + later, [step] + rest;
    }
  }

  /**
   * From every state of a run after the result of a closure, unless the caller
   * was dropped or the task waits for the reboot it ordered, the result can be
   * recorded: at most twelve steps lead to the end of the task, with its job
   * Completed after a success and Failed after a failure.
   */
  lemma ResultCanBeRecorded(states: seq<Sys>, steps: seq<Step>, m: nat, i: nat, t: Id, ok: bool)
    returns (later: seq<Sys>, rest: seq<Step>)
    requires IsRun(states, steps) && m < i < |states| && Gives(steps[m].action, t, ok)
    requires !WasDropped(steps, i, t) && !(t in states[i].tasks && states[i].tasks[t].pc.AwaitingReboot?)
    ensures Records(states[i], t, if ok then Completed else Failed, later, rest) && |rest| <= 12
  {
    TrackAlongRun(states, steps, m, i, t, ok);
    RunLength(states, steps);
    RunKeeps(states, steps, i);
    if At(states[i], t, {Dropped}) {
      DroppedWasDropped(states, steps, i, t);
    }
    hide IsRun, Inv, Records;
    later, rest := Recorded(states[i], t, ok);
  }
}
