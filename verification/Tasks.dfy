/**
 * The concurrent system: the scheduler, the request handlers' tasks that drive
 * it (`src/api/handlers`), the watchdogs of running mutations, and the
 * scheduler's `Notify`.
 *
 * One `Step` is one critical section or one point between two suspension
 * points of a task; a run interleaves the steps of all tasks arbitrarily.
 * Every choice the environment makes (requests, clocks, backend answers, which
 * sleeper a notification wakes) is a field of the step, so a step is a
 * function of the state.
 */
module Tasks {
  import opened Wrappers
  import opened Jobs
  import opened SchedulerState
  import opened Boot

  datatype Kind =
    | Package(op: JobOperation)  // install, update or remove of user packages
    | Patch                      // POST /patches/apply
    | Refresh                    // background cache refresh
    | Upgrade                    // update of the agent's own package
    | Restart                    // POST /system/reboot

  /** Where a task stands.  `r` is the reboot job whose reservation the task handles. */
  datatype Pc =
    // inside dispatch_mutation
    | Queued                              // has not entered the wait loop yet
    | Pausing                             // released the lock, has not polled `notified()` yet
    | Sleeping                            // registered as a waiter
    | Woken                               // notified, not resumed yet
    | Rechecking                          // consumed a notification, about to take the lock
    | Persisting(generation: nat)         // owns the slot, writing the history file
    | InFlight(generation: nat)           // watchdog spawned, awaiting the result
    | Returned(ok: bool, ran: bool)       // dispatch_mutation has a result
    // reboot reservation, by a patch task or a reboot request
    | Reserving
    | Marking(r: Id)                      // before set_job_rebooting
    | Reserved(r: Id)                     // request handler, before its task is spawned
    | Beginning(r: Id)                    // before begin_reboot_execution
    | Commanding(r: Id)                   // before the backend's reboot command
    | RollingBack(r: Id)                  // the command failed
    | AwaitingReboot(r: Id)               // guard committed, end of the task
    | Completing(guard: Option<Id>)       // before complete_job, maybe still holding the guard
    | DroppingGuard(r: Id)                // spawned guard rollback
    // rest
    | Guarded                             // self-update reserved, guard not committed
    | Deleting                            // refresh: before delete_job
    | Releasing                           // self-update: before release_self_update
    | Done
    | Dropped                             // caller future cancelled

  datatype Task = Task(kind: Kind, pc: Pc)

  /** A spawned watchdog; `result` is set once its closure exited or the backstop elapsed. */
  datatype Watchdog = Watchdog(job: Id, generation: nat, result: Option<bool>)

  datatype Sys = Sys(
    sch: SchedState,
    tasks: map<Id, Task>,        // keyed by the job the task owns
    permit: bool,                // the single stored permit of `Notify`
    watch: set<Watchdog>,        // spawned and not finalized
    detached: nat,               // closures still running after their backstop elapsed
    // history
    used: set<Id>,               // every job id ever created
    rebootBy: Option<Id>,        // the task that made the current reboot reservation
    unacked: bool,               // that reservation lacked force or the acknowledgement
    blind: bool,                 // that reservation was made over a holder missing from the job map
    acquired: nat,               // slot acquisitions so far
    released: nat,               // slot releases so far
    revived: nat,                // acquisitions that found their job neither Pending nor Running
    phantoms: nat)               // acquisitions that found no job at all

  /** How a process starts: its limits, and the history file, clock and boot id it recovers from. */
  datatype Launch = Launch(
    concurrent: nat,
    depth: nat,
    history: seq<Job>,
    clock: nat -> Time,
    boot: Option<string>)

  /** Finished jobs of a history file carry their completion time; see NextStartIsProper. */
  predicate HasTimes(history: seq<Job>) {
    forall i :: 0 <= i < |history| && history[i].status.IsTerminal() ==> history[i].completedAt.Some?
  }

  /** The state before the first request: the recovered job map, and nothing under way. */
  function Init(launch: Launch): Sys {
    var jobs := BootJobs(launch.history, launch.clock, launch.boot);
    Sys(NewScheduler(launch.concurrent, launch.depth).(jobs := jobs), map[], false, {}, 0, jobs.Keys,
        None, false, false, 0, 0, 0, 0)
  }

  datatype Action =
    | Admit(id: Id, kind: Kind, packages: seq<string>, now: Time, boot: Option<string>)
    | AdmitRollback(original: Id, id: Id, now: Time, boot: Option<string>)
    | ReserveUpdate(id: Id, now: Time, boot: Option<string>)
    | CommitUpdate(t: Id)
    | DropUpdateGuard(t: Id)
    | RequestReboot(id: Id, force: bool, ack: bool, now: Time, boot: Option<string>)
    | CommitReboot(t: Id)
    | Dispatch(t: Id)
    | Poll(t: Id)
    | Resume(t: Id)
    | Spawn(t: Id)
    | ClosureExit(w: Watchdog, ok: bool)
    | Backstop(w: Watchdog)
    | WatchdogFinalize(w: Watchdog, now: Time)
    | DetachedExit
    | Cancel(t: Id)
    | Complete(t: Id, now: Time)
    | Fail(t: Id, reason: string, code: string, now: Time)
    | DeleteTracking(t: Id)
    | Release(t: Id)
    | PatchDecide(t: Id, reboot: bool)
    | PatchReserve(t: Id, id: Id, now: Time, boot: Option<string>)
    | PatchMark(t: Id)
    | Begin(t: Id)
    | Command(t: Id, ok: bool)
    | RollBack(t: Id, reason: string, now: Time)
    | PatchComplete(t: Id, now: Time)
    | DropRebootGuard(t: Id, now: Time)
    | Freeze
    | UserDelete(id: Id)
  {
    /** Inside `dispatch_mutation`, its watchdog, or the cancellation of a caller. */
    predicate IsDispatch() {
      Dispatch? || Poll? || Resume? || Spawn? || ClosureExit? || Backstop? || WatchdogFinalize? || DetachedExit? || Cancel?
    }

    /** Requests from outside the tasks. */
    predicate IsRequest() {
      || Admit? || AdmitRollback? || ReserveUpdate? || CommitUpdate? || DropUpdateGuard?
      || RequestReboot? || CommitReboot? || Freeze? || UserDelete?
    }

    /** Everything a task does after its dispatch, and the reboot commands. */
    predicate IsOutcome() {
      !IsDispatch() && !IsRequest()
    }

    /** What a task does about a reboot it has reserved or is about to reserve. */
    predicate IsReboot() {
      PatchReserve? || PatchMark? || Begin? || Command? || RollBack? || DropRebootGuard?
    }
  }

  /** `wake` names the sleeper a notification of this step wakes, if any sleeps. */
  datatype Step = Step(action: Action, wake: Id)

  function OperationOf(kind: Kind): JobOperation {
    match kind
    case Package(op) => op
    case Patch => PatchApply
    case Refresh => Install
    case Upgrade => SelfUpdate
    case Restart => Reboot
  }

  /** What the handlers pass to `admit_job` after validating the request. */
  predicate ProperRequest(kind: Kind, packages: seq<string>) {
    match kind
    case Package(op) => op in {Install, Update, Remove} && AllValid(packages)
    case Patch => AllValid(packages)
    case Refresh => packages in {[HEALTH_REFRESH], [PATCH_LIST_REFRESH]}
    case _ => false
  }

  predicate At(s: Sys, t: Id, pcs: set<Pc>) {
    t in s.tasks && s.tasks[t].pc in pcs
  }

  /**
   * Dropping a caller at these points is a step of the system, as it breaks no
   * part of the invariant; Cancellation.dfy treats the other points.  A caller
   * that waits leaves its Pending job behind, one at `Reserved` the reservation,
   * and only one in flight leaves its job to somebody who finishes it; see
   * Abandonment.dfy.
   */
  predicate Droppable(pc: Pc) {
    pc.Queued? || pc.Pausing? || pc.Sleeping? || pc.Woken? || pc.InFlight? || pc.Reserved?
  }

  predicate Enabled(s: Sys, a: Action) {
    match a
    case Admit(id, kind, packages, _, _) => id !in s.used && ProperRequest(kind, packages)
    case AdmitRollback(_, id, _, _) => id !in s.used
    case ReserveUpdate(id, _, _) => id !in s.used
    case CommitUpdate(t) => At(s, t, {Guarded})
    case DropUpdateGuard(t) => At(s, t, {Guarded})
    case RequestReboot(id, _, _, _, _) => id !in s.used
    case CommitReboot(t) => t in s.tasks && s.tasks[t].pc.Reserved?
    case Dispatch(t) => At(s, t, {Queued, Rechecking})
    case Poll(t) => At(s, t, {Pausing})
    case Resume(t) => At(s, t, {Woken})
    case Spawn(t) => t in s.tasks && s.tasks[t].pc.Persisting?
    case ClosureExit(w, _) => w in s.watch && w.result.None?
    case Backstop(w) => w in s.watch && w.result.None?
    case WatchdogFinalize(w, _) => w in s.watch && w.result.Some?
    case DetachedExit => s.detached > 0
    case Cancel(t) => t in s.tasks && Droppable(s.tasks[t].pc)
    case Complete(t, _) =>
      t in s.tasks && s.tasks[t].pc.Returned? && s.tasks[t].pc.ok && s.tasks[t].kind != Patch
    case Fail(t, _, _, _) => t in s.tasks && s.tasks[t].pc.Returned? && !s.tasks[t].pc.ok
    case DeleteTracking(t) => At(s, t, {Deleting})
    case Release(t) => At(s, t, {Releasing})
    case PatchDecide(t, _) =>
      t in s.tasks && s.tasks[t].pc.Returned? && s.tasks[t].pc.ok && s.tasks[t].kind == Patch
    case PatchReserve(t, id, _, _) => At(s, t, {Reserving}) && id !in s.used
    case PatchMark(t) => t in s.tasks && s.tasks[t].pc.Marking?
    case Begin(t) => t in s.tasks && s.tasks[t].pc.Beginning?
    case Command(t, _) => t in s.tasks && s.tasks[t].pc.Commanding?
    case RollBack(t, _, _) => t in s.tasks && s.tasks[t].pc.RollingBack?
    case PatchComplete(t, _) => t in s.tasks && s.tasks[t].pc.Completing?
    case DropRebootGuard(t, _) => t in s.tasks && s.tasks[t].pc.DroppingGuard?
    case Freeze => true
    case UserDelete(_) => true
  }

  function Move(s: Sys, t: Id, pc: Pc): Sys
    requires t in s.tasks
  {
    s.(tasks := s.tasks[t := s.tasks[t].(pc := pc)])
  }

  function Start(s: Sys, t: Id, kind: Kind, pc: Pc): Sys {
    s.(tasks := s.tasks[t := Task(kind, pc)], used := s.used + {t})
  }

  /** The task's state after `complete_job` or `fail_job` at the end of its dispatch. */
  function AfterOutcome(kind: Kind): Pc {
    match kind
    case Refresh => Deleting
    case Upgrade => Releasing
    case _ => Done
  }

  function DoAdmit(s: Sys, id: Id, kind: Kind, packages: seq<string>, now: Time, boot: Option<string>): Sys {
    var (sch, r) := AdmitJob(s.sch, id, OperationOf(kind), packages, now, boot);
    if r.Ok? then Start(s.(sch := sch), id, kind, Queued) else s
  }

  function DoAdmitRollback(s: Sys, original: Id, id: Id, now: Time, boot: Option<string>): Sys {
    var (sch, r) := CreateRollbackJob(s.sch, original, id, now, boot);
    if r.Ok? && r.value.Some? then s.(sch := sch, used := s.used + {id}) else s
  }

  function DoReserveUpdate(s: Sys, id: Id, now: Time, boot: Option<string>): Sys {
    var (sch, r) := TryReserveSelfUpdate(s.sch, id, [SELF_PACKAGE_NAME], now, boot);
    if r.Ok? then Start(s.(sch := sch), id, Upgrade, Guarded) else s
  }

  /** The slot is held for a job that is not in the job map. */
  predicate HolderIsMissing(s: SchedState) {
    s.slot.Some? && s.slot.value !in s.jobs
  }

  function DoRequestReboot(s: Sys, id: Id, force: bool, ack: bool, now: Time, boot: Option<string>): Sys {
    var (sch, r) := ReserveReboot(s.sch, id, force, ack, now, boot);
    if r.Ok?
    then Start(s.(sch := sch, rebootBy := Some(id), unacked := !(force && ack), blind := HolderIsMissing(s.sch)),
               id, Restart, Reserved(id))
    else s
  }

  function DoDispatch(s: Sys, t: Id): Sys
    requires t in s.tasks
  {
    var (sch, out) := TryAcquire(s.sch, t);
    match out
    case Rejected(_) => Move(s, t, Returned(false, false))
    case Wait => Move(s, t, Pausing)
    case Acquired(g) =>
      Move(s, t, Persisting(g)).(
        sch := sch,
        acquired := s.acquired + 1,
        revived := s.revived + if t in s.sch.jobs && !Dispatchable(s.sch, t) then 1 else 0,
        phantoms := s.phantoms + if t !in s.sch.jobs then 1 else 0)
  }

  function DoPoll(s: Sys, t: Id): Sys
    requires t in s.tasks
  {
    if s.permit then Move(s, t, Rechecking).(permit := false) else Move(s, t, Sleeping)
  }

  function DoSpawn(s: Sys, t: Id): Sys
    requires t in s.tasks && s.tasks[t].pc.Persisting?
  {
    var g := s.tasks[t].pc.generation;
    Move(s, t, InFlight(g)).(watch := s.watch + {Watchdog(t, g, None)})
  }

  function DoFinalize(s: Sys, w: Watchdog, now: Time): Sys
    requires w.result.Some?
  {
    var alive := w.job in s.tasks && s.tasks[w.job].pc.InFlight?;
    var s' := s.(
      sch := Finalize(s.sch, w.job, w.generation, alive, w.result.value, now),
      watch := s.watch - {w},
      released := s.released + if StillOwns(s.sch, w.job, w.generation) then 1 else 0);
    if alive then Move(s', w.job, Returned(w.result.value, true)) else s'
  }

  function DoFail(s: Sys, t: Id, reason: string, code: string, now: Time): Sys
    requires t in s.tasks
  {
    var sch := if s.tasks[t].kind == Refresh
               then FailJob(s.sch, t, reason, now)
               else FailJobWithDiagnostics(s.sch, t, reason, code, now);
    Move(s, t, AfterOutcome(s.tasks[t].kind)).(sch := sch)
  }

  function DoPatchReserve(s: Sys, t: Id, id: Id, now: Time, boot: Option<string>): Sys
    requires t in s.tasks
  {
    var (sch, r) := ReserveReboot(s.sch, id, true, false, now, boot);
    if r.Ok?
    then Move(s, t, Marking(id)).(sch := sch, used := s.used + {id}, rebootBy := Some(t),
                                  unacked := true, blind := HolderIsMissing(s.sch))
    else Move(s, t, Completing(None))
  }

  /** A lost reservation ends a reboot request; a patch task still completes its job. */
  function DoBegin(s: Sys, t: Id): Sys
    requires t in s.tasks && s.tasks[t].pc.Beginning?
  {
    var r := s.tasks[t].pc.r;
    var (sch, begun) := BeginRebootExecution(s.sch, r);
    if begun then Move(s, t, Commanding(r)).(sch := sch)
    else if s.tasks[t].kind == Patch then Move(s, t, Completing(Some(r)))
    else Move(s, t, Done)
  }

  /** `rollback_reboot` by the holder of the guard for `r`. */
  function RolledBack(s: Sys, r: Id, reason: string, now: Time): Sys {
    var (sch, done) := RollbackReboot(s.sch, r, Some(reason), now);
    if done then s.(sch := sch, rebootBy := None, unacked := false, blind := false) else s
  }

  function DoRollBack(s: Sys, t: Id, reason: string, now: Time): Sys
    requires t in s.tasks && s.tasks[t].pc.RollingBack?
  {
    var r := s.tasks[t].pc.r;
    Move(RolledBack(s, r, reason, now), t, if s.tasks[t].kind == Patch then Completing(Some(r)) else Done)
  }

  const GUARD_DROPPED := "Reservation dropped without commit (cancelled)"

  function DoPatchComplete(s: Sys, t: Id, now: Time): Sys
    requires t in s.tasks && s.tasks[t].pc.Completing?
  {
    var guard := s.tasks[t].pc.guard;
    Move(s, t, if guard.Some? then DroppingGuard(guard.value) else Done).(sch := CompleteJob(s.sch, t, now))
  }

  /** The effect of an action, before any notification. */
  function Core(s: Sys, a: Action): Sys
    requires Enabled(s, a)
  {
    match a
    case Admit(id, kind, packages, now, boot) => DoAdmit(s, id, kind, packages, now, boot)
    case AdmitRollback(original, id, now, boot) => DoAdmitRollback(s, original, id, now, boot)
    case ReserveUpdate(id, now, boot) => DoReserveUpdate(s, id, now, boot)
    case CommitUpdate(t) => Move(s, t, Queued)
    case DropUpdateGuard(t) => Move(s, t, Done).(sch := DropSelfUpdateGuard(s.sch, t))
    case RequestReboot(id, force, ack, now, boot) => DoRequestReboot(s, id, force, ack, now, boot)
    case CommitReboot(t) => Move(s, t, Beginning(s.tasks[t].pc.r))
    case Dispatch(t) => DoDispatch(s, t)
    case Poll(t) => DoPoll(s, t)
    case Resume(t) => Move(s, t, Rechecking)
    case Spawn(t) => DoSpawn(s, t)
    case ClosureExit(w, ok) => s.(watch := s.watch - {w} + {w.(result := Some(ok))})
    case Backstop(w) => s.(watch := s.watch - {w} + {w.(result := Some(false))}, detached := s.detached + 1)
    case WatchdogFinalize(w, now) => DoFinalize(s, w, now)
    case DetachedExit => s.(detached := s.detached - 1)
    case Cancel(t) => Move(s, t, Dropped)
    case Complete(t, now) => Move(s, t, AfterOutcome(s.tasks[t].kind)).(sch := CompleteJob(s.sch, t, now))
    case Fail(t, reason, code, now) => DoFail(s, t, reason, code, now)
    case DeleteTracking(t) => Move(s, t, Done).(sch := DeleteJob(s.sch, t).0)
    case Release(t) => Move(s, t, Done).(sch := ReleaseSelfUpdate(s.sch, t).0)
    case PatchDecide(t, reboot) => Move(s, t, if reboot then Reserving else Completing(None))
    case PatchReserve(t, id, now, boot) => DoPatchReserve(s, t, id, now, boot)
    case PatchMark(t) => Move(s, t, Beginning(s.tasks[t].pc.r)).(sch := SetJobRebooting(s.sch, t).0)
    case Begin(t) => DoBegin(s, t)
    case Command(t, ok) =>
      Move(s, t, if ok then AwaitingReboot(s.tasks[t].pc.r) else RollingBack(s.tasks[t].pc.r))
    case RollBack(t, reason, now) => DoRollBack(s, t, reason, now)
    case PatchComplete(t, now) => DoPatchComplete(s, t, now)
    case DropRebootGuard(t, now) => Move(RolledBack(s, s.tasks[t].pc.r, GUARD_DROPPED, now), t, Done)
    case Freeze => s.(sch := FreezeAdmission(s.sch))
    case UserDelete(id) => s.(sch := DeleteJob(s.sch, id).0)
  }

  /**
   * Whether the action calls `notify_one` before it ends.  Refused requests,
   * stale rollbacks and deletions do not.  A dropped caller that was notified
   * but not resumed passes its notification on.
   */
  predicate Notifies(s: Sys, a: Action)
    requires Enabled(s, a)
  {
    match a
    case Admit(id, kind, packages, now, boot) =>
      AdmitJob(s.sch, id, OperationOf(kind), packages, now, boot).1.Ok?
    case AdmitRollback(original, id, now, boot) =>
      var r := CreateRollbackJob(s.sch, original, id, now, boot).1;
      r.Ok? && r.value.Some?
    case ReserveUpdate(id, now, boot) =>
      TryReserveSelfUpdate(s.sch, id, [SELF_PACKAGE_NAME], now, boot).1.Ok?
    case DropUpdateGuard(_) => true
    case RequestReboot(_, force, ack, _, _) => RebootRefusal(s.sch, force, ack).None?
    case WatchdogFinalize(_, _) => true
    case Cancel(t) => s.tasks[t].pc.Woken?
    case Complete(_, _) => true
    case Fail(_, _, _, _) => true
    case Release(t) => s.sch.selfUpdate == Some(t)
    case PatchReserve(_, _, _, _) => RebootRefusal(s.sch, true, false).None?
    case PatchMark(t) => SetJobRebooting(s.sch, t).1
    case Begin(t) => BeginRebootExecution(s.sch, s.tasks[t].pc.r).1
    case RollBack(t, _, _) => s.sch.rebootPending == Some(s.tasks[t].pc.r)
    case PatchComplete(_, _) => true
    case DropRebootGuard(t, _) => s.sch.rebootPending == Some(s.tasks[t].pc.r)
    case Freeze => true
    case _ => false
  }

  predicate IsSleeping(s: Sys, t: Id) {
    t in s.tasks && s.tasks[t].pc == Sleeping
  }

  /** `notify_one`: wakes one sleeper, or stores the permit when nobody sleeps. */
  function NotifyOne(s: Sys, wake: Id): Sys {
    if IsSleeping(s, wake) then Move(s, wake, Woken) else s.(permit := true)
  }

  ghost predicate Permissible(s: Sys, step: Step) {
    && Enabled(s, step.action)
    && (Notifies(s, step.action) && (exists t :: IsSleeping(Core(s, step.action), t)) ==>
          IsSleeping(Core(s, step.action), step.wake))
  }

  ghost function Apply(s: Sys, step: Step): Sys
    requires Permissible(s, step)
  {
    var s' := Core(s, step.action);
    if Notifies(s, step.action) then NotifyOne(s', step.wake) else s'
  }

  /** A finite run of a process from its startup: `states[i + 1]` results from `steps[i]`. */
  ghost predicate IsRun(states: seq<Sys>, steps: seq<Step>) {
    && |states| == |steps| + 1
    && (exists launch: Launch :: HasTimes(launch.history) && states[0] == Init(launch))
    && forall i {:trigger steps[i]} :: 0 <= i < |steps| ==>
         Permissible(states[i], steps[i]) && states[i + 1] == Apply(states[i], steps[i])
  }

  lemma RunStart(states: seq<Sys>, steps: seq<Step>) returns (launch: Launch)
    requires IsRun(states, steps)
    ensures |states| == |steps| + 1 && HasTimes(launch.history) && states[0] == Init(launch)
  {
    launch :| HasTimes(launch.history) && states[0] == Init(launch);
  }

  lemma RunLength(states: seq<Sys>, steps: seq<Step>)
    requires IsRun(states, steps)
    ensures |states| == |steps| + 1
  {
  }

  lemma RunStep(states: seq<Sys>, steps: seq<Step>, i: nat)
    requires IsRun(states, steps) && i < |steps|
    ensures Permissible(states[i], steps[i]) && states[i + 1] == Apply(states[i], steps[i])
  {
  }
}
