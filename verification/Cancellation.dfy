/**
 * Callers that are dropped: where the slot and the record of Running jobs
 * suffer, and what is lost for good.
 *
 * The notes on `dispatch_mutation` promise that a cancelled caller neither keeps
 * the slot nor leaves its job unfinished.  The slot, and the bookkeeping that
 * every Running job is held by the slot or by a task, survive at every
 * suspension point but two: while the history file is written between the
 * acquisition and the spawn of the watchdog, and once the watchdog has handed
 * over its result.  A reboot request that is dropped before its task exists
 * leaves its reservation behind.  The promise about the job holds at one point
 * only, the one the watchdog was written for; see Abandonment.dfy.
 */
module Cancellation {
  import opened Wrappers
  import opened Jobs
  import opened Tasks
  import opened TaskInvariant
  import opened TaskSteps
  import opened TaskTheorems
  import opened Waiters

  predicate InDispatch(pc: Pc) {
    || pc.Queued? || pc.Pausing? || pc.Sleeping? || pc.Woken? || pc.Rechecking?
    || pc.Persisting? || pc.InFlight? || pc.Returned?
  }

  /** The state after the caller's future is dropped where it stands. */
  function CancelAt(s: Sys, t: Id): Sys
    requires t in s.tasks
  {
    Move(s, t, Dropped)
  }

  /** The caller owns the slot and nobody else knows, or holds the only record that its Running job has run. */
  predicate MustNotBeDropped(s: Sys, t: Id)
    requires t in s.tasks
  {
    var pc := s.tasks[t].pc;
    pc.Persisting? || (pc.Returned? && pc.ran && t in s.sch.jobs)
  }

  /**
   * Dropping a caller inside its dispatch keeps the invariant if and only if
   * it is not between acquisition and spawn, and holds no delivered result for
   * a job that is still in the job map.  The invariant speaks of the slot and of
   * Running jobs; what becomes of a job that is still Pending is the subject of
   * Abandonment.DroppedJobCanEnd.
   */
  lemma CancellationIsSafe(s: Sys, t: Id)
    requires Inv(s) && t in s.tasks && InDispatch(s.tasks[t].pc)
    ensures Inv(CancelAt(s, t)) <==> !MustNotBeDropped(s, t)
  {
    var pc := s.tasks[t].pc;
    if pc.Persisting? {
      assert !Slots(s.sch.slot, s.sch.generation, CancelAt(s, t).tasks, s.watch);
    } else if pc.Returned? && pc.ran {
      OutcomeIsLost(s, t);
    } else {
      TaskFacts(s, t);
      MoveKeeps(s, t, Dropped);
    }
  }

  /** Dropping a task whose job is gone (or did not run) disturbs no part of the invariant about tasks. */
  lemma DroppedTaskKeepsParts(s: Sys, t: Id)
    requires t in s.tasks && s.tasks[t].pc.Returned?
    requires Ids(s.used, s.sch.jobs, s.tasks) && Fits(s.tasks, s.sch.jobs) && Kinds(s.tasks)
    ensures
      var tasks := CancelAt(s, t).tasks;
      Ids(s.used, s.sch.jobs, tasks) && Fits(tasks, s.sch.jobs) && Kinds(tasks)
  {
  }

  lemma DroppedTaskKeepsOwners(s: Sys, t: Id)
    requires t in s.tasks && s.tasks[t].pc.Returned?
    requires StaleGuards(s.used, s.sch.rebootPending, s.tasks) && Upgrades(s.sch.selfUpdate, s.tasks)
    requires Holders(s.sch.rebootPending, s.rebootBy, s.tasks, s.sch.jobs)
    ensures
      var tasks := CancelAt(s, t).tasks;
      && StaleGuards(s.used, s.sch.rebootPending, tasks) && Upgrades(s.sch.selfUpdate, tasks)
      && Holders(s.sch.rebootPending, s.rebootBy, tasks, s.sch.jobs)
  {
  }

  /** The slot is not involved, but the record that the job has run is. */
  lemma DroppedTaskLosesRecord(s: Sys, t: Id)
    requires t in s.tasks && s.tasks[t].pc.Returned? && s.tasks[t].pc.ran && Fits(s.tasks, s.sch.jobs)
    requires Slots(s.sch.slot, s.sch.generation, s.tasks, s.watch)
    requires RunningJobs(s.sch.slot, s.tasks, s.sch.jobs, s.phantoms)
    ensures
      var tasks := CancelAt(s, t).tasks;
      && Slots(s.sch.slot, s.sch.generation, tasks, s.watch)
      && (RunningJobs(s.sch.slot, tasks, s.sch.jobs, s.phantoms) <==> t !in s.sch.jobs)
  {
    assert s.sch.slot != Some(t);
    if t in s.sch.jobs {
      assert JobFits(s.tasks[t], s.sch.jobs[t]);
    }
  }

  lemma OutcomeIsLost(s: Sys, t: Id)
    requires Inv(s) && t in s.tasks && s.tasks[t].pc.Returned? && s.tasks[t].pc.ran
    ensures Inv(CancelAt(s, t)) <==> t !in s.sch.jobs
  {
    DroppedTaskKeepsParts(s, t);
    DroppedTaskKeepsOwners(s, t);
    DroppedTaskLosesRecord(s, t);
  }

  /**
   * A caller dropped after it consumed a notification, but before it has the
   * lock again, takes the notification with it: the others stay awake if and
   * only if something else is left to wake them.
   */
  lemma ConsumedNotificationIsLost(s: Sys, t: Id)
    requires At(s, t, {Rechecking})
    ensures NoStranded(CancelAt(s, t)) <==>
            ((exists v :: IsWaiting(s, v)) ==>
               s.permit || s.sch.slot.Some? || exists u :: u != t && IsLive(s, u))
  {
    var s' := CancelAt(s, t);
    assert forall v :: IsWaiting(s', v) <==> IsWaiting(s, v);
    assert forall u :: IsLive(s', u) <==> u != t && IsLive(s, u);
  }

  // ------------------------------------------------------------- a lost slot

  /** The slot is held for `t`, and neither a watchdog nor a task will ever release it. */
  ghost predicate SlotIsLost(s: Sys, t: Id) {
    && s.sch.slot == Some(t) && s.watch == {}
    && forall u :: u in s.tasks ==> !s.tasks[u].pc.Persisting?
  }

  lemma DroppedOwnerLosesSlot(s: Sys, t: Id)
    requires Inv(s) && t in s.tasks && s.tasks[t].pc.Persisting?
    ensures SlotIsLost(CancelAt(s, t), t)
  {
  }

  lemma RequestKeepsSlotLost(s: Sys, a: Action, t: Id)
    requires SlotIsLost(s, t) && Enabled(s, a) && a.IsRequest()
    ensures SlotIsLost(Core(s, a), t)
  {
  }

  lemma DispatchKeepsSlotLost(s: Sys, a: Action, t: Id)
    requires SlotIsLost(s, t) && Enabled(s, a) && a.IsDispatch()
    ensures SlotIsLost(Core(s, a), t)
  {
  }

  lemma OutcomeKeepsSlotLost(s: Sys, a: Action, t: Id)
    requires SlotIsLost(s, t) && Enabled(s, a) && a.IsOutcome()
    ensures SlotIsLost(Core(s, a), t)
  {
  }

  lemma LostSlotBlocksDispatch(s: Sys, a: Action, t: Id)
    requires SlotIsLost(s, t)
    ensures !Acquires(s, a)
  {
  }

  lemma StepKeepsSlotLost(s: Sys, step: Step, t: Id)
    requires SlotIsLost(s, t) && Permissible(s, step)
    ensures SlotIsLost(Apply(s, step), t) && Apply(s, step).acquired == s.acquired
  {
    var a := step.action;
    LostSlotBlocksDispatch(s, a, t);
    HistoryCounts(s, step);
    hide Core, Enabled, Notifies;
    if a.IsRequest() {
      RequestKeepsSlotLost(s, a, t);
    } else if a.IsDispatch() {
      DispatchKeepsSlotLost(s, a, t);
    } else {
      OutcomeKeepsSlotLost(s, a, t);
    }
  }

  /** A finite run from an arbitrary state. */
  ghost predicate Continues(states: seq<Sys>, steps: seq<Step>) {
    && |states| == |steps| + 1
    && forall i {:trigger steps[i]} :: 0 <= i < |steps| ==>
         Permissible(states[i], steps[i]) && states[i + 1] == Apply(states[i], steps[i])
  }

  /**
   * If the caller is dropped between acquisition and spawn, the slot is lost
   * for good: on no continuation is it released or any mutation started.
   */
  lemma {:induction false} SlotIsLostForGood(s: Sys, t: Id, states: seq<Sys>, steps: seq<Step>, i: nat)
    requires Inv(s) && t in s.tasks && s.tasks[t].pc.Persisting?
    requires Continues(states, steps) && states[0] == CancelAt(s, t) && i < |states|
    ensures states[i].sch.slot == Some(t) && SlotIsLost(states[i], t) && states[i].acquired == s.acquired
    decreases i
  {
    if i == 0 {
      DroppedOwnerLosesSlot(s, t);
    } else {
      SlotIsLostForGood(s, t, states, steps, i - 1);
      var step := steps[i - 1];
      StepKeepsSlotLost(states[i - 1], step, t);
    }
  }

  // ------------------------------------------------------- a lost reservation

  /** The reboot is reserved for `t`, whose caller was dropped before its task could handle it. */
  ghost predicate ReservationIsLost(s: Sys, t: Id) {
    && Inv(s)
    && s.sch.rebootPending == Some(t) && s.rebootBy == Some(t)
    && t in s.tasks && s.tasks[t].pc == Dropped
  }

  /** A dropped task has no step of its own. */
  lemma DroppedIsIdle(s: Sys, a: Action, t: Id)
    requires Enabled(s, a) && t in s.tasks && t in s.used && s.tasks[t].pc == Dropped && !a.WatchdogFinalize?
    ensures Subject(a) != Some(t)
  {
  }

  lemma FinalizeLeavesDropped(s: Sys, w: Watchdog, now: Time, t: Id)
    requires w.result.Some? && t in s.tasks && s.tasks[t].pc == Dropped
    ensures t in DoFinalize(s, w, now).tasks && DoFinalize(s, w, now).tasks[t] == s.tasks[t]
  {
  }

  lemma DroppedIsFinal(s: Sys, step: Step, t: Id)
    requires Permissible(s, step) && t in s.tasks && t in s.used && s.tasks[t].pc == Dropped
    ensures t in Apply(s, step).tasks && Apply(s, step).tasks[t] == s.tasks[t]
  {
    var a := step.action;
    if a.WatchdogFinalize? {
      hide DoFinalize;
      FinalizeLeavesDropped(s, a.w, a.now, t);
    } else {
      DroppedIsIdle(s, a, t);
      hide Core, Enabled;
      OnlySubjectMoves(s, a, t);
    }
  }

  lemma StepKeepsReservationLost(s: Sys, step: Step, t: Id)
    requires ReservationIsLost(s, t) && Permissible(s, step)
    ensures ReservationIsLost(Apply(s, step), t)
    ensures Apply(s, step).sch.jobs.Keys <= s.sch.jobs.Keys && Apply(s, step).acquired == s.acquired
  {
    TasksAreUsed(s);
    hide Inv, Apply, Permissible;
    StepKeeps(s, step);
    DroppedIsFinal(s, step, t);
    ReservationStep(s, step);
    AcknowledgementStays(s, step);
  }

  lemma DroppedRequestLosesReservation(s: Sys, t: Id)
    requires Inv(s) && t in s.tasks && s.tasks[t].pc.Reserved?
    ensures ReservationIsLost(CancelAt(s, t), t)
  {
    hide Inv;
    TaskFacts(s, t);
    ReservationIsLive(s, t);
    SimpleMoveKeeps(s, t, Dropped);
  }

  /**
   * A reboot request's caller that is dropped between the reservation and the
   * spawn of its task leaves the reservation behind for good: on every
   * continuation it stays, no job is admitted and no slot is acquired.
   */
  lemma {:induction false} ReservationIsLostForGood(s: Sys, t: Id, states: seq<Sys>, steps: seq<Step>, i: nat)
    requires Inv(s) && t in s.tasks && s.tasks[t].pc.Reserved?
    requires Continues(states, steps) && states[0] == CancelAt(s, t) && i < |states|
    ensures ReservationIsLost(states[i], t)
    ensures states[i].sch.jobs.Keys <= s.sch.jobs.Keys && states[i].acquired == s.acquired
    decreases i
  {
    hide ReservationIsLost, Apply, Permissible, Inv;
    if i == 0 {
      DroppedRequestLosesReservation(s, t);
    } else {
      ReservationIsLostForGood(s, t, states, steps, i - 1);
      var step := steps[i - 1];
      StepKeepsReservationLost(states[i - 1], step, t);
    }
  }
}
