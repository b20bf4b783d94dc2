/**
 * A queue that is full for good.  Rollback jobs are admitted and never
 * dispatched, and jobs of dropped callers may stay behind too; once the queue's
 * depth is reached by such jobs, the scheduler refuses every request.
 */
module FullQueue {
  import opened Wrappers
  import opened Jobs
  import opened SchedulerState
  import opened SchedulerLaws
  import opened Boot
  import opened Tasks
  import opened TaskInvariant
  import opened TaskSteps
  import opened Cancellation
  import opened Abandonment

  /** The job counts against the queue, and nobody is left to finish it. */
  ghost predicate Abandoned(s: Sys, k: Id) {
    Callerless(s, k) && Unwatched(s, k) && k in s.sch.jobs && s.sch.jobs[k].IsActiveReal()
  }

  /** No job, rollback, self-update or reboot is admitted, forced and acknowledged or not. */
  ghost predicate RefusesEverything(s: SchedState) {
    && (forall id, op, packages, now, boot :: AdmitJob(s, id, op, packages, now, boot).1.Err?)
    && (forall original, id, now, boot ::
          var r := CreateRollbackJob(s, original, id, now, boot).1;
          r.Err? || r.value.None?)
    && (forall id, packages, now, boot :: TryReserveSelfUpdate(s, id, packages, now, boot).1.Err?)
    && (forall force, ack :: RebootRefusal(s, force, ack).Some?)
  }

  predicate QueueIsFull(s: SchedState) {
    1 <= s.maxQueueDepth <= |ActiveRealIds(s.jobs)|
  }

  lemma FullQueueRefuses(s: SchedState)
    requires QueueIsFull(s)
    ensures RefusesEverything(s)
  {
  }

  /** With a full queue calls add no job and make no reservation. */
  lemma FullQueueCall(s: SchedState, c: Call)
    requires FromTask(c) && RefusesEverything(s)
    ensures
      var s' := Exec(s, c);
      && s'.jobs.Keys <= s.jobs.Keys && s'.maxQueueDepth == s.maxQueueDepth
      && (s'.selfUpdate == s.selfUpdate || s'.selfUpdate == None)
      && (s'.rebootPending == s.rebootPending || s'.rebootPending == None)
      && !CallReserves(s, c)
  {
  }

  ghost predicate AllAbandoned(s: Sys, stuck: set<Id>) {
    forall k :: k in stuck ==> Abandoned(s, k)
  }

  lemma StuckJobsFillQueue(s: Sys, stuck: set<Id>)
    requires AllAbandoned(s, stuck) && 1 <= s.sch.maxQueueDepth <= |stuck|
    ensures RefusesEverything(s.sch)
  {
    assert stuck <= ActiveRealIds(s.sch.jobs);
    SubsetSize(stuck, ActiveRealIds(s.sch.jobs));
    FullQueueRefuses(s.sch);
  }

  lemma StepKeepsAbandoned(s: Sys, step: Step, k: Id)
    requires Permissible(s, step) && Abandoned(s, k) && !ReservesReboot(s, step.action)
    ensures Abandoned(Apply(s, step), k) && Apply(s, step).sch.jobs[k] == s.sch.jobs[k]
  {
    hide Apply, Permissible, Callerless, Unwatched, ReservesReboot;
    StepKeepsCallerless(s, step, k);
    StepLeavesJob(s, step, k);
  }

  lemma StepKeepsClogged(s: Sys, step: Step, stuck: set<Id>)
    requires Permissible(s, step) && AllAbandoned(s, stuck) && 1 <= s.sch.maxQueueDepth <= |stuck|
    ensures
      var s' := Apply(s, step);
      && AllAbandoned(s', stuck) && s'.sch.maxQueueDepth == s.sch.maxQueueDepth
      && s'.sch.jobs.Keys <= s.sch.jobs.Keys
      && (forall k :: k in stuck ==> s'.sch.jobs[k] == s.sch.jobs[k])
      && (s'.sch.selfUpdate == s.sch.selfUpdate || s'.sch.selfUpdate == None)
      && (s'.sch.rebootPending == s.sch.rebootPending || s'.sch.rebootPending == None)
  {
    var a := step.action;
    StuckJobsFillQueue(s, stuck);
    StepsAreCalls(s, step);
    TaskCallsOnly(s, a);
    ReservationsAreCalls(s, a);
    hide Apply, Permissible, Exec, FromTask, RefusesEverything, Abandoned, ReservesReboot, CallReserves;
    if CallOf(s, a).Some? {
      FullQueueCall(s.sch, CallOf(s, a).value);
    }
    forall k | k in stuck
      ensures Abandoned(Apply(s, step), k) && Apply(s, step).sch.jobs[k] == s.sch.jobs[k]
    {
      StepKeepsAbandoned(s, step, k);
    }
  }

  /**
   * As many abandoned jobs as the queue is deep close the scheduler for good:
   * on every continuation their records stay as they are, no job is added, no
   * reservation is made, every request is refused, and none of them can be
   * deleted.
   */
  lemma {:induction false} CloggedForGood(states: seq<Sys>, steps: seq<Step>, stuck: set<Id>, i: nat)
    requires Continues(states, steps) && i < |states|
    requires AllAbandoned(states[0], stuck) && 1 <= states[0].sch.maxQueueDepth <= |stuck|
    ensures
      var (s, s') := (states[0], states[i]);
      && AllAbandoned(s', stuck) && s'.sch.maxQueueDepth == s.sch.maxQueueDepth
      && s'.sch.jobs.Keys <= s.sch.jobs.Keys
      && (forall k :: k in stuck ==> s'.sch.jobs[k] == s.sch.jobs[k] && DeleteJob(s'.sch, k) == (s'.sch, false))
      && (s'.sch.selfUpdate == s.sch.selfUpdate || s'.sch.selfUpdate == None)
      && (s'.sch.rebootPending == s.sch.rebootPending || s'.sch.rebootPending == None)
      && RefusesEverything(s'.sch)
    decreases i
  {
    hide Apply, Permissible, RefusesEverything, Callerless, Unwatched;
    if i > 0 {
      CloggedForGood(states, steps, stuck, i - 1);
      ContinuesStep(states, steps, i - 1);
      StepKeepsClogged(states[i - 1], steps[i - 1], stuck);
    }
    StuckJobsFillQueue(states[i], stuck);
  }

  // ---------------------------------------------------------- rollback jobs

  lemma RollbackAdds(s: SchedState, original: Id, id: Id, now: Time, boot: Option<string>)
    requires CreateRollbackJob(s, original, id, now, boot).1 == Ok(Some(id))
    ensures
      var s' := CreateRollbackJob(s, original, id, now, boot).0;
      && s.rebootPending.None? && original in s.jobs
      && s' == s.(jobs := s'.jobs) && s'.jobs.Keys == s.jobs.Keys + {id}
      && (forall k :: k in s.jobs && k != id ==> s'.jobs[k] == s.jobs[k])
      && s'.jobs[id].status == Pending && (s'.jobs[id].IsInternal() <==> s.jobs[original].IsInternal())
  {
  }

  lemma RollbackEffect(s: Sys, a: Action)
    requires Enabled(s, a) && a.AdmitRollback? && Notifies(s, a)
    ensures
      var (sch, r) := CreateRollbackJob(s.sch, a.original, a.id, a.now, a.boot);
      r == Ok(Some(a.id)) && a.id !in s.used && Core(s, a) == s.(sch := sch, used := s.used + {a.id})
  {
  }

  lemma NotifyKeepsAbandoned(s: Sys, wake: Id, k: Id)
    requires Abandoned(s, k)
    ensures Abandoned(NotifyOne(s, wake), k)
  {
  }

  /** An admitted rollback of a real job is abandoned at once. */
  lemma RollbackIsAbandoned(s: Sys, step: Step)
    requires Inv(s) && Permissible(s, step) && step.action.AdmitRollback?
    requires Notifies(s, step.action) && !s.sch.jobs[step.action.original].IsInternal()
    ensures Abandoned(Apply(s, step), step.action.id)
  {
    var a := step.action;
    TasksAreUsed(s);
    RollbackEffect(s, a);
    FreshIsUnwatched(s, a.id);
    hide Inv, CreateRollbackJob, Core, Notifies, Enabled;
    RollbackAdds(s.sch, a.original, a.id, a.now, a.boot);
    NotifyKeepsAbandoned(Core(s, a), step.wake, a.id);
  }

  lemma FreshIsUnwatched(s: Sys, k: Id)
    requires Inv(s) && k !in s.used
    ensures Unwatched(s, k)
  {
  }

  // ------------------------------------------------------- a way to get there

  lemma {:induction false} Bounded(used: set<Id>) returns (b: Id)
    ensures forall k :: k in used ==> k < b
    decreases used
  {
    b := 0;
    if used != {} {
      var k :| k in used;
      var rest := Bounded(used - {k});
      b := if k < rest then rest else k + 1;
      assert forall j :: j in used ==> j == k || j in used - {k};
    }
  }

  /** Only rollbacks of `original` have been requested, `stuck` are their jobs, and nothing else is active. */
  ghost predicate OnlyRollbacks(s: Sys, original: Id, stuck: set<Id>) {
    && s.tasks == map[] && s.sch.admission == Open && s.sch.selfUpdate.None? && s.sch.rebootPending.None?
    && original in s.sch.jobs && s.sch.jobs[original].status in {Failed, Completed}
    && !s.sch.jobs[original].IsInternal()
    && ActiveRealIds(s.sch.jobs) == stuck
  }

  lemma RollbackIsAdmitted(s: Sys, original: Id, stuck: set<Id>, id: Id)
    requires OnlyRollbacks(s, original, stuck) && |stuck| < s.sch.maxQueueDepth
    requires id !in s.used && id !in s.sch.jobs
    ensures
      var a := AdmitRollback(original, id, 0, None);
      && Permissible(s, Step(a, 0)) && Notifies(s, a)
      && OnlyRollbacks(Apply(s, Step(a, 0)), original, stuck + {id})
      && Apply(s, Step(a, 0)).sch.maxQueueDepth == s.sch.maxQueueDepth
  {
    var a := AdmitRollback(original, id, 0, None);
    assert Notifies(s, a);
    RollbackEffect(s, a);
    hide CreateRollbackJob, AdmitJob;
    RollbackAdds(s.sch, original, id, 0, None);
    assert ActiveRealIds(Core(s, a).sch.jobs) == stuck + {id};
  }

  lemma StartHasNoTasks(launch: Launch, original: Id)
    requires HasTimes(launch.history) && original in Init(launch).sch.jobs
    requires Init(launch).sch.jobs[original].status in {Failed, Completed}
    requires !Init(launch).sch.jobs[original].IsInternal()
    ensures OnlyRollbacks(Init(launch), original, {})
  {
    BootIsProper(launch.history, launch.clock, launch.boot);
    hide BootJobs;
  }

  /**
   * From any startup that finds a completed or failed real job, `n` requests to
   * roll it back leave `n` abandoned jobs behind, up to the queue's depth.
   */
  lemma {:induction false} RollbacksPileUp(launch: Launch, original: Id, n: nat)
    returns (states: seq<Sys>, steps: seq<Step>, stuck: set<Id>)
    requires HasTimes(launch.history) && original in Init(launch).sch.jobs
    requires Init(launch).sch.jobs[original].status in {Failed, Completed}
    requires !Init(launch).sch.jobs[original].IsInternal() && n <= Init(launch).sch.maxQueueDepth
    ensures IsRun(states, steps) && |steps| == n && |states| == n + 1 && states[0] == Init(launch)
    ensures forall m :: 0 <= m < n ==> steps[m].action.AdmitRollback? && steps[m].action.original == original
    ensures OnlyRollbacks(states[n], original, stuck) && AllAbandoned(states[n], stuck) && |stuck| == n
    ensures states[n].sch.maxQueueDepth == Init(launch).sch.maxQueueDepth
    decreases n
  {
    hide Apply, Permissible, OnlyRollbacks, Abandoned, Init, Inv, HasTimes;
    if n == 0 {
      StartHasNoTasks(launch, original);
      states, steps, stuck := [Init(launch)], [], {};
    } else {
      states, steps, stuck := RollbacksPileUp(launch, original, n - 1);
      RunKeeps(states, steps, n - 1);
      var step, stuck' := OneMoreRollback(states[n - 1], original, stuck);
      ExtendRun(states, steps, step);
      states, steps, stuck := states + [Apply(states[n - 1], step)], steps + [step], stuck';
    }
  }

  /**
   * One finished real job suffices to close the scheduler: after as many
   * requests to roll it back as the queue is deep, every request is refused
   * from then on.
   */
  lemma RollbacksCloseScheduler(launch: Launch, original: Id) returns (states: seq<Sys>, steps: seq<Step>)
    requires HasTimes(launch.history) && original in Init(launch).sch.jobs
    requires Init(launch).sch.jobs[original].status in {Failed, Completed}
    requires !Init(launch).sch.jobs[original].IsInternal()
    ensures IsRun(states, steps) && states[0] == Init(launch) && |steps| == Init(launch).sch.maxQueueDepth
    ensures forall m :: 0 <= m < |steps| ==> steps[m].action.AdmitRollback? && steps[m].action.original == original
    ensures forall later: seq<Sys>, rest: seq<Step> ::
              Continues(later, rest) && later[0] == states[|steps|] ==> RefusesEverything(later[|rest|].sch)
  {
    var depth := Init(launch).sch.maxQueueDepth;
    InitInv(launch);
    assert depth >= 1;
    var stuck;
    hide Inv, Init, Apply, Permissible, RefusesEverything, Abandoned;
    states, steps, stuck := RollbacksPileUp(launch, original, depth);
    forall later: seq<Sys>, rest: seq<Step> | Continues(later, rest) && later[0] == states[|steps|]
      ensures RefusesEverything(later[|rest|].sch)
    {
      CloggedForGood(later, rest, stuck, |rest|);
    }
  }

  lemma OneMoreRollback(s: Sys, original: Id, stuck: set<Id>) returns (step: Step, stuck': set<Id>)
    requires Inv(s) && OnlyRollbacks(s, original, stuck) && AllAbandoned(s, stuck) && |stuck| < s.sch.maxQueueDepth
    ensures Permissible(s, step) && step.action.AdmitRollback? && step.action.original == original
    ensures
      var s' := Apply(s, step);
      && OnlyRollbacks(s', original, stuck') && AllAbandoned(s', stuck') && |stuck'| == |stuck| + 1
      && s'.sch.maxQueueDepth == s.sch.maxQueueDepth
  {
    TasksAreUsed(s);
    OriginalIsReal(s, original, stuck);
    hide Inv, Apply, Permissible, Abandoned, Notifies, ReservesReboot, OnlyRollbacks;
    var id := Bounded(s.used);
    RollbackIsAdmitted(s, original, stuck, id);
    step, stuck' := Step(AdmitRollback(original, id, 0, None), 0), stuck + {id};
    RollbackIsAbandoned(s, step);
    RollbackReservesNothing(s, step.action);
    forall k | k in stuck
      ensures Abandoned(Apply(s, step), k)
    {
      StepKeepsAbandoned(s, step, k);
    }
  }

  lemma RollbackReservesNothing(s: Sys, a: Action)
    requires a.AdmitRollback?
    ensures !ReservesReboot(s, a)
  {
  }

  lemma OriginalIsReal(s: Sys, original: Id, stuck: set<Id>)
    requires OnlyRollbacks(s, original, stuck)
    ensures original in s.sch.jobs && !s.sch.jobs[original].IsInternal() && stuck <= s.sch.jobs.Keys
  {
  }

  lemma ExtendRun(states: seq<Sys>, steps: seq<Step>, step: Step)
    requires IsRun(states, steps) && |states| == |steps| + 1 && Permissible(states[|steps|], step)
    ensures IsRun(states + [Apply(states[|steps|], step)], steps + [step])
  {
    hide Apply, Permissible, Init, HasTimes;
  }
}
