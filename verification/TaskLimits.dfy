/**
 * Exactly when the queue stays within its depth and closures never overlap:
 * the steps after which these two limits fail, and no others.
 */
module TaskLimits {
  import opened Wrappers
  import opened Jobs
  import opened SchedulerState
  import opened SchedulerLaws
  import opened Boot
  import opened Tasks
  import opened TaskInvariant
  import opened TaskSteps
  import opened TaskTheorems

  // --------------------------------------------------------------- the queue

  /** Non-internal active jobs fit the queue. */
  predicate QueueFits(s: SchedState) {
    |ActiveRealIds(s.jobs)| <= s.maxQueueDepth
  }

  /** Acquiring the slot for `id` makes a finished real job active again although the queue is full. */
  predicate RevivesIntoFullQueue(s: SchedState, id: Id) {
    && TryAcquire(s, id).1.Acquired?
    && id in s.jobs && !s.jobs[id].status.IsActive() && !s.jobs[id].IsInternal()
    && |ActiveRealIds(s.jobs)| >= s.maxQueueDepth
  }

  lemma AcquireKeepsQueue(s: SchedState, id: Id)
    requires QueueFits(s) && !RevivesIntoFullQueue(s, id)
    ensures QueueFits(TryAcquire(s, id).0)
  {
    var jobs := TryAcquire(s, id).0.jobs;
    if TryAcquire(s, id).1.Acquired? && id in s.jobs && !s.jobs[id].status.IsActive() && !s.jobs[id].IsInternal() {
      ActiveGrowsByOne(s.jobs, jobs, id);
    } else {
      ActiveShrinks(s.jobs, jobs);
    }
  }

  lemma AcquireOverfills(s: SchedState, id: Id)
    requires RevivesIntoFullQueue(s, id)
    ensures !QueueFits(TryAcquire(s, id).0)
  {
    assert ActiveRealIds(TryAcquire(s, id).0.jobs) == ActiveRealIds(s.jobs) + {id};
    assert id !in ActiveRealIds(s.jobs);
  }

  /** New jobs are admitted only below the queue's depth. */
  lemma AdmissionKeepsQueue(s: SchedState, c: Call)
    requires NewId(c).Some? && QueueFits(s) && s.maxQueueDepth >= 1
    ensures QueueFits(Exec(s, c))
  {
    var jobs := Exec(s, c).jobs;
    if jobs == s.jobs {
      ActiveShrinks(s.jobs, jobs);
    } else {
      ActiveGrowsByOne(s.jobs, jobs, NewId(c).value);
    }
  }

  lemma OtherCallKeepsQueue(s: SchedState, c: Call)
    requires FromTask(c) && NewId(c).None? && !c.CallTryAcquire? && QueueFits(s)
    ensures QueueFits(Exec(s, c))
  {
    ActiveShrinks(s.jobs, Exec(s, c).jobs);
  }

  /** Among all calls of tasks only such an acquisition overfills the queue. */
  lemma CallKeepsQueue(s: SchedState, c: Call)
    requires FromTask(c) && QueueFits(s) && s.maxQueueDepth >= 1
    ensures QueueFits(Exec(s, c)) <==> !(c.CallTryAcquire? && RevivesIntoFullQueue(s, c.id))
  {
    if NewId(c).Some? {
      AdmissionKeepsQueue(s, c);
    } else if !c.CallTryAcquire? {
      OtherCallKeepsQueue(s, c);
    } else if RevivesIntoFullQueue(s, c.id) {
      AcquireOverfills(s, c.id);
    } else {
      AcquireKeepsQueue(s, c.id);
    }
  }

  predicate OverfillsQueue(s: Sys, a: Action) {
    a.Dispatch? && RevivesIntoFullQueue(s.sch, a.t)
  }

  lemma StepKeepsQueue(s: Sys, step: Step)
    requires Inv(s) && Permissible(s, step) && QueueFits(s.sch)
    ensures QueueFits(Apply(s, step).sch) <==> !OverfillsQueue(s, step.action)
  {
    var a := step.action;
    assert s.sch.maxQueueDepth >= 1;
    hide Inv, Apply, Core, Enabled, Permissible, Exec, QueueFits, RevivesIntoFullQueue;
    StepsAreCalls(s, step);
    TaskCallsOnly(s, a);
    if CallOf(s, a).Some? {
      CallKeepsQueue(s.sch, CallOf(s, a).value);
    }
  }

  /** Whatever the history, no recovered job is active. */
  lemma StartFitsQueue(launch: Launch)
    requires HasTimes(launch.history)
    ensures QueueFits(Init(launch).sch)
  {
    InitInv(launch);
    assert Init(launch).revived == 0;
    hide BootJobs;
  }

  lemma {:induction false} QueueFitsAlongRun(states: seq<Sys>, steps: seq<Step>, i: nat)
    requires IsRun(states, steps) && i < |states|
    requires forall m :: 0 <= m < i ==> !OverfillsQueue(states[m], steps[m].action)
    ensures QueueFits(states[i].sch)
    decreases i
  {
    hide IsRun, Apply, Permissible, Inv, Init, QueueFits, OverfillsQueue;
    var launch := RunStart(states, steps);
    if i == 0 {
      StartFitsQueue(launch);
    } else {
      QueueFitsAlongRun(states, steps, i - 1);
      RunKeeps(states, steps, i - 1);
      RunStep(states, steps, i - 1);
      StepKeepsQueue(states[i - 1], steps[i - 1]);
    }
  }

  /**
   * On a run, from startup with any history, the non-internal active jobs never
   * exceed the queue's depth if and only if no acquisition of the run takes the
   * slot for a finished real job while the queue is full.
   */
  lemma QueueNeverOverflows(states: seq<Sys>, steps: seq<Step>)
    requires IsRun(states, steps)
    ensures (forall i :: 0 <= i < |states| ==> QueueFits(states[i].sch))
            <==> (forall m :: 0 <= m < |steps| ==> !OverfillsQueue(states[m], steps[m].action))
  {
    hide Apply, Permissible, QueueFits;
    if forall m :: 0 <= m < |steps| ==> !OverfillsQueue(states[m], steps[m].action) {
      forall i | 0 <= i < |states|
        ensures QueueFits(states[i].sch)
      {
        QueueFitsAlongRun(states, steps, i);
      }
    } else {
      var m :| 0 <= m < |steps| && OverfillsQueue(states[m], steps[m].action);
      RunKeeps(states, steps, m);
      RunStep(states, steps, m);
      if QueueFits(states[m].sch) {
        StepKeepsQueue(states[m], steps[m]);
        assert !QueueFits(states[m + 1].sch);
      }
    }
  }

  // ---------------------------------------------------------------- closures

  lemma DispatchKeepsWatch(s: Sys, a: Action)
    requires Enabled(s, a) && a.IsDispatch() && !IsWatch(a)
    ensures Core(s, a).watch == s.watch && Core(s, a).detached == s.detached
  {
    hide TryAcquire;
  }

  lemma RequestKeepsWatch(s: Sys, a: Action)
    requires Enabled(s, a) && a.IsRequest()
    ensures Core(s, a).watch == s.watch && Core(s, a).detached == s.detached
  {
    hide AdmitJob, CreateRollbackJob, TryReserveSelfUpdate, ReserveReboot, DropSelfUpdateGuard, DeleteJob;
  }

  lemma OutcomeKeepsWatch(s: Sys, a: Action)
    requires Enabled(s, a) && a.IsOutcome()
    ensures Core(s, a).watch == s.watch && Core(s, a).detached == s.detached
  {
    hide CompleteJob, FailJob, FailJobWithDiagnostics, DeleteJob, ReleaseSelfUpdate, ReserveReboot, SetJobRebooting,
         BeginRebootExecution, RollbackReboot;
  }

  /** The watchdogs of a state, after one of them got its result. */
  lemma ResultEndsWaiting(s: Sys, w: Watchdog, ok: bool)
    requires Inv(s) && w in s.watch && w.result.None?
    ensures |Unfinished(s.watch)| == 1 && Unfinished(s.watch - {w} + {w.(result := Some(ok))}) == {}
  {
    WatchdogOwnsSlot(s, w);
    assert Unfinished(s.watch) == {w};
  }

  lemma FinalizeKeepsUnfinished(s: Sys, w: Watchdog, now: Time)
    requires w in s.watch && w.result.Some?
    ensures Executing(DoFinalize(s, w, now)) == Executing(s)
  {
    assert Unfinished(s.watch - {w}) == Unfinished(s.watch);
  }

  lemma SpawnExecutes(s: Sys, t: Id)
    requires t in s.tasks && s.tasks[t].pc.Persisting? && s.watch == {}
    ensures Executing(DoSpawn(s, t)) == 1 + s.detached
  {
    var w := Watchdog(t, s.tasks[t].pc.generation, None);
    assert Unfinished(DoSpawn(s, t).watch) == {w};
  }

  /** The actions of watchdogs and closures. */
  predicate IsWatch(a: Action) {
    a.Spawn? || a.ClosureExit? || a.Backstop? || a.WatchdogFinalize? || a.DetachedExit?
  }

  lemma ResultExecuting(s: Sys, w: Watchdog, ok: bool)
    requires Inv(s) && w in s.watch && w.result.None?
    ensures Executing(Core(s, ClosureExit(w, ok))) <= Executing(s)
    ensures Executing(Core(s, Backstop(w))) <= Executing(s)
  {
    hide Inv, Unfinished;
    ResultEndsWaiting(s, w, ok);
    ResultEndsWaiting(s, w, false);
  }

  lemma WatchExecuting(s: Sys, a: Action)
    requires Inv(s) && Enabled(s, a) && IsWatch(a)
    ensures a.Spawn? ==> Executing(Core(s, a)) == 1 + s.detached
    ensures !a.Spawn? ==> Executing(Core(s, a)) <= Executing(s)
  {
    assert a.Spawn? ==> s.watch == {};
    hide Inv, DoSpawn, DoFinalize, Unfinished;
    match a
    case Spawn(t) => SpawnExecutes(s, t);
    case ClosureExit(w, ok) => ResultExecuting(s, w, ok);
    case Backstop(w) => ResultExecuting(s, w, false);
    case WatchdogFinalize(w, now) => FinalizeKeepsUnfinished(s, w, now);
    case DetachedExit =>
  }

  lemma OtherExecuting(s: Sys, a: Action)
    requires Enabled(s, a) && !IsWatch(a)
    ensures Executing(Core(s, a)) == Executing(s)
  {
    hide Core, Enabled;
    if a.IsDispatch() {
      DispatchKeepsWatch(s, a);
    } else if a.IsRequest() {
      RequestKeepsWatch(s, a);
    } else {
      OutcomeKeepsWatch(s, a);
    }
  }

  lemma NotifyKeepsExecuting(s: Sys, wake: Id)
    ensures Executing(NotifyOne(s, wake)) == Executing(s)
  {
  }

  /** A spawn adds a closure to the detached ones; nothing else adds any. */
  lemma StepExecuting(s: Sys, step: Step)
    requires Inv(s) && Permissible(s, step)
    ensures step.action.Spawn? ==> Executing(Apply(s, step)) == 1 + s.detached
    ensures !step.action.Spawn? ==> Executing(Apply(s, step)) <= Executing(s)
  {
    hide Inv, Core, Executing;
    if IsWatch(step.action) {
      WatchExecuting(s, step.action);
    } else {
      OtherExecuting(s, step.action);
    }
    NotifyKeepsExecuting(Core(s, step.action), step.wake);
  }

  /** The step starts a closure while one from before an elapsed backstop still executes. */
  predicate SpawnsBesideDetached(s: Sys, a: Action) {
    a.Spawn? && s.detached > 0
  }

  lemma {:induction false} ExclusiveAlongRun(states: seq<Sys>, steps: seq<Step>, i: nat)
    requires IsRun(states, steps) && i < |states|
    requires forall m :: 0 <= m < i ==> !SpawnsBesideDetached(states[m], steps[m].action)
    ensures Executing(states[i]) <= 1
    decreases i
  {
    hide IsRun, Apply, Permissible, Inv;
    var launch := RunStart(states, steps);
    if i == 0 {
      assert Executing(states[0]) == 0 by {
        assert Unfinished({}) == {};
      }
    } else {
      hide Executing;
      ExclusiveAlongRun(states, steps, i - 1);
      RunKeeps(states, steps, i - 1);
      RunStep(states, steps, i - 1);
      StepExecuting(states[i - 1], steps[i - 1]);
    }
  }

  /**
   * At most one closure executes in every state of a run if and only if no
   * watchdog of the run is spawned while a detached closure still executes.
   */
  lemma ClosuresNeverOverlap(states: seq<Sys>, steps: seq<Step>)
    requires IsRun(states, steps)
    ensures (forall i :: 0 <= i < |states| ==> Executing(states[i]) <= 1)
            <==> (forall m :: 0 <= m < |steps| ==> !SpawnsBesideDetached(states[m], steps[m].action))
  {
    hide Apply, Permissible, Executing;
    if forall m :: 0 <= m < |steps| ==> !SpawnsBesideDetached(states[m], steps[m].action) {
      forall i | 0 <= i < |states|
        ensures Executing(states[i]) <= 1
      {
        ExclusiveAlongRun(states, steps, i);
      }
    } else {
      var m :| 0 <= m < |steps| && SpawnsBesideDetached(states[m], steps[m].action);
      RunKeeps(states, steps, m);
      RunStep(states, steps, m);
      StepExecuting(states[m], steps[m]);
      assert Executing(states[m + 1]) > 1;
    }
  }
}
