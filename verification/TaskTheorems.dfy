/**
 * The guarantees of the scheduler over whole runs: every interleaving of any
 * number of requests, tasks, watchdogs and cancellations, with arbitrary
 * clocks and backend answers.
 */
module TaskTheorems {
  import opened Wrappers
  import opened Jobs
  import opened SchedulerState
  import opened SchedulerLaws
  import opened Persistence
  import opened Boot
  import opened Tasks
  import opened TaskInvariant
  import opened TaskSteps

  // ---------------------------------------------------------- slot ownership

  /**
   * The un-finalized watchdogs, with a task between acquisition and spawn, are
   * exactly the slot's holder under the current generation, however often the
   * generation has wrapped; acquisitions and releases balance.
   */
  lemma SlotOwnership(states: seq<Sys>, steps: seq<Step>, i: nat)
    requires IsRun(states, steps) && i < |states|
    ensures
      var s := states[i];
      && (forall w :: w in s.watch ==> StillOwns(s.sch, w.job, w.generation))
      && (forall v, w :: v in s.watch && w in s.watch ==> v == w)
      && (s.sch.slot.Some? <==> s.watch != {} || exists t :: t in s.tasks && s.tasks[t].pc.Persisting?)
      && (forall t :: t in s.tasks && s.tasks[t].pc.Persisting? ==>
            s.watch == {} && StillOwns(s.sch, t, s.tasks[t].pc.generation))
      && s.acquired == s.released + (if s.sch.slot.Some? then 1 else 0)
  {
    RunKeeps(states, steps, i);
    var s := states[i];
    if s.sch.slot.Some? && s.watch == {} {
      assert s.sch.slot.value in s.tasks && s.tasks[s.sch.slot.value].pc.Persisting?;
    }
  }

  lemma FinalizeReleases(s: Sys, step: Step)
    requires Inv(s) && Permissible(s, step) && step.action.WatchdogFinalize?
    ensures
      var w := step.action.w;
      && StillOwns(s.sch, w.job, w.generation)
      && Apply(s, step).sch.slot == None && Apply(s, step).watch == {}
      && Apply(s, step).released == s.released + 1 == s.acquired
  {
    var w := step.action.w;
    WatchdogOwnsSlot(s, w);
    assert s.acquired == s.released + 1;
    hide Inv;
    assert s.watch - {w} == {};
  }

  /** Every watchdog finds that it still owns the slot and releases its acquisition, once. */
  lemma EveryWatchdogReleases(states: seq<Sys>, steps: seq<Step>, i: nat)
    requires IsRun(states, steps) && i < |steps| && steps[i].action.WatchdogFinalize?
    ensures
      var w := steps[i].action.w;
      && StillOwns(states[i].sch, w.job, w.generation)
      && states[i + 1].sch.slot == None && states[i + 1].watch == {}
      && states[i + 1].released == states[i].released + 1 == states[i].acquired
  {
    RunKeeps(states, steps, i);
    FinalizeReleases(states[i], steps[i]);
  }

  /** Closures on blocking threads: one per watchdog still waiting for its own, plus the detached ones. */
  ghost function Executing(s: Sys): nat {
    |Unfinished(s.watch)| + s.detached
  }

  function Unfinished(watch: set<Watchdog>): set<Watchdog> {
    set w | w in watch && w.result.None?
  }

  function Backstops(steps: seq<Step>): nat
    decreases |steps|
  {
    if steps == [] then 0
    else Backstops(steps[..|steps| - 1]) + if steps[|steps| - 1].action.Backstop? then 1 else 0
  }

  lemma {:induction false} DetachedAreBackstops(states: seq<Sys>, steps: seq<Step>, i: nat)
    requires IsRun(states, steps) && i < |states|
    ensures states[i].detached <= Backstops(steps[..i])
    decreases i
  {
    if i > 0 {
      DetachedAreBackstops(states, steps, i - 1);
      assert steps[..i][..i - 1] == steps[..i - 1];
      HistoryCounts(states[i - 1], steps[i - 1]);
    }
  }

  /**
   * At most one closure executes at a time, plus one for every backstop that
   * has elapsed; so never two on a run on which no backstop elapses.
   */
  lemma ClosuresAreExclusive(states: seq<Sys>, steps: seq<Step>, i: nat)
    requires IsRun(states, steps) && i < |states|
    ensures Executing(states[i]) <= 1 + Backstops(steps[..i])
  {
    SlotOwnership(states, steps, i);
    DetachedAreBackstops(states, steps, i);
    var live := Unfinished(states[i].watch);
    if live != {} {
      var w :| w in live;
      assert live == {w};
    }
  }

  // -------------------------------------------------------------- life cycle

  /** The step is no acquisition, or one whose job is Pending or Running, or gone. */
  predicate RevivesNobody(s: Sys, a: Action) {
    Acquires(s, a) ==> a.t !in s.sch.jobs || Dispatchable(s.sch, a.t)
  }

  /** The step is no acquisition, or one whose job is in the job map. */
  predicate FindsItsJob(s: Sys, a: Action) {
    Acquires(s, a) ==> a.t in s.sch.jobs
  }

  lemma {:induction false} ForwardAlongRun(states: seq<Sys>, steps: seq<Step>, i: nat, j: nat)
    requires IsRun(states, steps) && i <= j < |states|
    requires forall m :: i <= m < j ==> RevivesNobody(states[m], steps[m].action)
    ensures MovesForward(states[i], states[j])
    decreases j
  {
    hide Inv, Apply, Permissible;
    if i < j {
      ForwardAlongRun(states, steps, i, j - 1);
      RunStep(states, steps, j - 1);
      assert RevivesNobody(states[j - 1], steps[j - 1].action);
      StepMovesForward(states[j - 1], steps[j - 1]);
      ForwardIsTransitive(states[i], states[j - 1], states[j]);
    } else {
      RunKeeps(states, steps, i);
      TasksAreUsed(states[i]);
    }
  }

  /**
   * Jobs go only Pending, Running, Rebooting, terminal (skipping allowed) along
   * a run, and never come back once gone, if and only if no acquisition of the
   * run finds its job in another status than Pending or Running.
   */
  lemma LifeCycle(states: seq<Sys>, steps: seq<Step>)
    requires IsRun(states, steps)
    ensures (forall i, j :: 0 <= i <= j < |states| ==> MovesForward(states[i], states[j]))
            <==> (forall m :: 0 <= m < |steps| ==> RevivesNobody(states[m], steps[m].action))
  {
    if forall m :: 0 <= m < |steps| ==> RevivesNobody(states[m], steps[m].action) {
      forall i, j | 0 <= i <= j < |states|
        ensures MovesForward(states[i], states[j])
      {
        ForwardAlongRun(states, steps, i, j);
      }
    } else {
      var m :| 0 <= m < |steps| && !RevivesNobody(states[m], steps[m].action);
      RunKeeps(states, steps, m);
      RevivalMovesBack(states[m], steps[m]);
      assert !MovesForward(states[m], states[m + 1]);
    }
  }

  lemma OneMoreExact(s: Sys, step: Step)
    requires Permissible(s, step)
    ensures
      var s' := Apply(s, step);
      && s.revived <= s'.revived && (s'.revived == s.revived <==> RevivesNobody(s, step.action))
      && s.phantoms <= s'.phantoms && (s'.phantoms == s.phantoms <==> FindsItsJob(s, step.action))
  {
    HistoryCounts(s, step);
    hide Apply, Permissible;
  }

  /** The counters are zero exactly when every acquisition so far found its job Pending or Running. */
  lemma {:induction false} HistoryIsExact(states: seq<Sys>, steps: seq<Step>, i: nat)
    requires IsRun(states, steps) && i < |states|
    ensures states[i].revived == 0 <==> forall m :: 0 <= m < i ==> RevivesNobody(states[m], steps[m].action)
    ensures states[i].phantoms == 0 <==> forall m :: 0 <= m < i ==> FindsItsJob(states[m], steps[m].action)
    decreases i
  {
    hide Apply, Permissible, IsRun, RevivesNobody, FindsItsJob;
    var launch := RunStart(states, steps);
    if i > 0 {
      RunStep(states, steps, i - 1);
      HistoryIsExact(states, steps, i - 1);
      OneMoreExact(states[i - 1], steps[i - 1]);
    }
  }

  /** `completed_at` is set exactly on the terminal jobs. */
  ghost predicate TimesExact(jobs: map<Id, Job>) {
    forall k :: k in jobs ==> (jobs[k].completedAt.Some? <==> jobs[k].status.IsTerminal())
  }

  /** A revived job was terminal, and runs with its completion time still set. */
  lemma RevivalKeepsTime(s: Sys, step: Step)
    requires Inv(s) && Permissible(s, step) && !RevivesNobody(s, step.action) && TimesExact(s.sch.jobs)
    ensures !TimesExact(Apply(s, step).sch.jobs)
  {
    var t := step.action.t;
    TaskFacts(s, t);
    assert t in Apply(s, step).sch.jobs && Apply(s, step).sch.jobs[t].status == Running;
  }

  /**
   * Completion times are exact in every state of a run if and only if no
   * acquisition of the run finds its job in another status than Pending or
   * Running.
   */
  lemma CompletionTimesAreExact(states: seq<Sys>, steps: seq<Step>)
    requires IsRun(states, steps)
    ensures (forall i :: 0 <= i < |states| ==> TimesExact(states[i].sch.jobs))
            <==> (forall m :: 0 <= m < |steps| ==> RevivesNobody(states[m], steps[m].action))
  {
    if forall m :: 0 <= m < |steps| ==> RevivesNobody(states[m], steps[m].action) {
      forall i | 0 <= i < |states|
        ensures TimesExact(states[i].sch.jobs)
      {
        RunKeeps(states, steps, i);
        HistoryIsExact(states, steps, i);
        ExactWithoutRevival(states[i]);
      }
    } else {
      var m :| 0 <= m < |steps| && !RevivesNobody(states[m], steps[m].action);
      RunKeeps(states, steps, m);
      RunStep(states, steps, m);
      hide Inv, IsRun, Apply, Permissible;
      if TimesExact(states[m].sch.jobs) {
        RevivalKeepsTime(states[m], steps[m]);
        assert !TimesExact(states[m + 1].sch.jobs);
      }
    }
  }

  lemma ExactWithoutRevival(s: Sys)
    requires Inv(s) && s.revived == 0
    ensures TimesExact(s.sch.jobs)
  {
  }

  /**
   * Whatever a process of this run persists, the next process may start from:
   * its finished jobs carry their completion times, revived or not.
   */
  lemma NextStartIsProper(states: seq<Sys>, steps: seq<Step>, i: nat, list: seq<Job>)
    requires IsRun(states, steps) && i < |states| && IsListing(list, states[i].sch.jobs)
    ensures HasTimes(Persisted(list))
  {
    RunKeeps(states, steps, i);
    RetentionIsExact(list);
    assert CompletionTimes(states[i].revived, states[i].sch.jobs);
    hide Inv, IsRun, Persisted;
    forall k | 0 <= k < |Persisted(list)| && Persisted(list)[k].status.IsTerminal()
      ensures Persisted(list)[k].completedAt.Some?
    {
      var job := Persisted(list)[k];
      assert multiset(Persisted(list))[job] <= multiset(list)[job];
      assert job in list && states[i].sch.jobs[job.id] == job;
    }
  }

  // ---------------------------------------------------------------- capacity

  /**
   * Running jobs never exceed `max_concurrent`.  Non-internal active jobs
   * exceed `max_queue_depth` by at most the number of acquisitions that
   * revived a job, hence never when each found its job Pending or Running.
   */
  lemma CapacityHolds(states: seq<Sys>, steps: seq<Step>, i: nat)
    requires IsRun(states, steps) && i < |states|
    ensures |RunningIds(states[i].sch.jobs)| <= states[i].sch.maxConcurrent
    ensures |ActiveRealIds(states[i].sch.jobs)| <= states[i].sch.maxQueueDepth + states[i].revived
    ensures (forall m :: 0 <= m < i ==> RevivesNobody(states[m], steps[m].action)) ==>
              |ActiveRealIds(states[i].sch.jobs)| <= states[i].sch.maxQueueDepth
  {
    RunKeeps(states, steps, i);
    HistoryIsExact(states, steps, i);
  }

  // ------------------------------------------------------------- reservations

  /**
   * While a reboot is reserved for job r, r is Pending or Rebooting, nothing
   * else is Pending, no job appears, the slot is not taken, and only the
   * rollback by the task that made the reservation ends it.
   */
  lemma RebootReservationIsExclusive(states: seq<Sys>, steps: seq<Step>, i: nat)
    requires IsRun(states, steps) && i < |steps| && states[i].sch.rebootPending.Some?
    ensures
      var (s, s', r) := (states[i], states[i + 1], states[i].sch.rebootPending.value);
      && r in s.sch.jobs && s.sch.jobs[r].status in {Pending, Rebooting}
      && (forall k :: k in s.sch.jobs && k != r ==> s.sch.jobs[k].status != Pending)
      && s'.sch.jobs.Keys <= s.sch.jobs.Keys
      && s'.acquired == s.acquired && (s'.sch.slot == s.sch.slot || s'.sch.slot == None)
      && (s'.sch.rebootPending != Some(r) ==>
            steps[i].action.RollBack? && s.rebootBy == Some(steps[i].action.t)
            && s.tasks[steps[i].action.t].pc == RollingBack(r))
  {
    var (s, step) := (states[i], steps[i]);
    RunKeeps(states, steps, i);
    assert Reservation(s.sch.rebootPending, s.rebootBy, s.sch.jobs);
    hide Inv, Reservation, Apply, Permissible;
    ReservationStep(s, step);
  }

  lemma ReservationStep(s: Sys, step: Step)
    requires Inv(s) && Permissible(s, step) && s.sch.rebootPending.Some?
    ensures
      var s' := Apply(s, step);
      && s'.sch.jobs.Keys <= s.sch.jobs.Keys
      && s'.acquired == s.acquired && (s'.sch.slot == s.sch.slot || s'.sch.slot == None)
      && (s'.sch.rebootPending != s.sch.rebootPending ==>
            step.action.RollBack? && s.rebootBy == Some(step.action.t)
            && step.action.t in s.tasks
            && s.tasks[step.action.t].pc == RollingBack(s.sch.rebootPending.value))
  {
    hide Inv, Core, Enabled, Exec;
    StepsAreCalls(s, step);
    TaskCallsOnly(s, step.action);
    HistoryCounts(s, step);
    if CallOf(s, step.action).Some? {
      CallUnderReservation(s.sch, CallOf(s, step.action).value);
    }
    if Apply(s, step).sch.rebootPending != s.sch.rebootPending {
      OnlyOwnerEndsReservation(s, step);
    }
  }

  lemma BarrierInState(s: Sys)
    requires Inv(s) && s.sch.selfUpdate.Some?
    ensures
      var j := s.sch.selfUpdate.value;
      && j in s.tasks && s.tasks[j].kind == Upgrade
      && (forall k :: k in s.sch.jobs && s.sch.jobs[k].IsActiveReal() ==>
            k == j || (s.sch.rebootPending == Some(k) && !s.unacked))
      && (s.sch.slot.Some? && s.sch.slot.value != j ==> HeldByInternal(s.sch.slot, s.sch.jobs))
  {
  }

  /**
   * From a self-update's reservation to its release, the only non-internal
   * active jobs are the owner and a reboot reserved with force and
   * acknowledgement, only the owner can take the slot, and any other holder is
   * internal.
   */
  lemma SelfUpdateBarrier(states: seq<Sys>, steps: seq<Step>, i: nat)
    requires IsRun(states, steps) && i < |states| && states[i].sch.selfUpdate.Some?
    ensures
      var (s, j) := (states[i], states[i].sch.selfUpdate.value);
      && j in s.tasks && s.tasks[j].kind == Upgrade
      && (forall k :: k in s.sch.jobs && s.sch.jobs[k].IsActiveReal() ==>
            k == j || (s.sch.rebootPending == Some(k) && !s.unacked))
      && (s.sch.slot.Some? && s.sch.slot.value != j ==> HeldByInternal(s.sch.slot, s.sch.jobs))
      && (i < |steps| && Acquires(s, steps[i].action) ==> steps[i].action.t == j)
  {
    RunKeeps(states, steps, i);
    hide Inv, IsRun, Acquires;
    RunLength(states, steps);
    BarrierInState(states[i]);
    if i < |steps| && Acquires(states[i], steps[i].action) {
      OnlyOwnerAcquires(states[i], steps[i].action);
    }
  }

  lemma OnlyOwnerAcquires(s: Sys, a: Action)
    requires s.sch.selfUpdate.Some? && Acquires(s, a)
    ensures a.t == s.sch.selfUpdate.value
  {
  }

  lemma UpgradeStep(s: Sys, step: Step)
    requires Permissible(s, step) && s.sch.selfUpdate.Some? && Apply(s, step).sch.selfUpdate == s.sch.selfUpdate
    ensures
      var s' := Apply(s, step);
      || (s'.sch.slot == s.sch.slot && s'.sch.generation == s.sch.generation)
      || s'.sch.slot == None
      || s'.sch.slot == s.sch.selfUpdate
  {
    hide Core, Enabled, Exec;
    StepsAreCalls(s, step);
    TaskCallsOnly(s, step.action);
    if CallOf(s, step.action).Some? {
      CallUnderSelfUpdate(s.sch, CallOf(s, step.action).value);
    }
  }

  /** A holder other than the self-update's owner held the slot, by the same acquisition, at the reservation. */
  lemma {:induction false} ForeignHolderIsOlder(states: seq<Sys>, steps: seq<Step>, i: nat, m: nat, j: Id)
    requires IsRun(states, steps) && i <= m < |states|
    requires forall l :: i <= l <= m ==> states[l].sch.selfUpdate == Some(j)
    requires states[m].sch.slot.Some? && states[m].sch.slot != Some(j)
    ensures states[i].sch.slot == states[m].sch.slot && states[i].sch.generation == states[m].sch.generation
    decreases m
  {
    if i < m {
      hide Apply, Permissible;
      UpgradeStep(states[m - 1], steps[m - 1]);
      ForeignHolderIsOlder(states, steps, i, m - 1, j);
    }
  }

  /** A successful reservation, by a request or a patch task, lacking force or the acknowledgement. */
  predicate ReservesUnacked(s: Sys, a: Action) {
    || (a.RequestReboot? && RebootRefusal(s.sch, a.force, a.ack).None? && !(a.force && a.ack))
    || (a.PatchReserve? && RebootRefusal(s.sch, true, false).None?)
  }

  lemma ReservationSetsFlag(s: Sys, step: Step)
    requires Permissible(s, step) && ReservesUnacked(s, step.action)
    ensures
      var s' := Apply(s, step);
      && s'.unacked && s'.blind == HolderIsMissing(s.sch)
      && s'.sch.rebootPending == Some(step.action.id) && s'.sch.slot == s.sch.slot
      && (HolderIsMissing(s.sch) && Inv(s) ==> HolderIsMissing(s'.sch))
  {
  }

  lemma {:induction false} FlagLasts(states: seq<Sys>, steps: seq<Step>, i: nat, m: nat)
    requires IsRun(states, steps) && i < m < |states| && ReservesUnacked(states[i], steps[i].action)
    requires forall l :: i < l <= m ==> states[l].sch.rebootPending == Some(steps[i].action.id)
    ensures states[m].unacked && states[m].blind == HolderIsMissing(states[i].sch)
    decreases m
  {
    hide Apply, Permissible;
    RunStep(states, steps, i);
    if i + 1 == m {
      ReservationSetsFlag(states[i], steps[i]);
    } else {
      RunStep(states, steps, m - 1);
      FlagLasts(states, steps, i, m - 1);
      AcknowledgementStays(states[m - 1], steps[m - 1]);
    }
  }

  /** No self-update is reserved, and the slot is empty or held by an internal refresh. */
  predicate NoRealMutation(s: SchedState) {
    s.selfUpdate.None? && (s.slot.Some? ==> HeldByInternal(s.slot, s.jobs))
  }

  /**
   * From a successful reservation without force and acknowledgement until its
   * rollback no real mutation is under way, if and only if the slot's holder,
   * if any, was in the job map when the reboot was admitted.
   */
  lemma NoUnacknowledgedRebootOverMutation(states: seq<Sys>, steps: seq<Step>, i: nat, last: nat)
    requires IsRun(states, steps) && i < last < |states| && ReservesUnacked(states[i], steps[i].action)
    requires forall l :: i < l <= last ==> states[l].sch.rebootPending == Some(steps[i].action.id)
    ensures (forall m :: i < m <= last ==> NoRealMutation(states[m].sch)) <==> !HolderIsMissing(states[i].sch)
  {
    hide Inv, Apply, Permissible;
    if !HolderIsMissing(states[i].sch) {
      forall m | i < m <= last
        ensures NoRealMutation(states[m].sch)
      {
        FlagLasts(states, steps, i, m);
        RunKeeps(states, steps, m);
        UnackedMeans(states[m]);
      }
    } else {
      RunKeeps(states, steps, i);
      RunStep(states, steps, i);
      ReservationSetsFlag(states[i], steps[i]);
      assert !NoRealMutation(states[i + 1].sch);
    }
  }

  lemma UnackedMeans(s: Sys)
    requires Inv(s) && s.unacked && !s.blind
    ensures NoRealMutation(s.sch)
  {
  }

  /** A holder is missing only if some acquisition did not find its job. */
  lemma MissingHolderNeedsUncheckedAcquisition(states: seq<Sys>, steps: seq<Step>, i: nat)
    requires IsRun(states, steps) && i < |states|
    requires forall l :: 0 <= l < i ==> FindsItsJob(states[l], steps[l].action)
    ensures !HolderIsMissing(states[i].sch)
  {
    RunKeeps(states, steps, i);
    HistoryIsExact(states, steps, i);
  }

  // ------------------------------------------------------------- patch tasks

  lemma PatchOutcomeInState(s: Sys, t: Id)
    requires Inv(s) && t in s.tasks && s.tasks[t].kind == Patch
    requires s.tasks[t].pc == Done || s.tasks[t].pc.AwaitingReboot?
    ensures
      if s.tasks[t].pc == Done then t in s.sch.jobs ==> s.sch.jobs[t].status in {Completed, Failed}
      else
        var r := s.tasks[t].pc.r;
        && (t in s.sch.jobs ==> s.sch.jobs[t].status == Rebooting)
        && s.sch.rebootPending == Some(r) && s.rebootBy == Some(t)
        && r in s.sch.jobs && r != t && s.sch.jobs[r].status == Rebooting
  {
    TaskFacts(s, t);
    if s.tasks[t].pc.AwaitingReboot? {
      ReservationIsLive(s, t);
    }
    hide Inv;
  }

  /**
   * When a patch task ends, its job (unless deleted by a user) is Completed or
   * Failed, or it is Rebooting under the task's own reboot job.
   */
  lemma PatchOutcome(states: seq<Sys>, steps: seq<Step>, i: nat, t: Id)
    requires IsRun(states, steps) && i < |states| && t in states[i].tasks && states[i].tasks[t].kind == Patch
    requires states[i].tasks[t].pc == Done || states[i].tasks[t].pc.AwaitingReboot?
    ensures
      var s := states[i];
      if s.tasks[t].pc == Done then t in s.sch.jobs ==> s.sch.jobs[t].status in {Completed, Failed}
      else
        var r := s.tasks[t].pc.r;
        && (t in s.sch.jobs ==> s.sch.jobs[t].status == Rebooting)
        && s.sch.rebootPending == Some(r) && s.rebootBy == Some(t)
        && r in s.sch.jobs && r != t && s.sch.jobs[r].status == Rebooting
  {
    RunKeeps(states, steps, i);
    hide Inv, IsRun;
    PatchOutcomeInState(states[i], t);
  }

  /** A patch task that left the machine rebooting stays so for the rest of the run. */
  lemma {:induction false} AwaitingRebootLasts(states: seq<Sys>, steps: seq<Step>, i: nat, m: nat, t: Id)
    requires IsRun(states, steps) && i <= m < |states|
    requires t in states[i].tasks && states[i].tasks[t].pc.AwaitingReboot?
    ensures t in states[m].tasks && states[m].tasks[t] == states[i].tasks[t]
    ensures states[m].sch.rebootPending == Some(states[i].tasks[t].pc.r)
    ensures t in states[i].sch.jobs ==> t in states[m].sch.jobs
    decreases m
  {
    hide Inv, Apply, Permissible, IsRun;
    RunLength(states, steps);
    RunKeeps(states, steps, i);
    ReservationIsLive(states[i], t);
    if i < m {
      AwaitingRebootLasts(states, steps, i, m - 1, t);
      RunKeeps(states, steps, m - 1);
      RunKeeps(states, steps, m);
      RunStep(states, steps, m - 1);
      AwaitingRebootIsFinal(states[m - 1], steps[m - 1], t);
      if t in states[m - 1].sch.jobs {
        AwaitingJobStays(states[m - 1], steps[m - 1], t);
      }
      ReservationIsLive(states[m], t);
    }
  }

  /** In every reachable state the reservation a task is about to use is still its own. */
  lemma ReservationIsNeverLost(states: seq<Sys>, steps: seq<Step>, i: nat)
    requires IsRun(states, steps) && i < |steps|
    ensures steps[i].action.Begin? ==>
              BeginRebootExecution(states[i].sch, states[i].tasks[steps[i].action.t].pc.r).1
    ensures steps[i].action.DropRebootGuard? ==>
              !RollbackReboot(states[i].sch, states[i].tasks[steps[i].action.t].pc.r, Some(GUARD_DROPPED),
                              steps[i].action.now).1
  {
    RunKeeps(states, steps, i);
    RunStep(states, steps, i);
    hide Inv, Apply, IsRun;
    var a := steps[i].action;
    if a.Begin? {
      ReservationIsLive(states[i], a.t);
    } else if a.DropRebootGuard? {
      DroppedGuardIsStale(states[i], a.t, a.now);
    }
  }

  // ------------------------------------------------------------------ freeze

  /** Admission stays frozen, no job appeared and the slot was not taken since `s`. */
  ghost predicate StaysFrozen(s: Sys, s': Sys) {
    && s'.sch.admission == Frozen && s'.sch.jobs.Keys <= s.sch.jobs.Keys
    && s'.acquired == s.acquired
    && (s'.sch.slot == s.sch.slot || s'.sch.slot == None)
  }

  lemma FrozenStep(s: Sys, step: Step)
    requires Permissible(s, step) && s.sch.admission == Frozen
    ensures StaysFrozen(s, Apply(s, step))
  {
    hide Core, Enabled, Exec;
    StepsAreCalls(s, step);
    TaskCallsOnly(s, step.action);
    HistoryCounts(s, step);
    if CallOf(s, step.action).Some? {
      CallWhenFrozen(s.sch, CallOf(s, step.action).value);
    }
  }

  lemma FrozenIsTransitive(s: Sys, s': Sys, s'': Sys)
    requires StaysFrozen(s, s') && StaysFrozen(s', s'')
    ensures StaysFrozen(s, s'')
  {
  }

  /**
   * Freezing is final: no job appears, the slot is never taken again, and once
   * it is free it stays free, so a single negative answer of
   * `is_mutation_in_progress` holds for the rest of the run.
   */
  lemma {:induction false} FreezeIsFinal(states: seq<Sys>, steps: seq<Step>, i: nat, m: nat)
    requires IsRun(states, steps) && i <= m < |states| && states[i].sch.admission == Frozen
    ensures StaysFrozen(states[i], states[m])
    decreases m
  {
    if i < m {
      RunStep(states, steps, m - 1);
      hide Apply, Permissible;
      FreezeIsFinal(states, steps, i, m - 1);
      FrozenStep(states[m - 1], steps[m - 1]);
      FrozenIsTransitive(states[i], states[m - 1], states[m]);
    }
  }

  lemma FreezeTakesEffect(s: Sys, step: Step)
    requires Permissible(s, step) && step.action == Freeze
    ensures Apply(s, step).sch.admission == Frozen
  {
  }

  /** From the shutdown's call on, nothing new is admitted or started. */
  lemma ShutdownIsFinal(states: seq<Sys>, steps: seq<Step>, i: nat, m: nat)
    requires IsRun(states, steps) && i < m < |states| && steps[i].action == Freeze
    ensures StaysFrozen(states[i + 1], states[m])
  {
    hide IsRun, Apply, Permissible, StaysFrozen;
    RunLength(states, steps);
    RunStep(states, steps, i);
    FreezeTakesEffect(states[i], steps[i]);
    FreezeIsFinal(states, steps, i + 1, m);
  }
}
