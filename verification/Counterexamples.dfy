/**
 * Concrete runs on which guarantees fail: three because a slot acquisition does
 * not check that its job still exists and is Pending or Running, one because a
 * backstop detaches a closure, and one on which `force` is refused.
 *
 * The first three start the same way: an install is admitted, a forced reboot
 * reservation fails its pending job, and the reboot command fails, so the
 * reservation is rolled back before the install's task reaches the scheduler.
 */
module Counterexamples {
  import opened Wrappers
  import opened Jobs
  import opened SchedulerState
  import opened Tasks
  import opened TaskSteps
  import opened TaskTheorems

  const NAMES: seq<string> := ["curl"]

  function CurlJob(id: Id): Job {
    NewJob(id, Install, NAMES, 0, None)
  }

  lemma NamesAreValid()
    ensures AllValid(NAMES) && !HasSentinel(NAMES) && !HasSentinel([])
  {
    ValidNamesAreNotInternal(NAMES);
  }

  function InstallTask(pc: Pc): Task {
    Task(Package(Install), pc)
  }

  const FAILED_CURL := CurlJob(0).Fail(CANCELLED_BY_REBOOT, 0)
  const REBOOT_JOB := NewJob(1, Reboot, [], 0, None)

  /** The actions of the common start. */
  const START: seq<Action> := [
    Admit(0, Package(Install), NAMES, 0, None),
    RequestReboot(1, true, true, 0, None),
    CommitReboot(1),
    Begin(1),
    Command(1, false),
    RollBack(1, "", 0)
  ]

  function Scheduling(jobs: map<Id, Job>, pending: Option<Id>): SchedState {
    SchedState(Open, jobs, None, 0, None, pending, 2, 2)
  }

  /** While reboot 1 is reserved by its request, which stands at `pc`. */
  function DuringReboot(pc: Pc, status: JobStatus): Sys {
    Sys(Scheduling(map[0 := FAILED_CURL, 1 := REBOOT_JOB.(status := status)], Some(1)),
        map[0 := InstallTask(Queued), 1 := Task(Restart, pc)],
        true, {}, 0, {0, 1}, Some(1), false, false, 0, 0, 0, 0)
  }

  function AfterAdmission(): Sys {
    Sys(Scheduling(map[0 := CurlJob(0)], None), map[0 := InstallTask(Queued)],
        true, {}, 0, {0}, None, false, false, 0, 0, 0, 0)
  }

  /** Job 0 is cancelled but its task still queued, and reboot 1 is rolled back. */
  function AfterRollback(): Sys {
    Sys(Scheduling(map[0 := FAILED_CURL, 1 := REBOOT_JOB.Fail("", 0)], None),
        map[0 := InstallTask(Queued), 1 := Task(Restart, Done)],
        true, {}, 0, {0, 1}, None, false, false, 0, 0, 0, 0)
  }

  /** No dispatch sleeps in these runs, so notifications only store the permit. */
  ghost predicate Leads(s: Sys, a: Action, s': Sys) {
    Enabled(s, a) && (forall t :: !IsSleeping(Core(s, a), t))
    && s' == if Notifies(s, a) then Core(s, a).(permit := true) else Core(s, a)
  }

  lemma LeadsIsAStep(s: Sys, a: Action, s': Sys)
    requires Leads(s, a, s')
    ensures Permissible(s, Step(a, 0)) && Apply(s, Step(a, 0)) == s'
  {
  }

  /** The state after a startup without history. */
  const NOTHING := Sys(Scheduling(map[], None), map[], false, {}, 0, {}, None, false, false, 0, 0, 0, 0)

  lemma AdmissionLeads()
    ensures Leads(NOTHING, START[0], AfterAdmission())
  {
    NamesAreValid();
    assert ActiveRealIds(map[]) == {};
    assert Core(NOTHING, START[0]) == AfterAdmission().(permit := false);
  }

  lemma FirstReservation()
    ensures ReserveReboot(AfterAdmission().sch, 1, true, true, 0, None)
            == (DuringReboot(Reserved(1), Pending).sch, Ok(1))
  {
    NamesAreValid();
    assert ActiveRealIds(map[0 := CurlJob(0)]) == {0};
    assert FailPending(map[0 := CurlJob(0)][1 := REBOOT_JOB], 1, 0) == map[0 := FAILED_CURL, 1 := REBOOT_JOB];
  }

  lemma ReservationLeads()
    ensures Leads(AfterAdmission(), START[1], DuringReboot(Reserved(1), Pending))
  {
    FirstReservation();
    assert RebootRefusal(AfterAdmission().sch, true, true).None?;
    hide ReserveReboot, RebootRefusal;
    assert Core(AfterAdmission(), START[1]).tasks == DuringReboot(Reserved(1), Pending).tasks;
    assert Core(AfterAdmission(), START[1]) == DuringReboot(Reserved(1), Pending);
  }

  lemma CommitLeads()
    ensures Leads(DuringReboot(Reserved(1), Pending), START[2], DuringReboot(Beginning(1), Pending))
  {
    assert Core(DuringReboot(Reserved(1), Pending), START[2]) == DuringReboot(Beginning(1), Pending);
  }

  lemma CommandLeads()
    ensures Leads(DuringReboot(Commanding(1), Rebooting), START[4], DuringReboot(RollingBack(1), Rebooting))
  {
    assert Core(DuringReboot(Commanding(1), Rebooting), START[4]) == DuringReboot(RollingBack(1), Rebooting);
  }

  lemma BeginLeads()
    ensures Leads(DuringReboot(Beginning(1), Pending), START[3], DuringReboot(Commanding(1), Rebooting))
  {
    assert Core(DuringReboot(Beginning(1), Pending), START[3]) == DuringReboot(Commanding(1), Rebooting);
  }

  lemma RollbackLeads()
    ensures Leads(DuringReboot(RollingBack(1), Rebooting), START[5], AfterRollback())
  {
    assert Core(DuringReboot(RollingBack(1), Rebooting), START[5]) == AfterRollback();
  }

  /** A run and its extension by one action. */
  lemma Extend(states: seq<Sys>, steps: seq<Step>, a: Action, next: Sys)
    requires IsRun(states, steps) && Leads(states[|steps|], a, next)
    ensures IsRun(states + [next], steps + [Step(a, 0)])
  {
    LeadsIsAStep(states[|steps|], a, next);
    hide Leads, Apply, Permissible;
  }

  lemma RebootBegins() returns (states: seq<Sys>, steps: seq<Step>)
    ensures IsRun(states, steps) && |steps| == 3 && |states| == 4
    ensures states[3] == DuringReboot(Beginning(1), Pending)
  {
    hide Leads, Apply, Permissible, DuringReboot, AfterAdmission, IsRun;
    states, steps := EmptyRun();
    AdmissionLeads();
    states, steps := Extended(states, steps, START[0], AfterAdmission());
    ReservationLeads();
    states, steps := Extended(states, steps, START[1], DuringReboot(Reserved(1), Pending));
    CommitLeads();
    states, steps := Extended(states, steps, START[2], DuringReboot(Beginning(1), Pending));
  }

  lemma CommonStart() returns (states: seq<Sys>, steps: seq<Step>)
    ensures IsRun(states, steps) && |steps| == 6 && |states| == 7 && states[6] == AfterRollback()
  {
    hide Leads, Apply, Permissible, DuringReboot, AfterRollback, IsRun;
    states, steps := RebootBegins();
    BeginLeads();
    states, steps := Extended(states, steps, START[3], DuringReboot(Commanding(1), Rebooting));
    CommandLeads();
    states, steps := Extended(states, steps, START[4], DuringReboot(RollingBack(1), Rebooting));
    RollbackLeads();
    states, steps := Extended(states, steps, START[5], AfterRollback());
  }

  lemma EmptyRun() returns (states: seq<Sys>, steps: seq<Step>)
    ensures IsRun(states, steps) && steps == [] && |states| == 1 && states[0] == NOTHING
  {
    var launch := Launch(2, 2, [], _ => 0, None);
    assert RecoverAll([], launch.clock, None) == [];
    assert Init(launch) == NOTHING;
    states, steps := [NOTHING], [];
  }

  lemma Extended(states: seq<Sys>, steps: seq<Step>, a: Action, next: Sys)
    returns (states': seq<Sys>, steps': seq<Step>)
    requires IsRun(states, steps) && |states| == |steps| + 1 && Leads(states[|steps|], a, next)
    ensures states' == states + [next] && steps' == steps + [Step(a, 0)]
    ensures IsRun(states', steps') && |states'| == |steps'| + 1
    ensures states'[|steps'|] == next && states'[|steps|] == states[|steps|] && steps'[|steps|].action == a
  {
    Extend(states, steps, a, next);
    states', steps' := states + [next], steps + [Step(a, 0)];
  }

  // --------------------------------------------------- a cancelled job revives

  /** The cancelled job 0 holds the slot and runs; `others` are further jobs. */
  function Revived(s: Sys): Sys
    requires 0 in s.tasks
  {
    Move(s, 0, Persisting(1)).(
      sch := s.sch.(slot := Some(0), generation := 1, jobs := s.sch.jobs[0 := FAILED_CURL.(status := Running)]),
      acquired := 1, revived := 1)
  }

  lemma RevivalLeads()
    ensures Leads(AfterRollback(), Dispatch(0), Revived(AfterRollback()))
    ensures Acquires(AfterRollback(), Dispatch(0)) && !RevivesNobody(AfterRollback(), Dispatch(0))
  {
    assert RunningIds(AfterRollback().sch.jobs) == {};
    assert Core(AfterRollback(), Dispatch(0)) == Revived(AfterRollback());
  }

  /**
   * A job that failed can run again, with its completion time still set: the
   * life cycle of LifeCycle and the times of CompletionTimesAreExact are lost.
   */
  lemma CancelledJobRunsAgain() returns (states: seq<Sys>, steps: seq<Step>)
    ensures IsRun(states, steps) && |steps| == 7
    ensures 0 in states[6].sch.jobs && states[6].sch.jobs[0].status == Failed
    ensures 0 in states[7].sch.jobs && states[7].sch.jobs[0].status == Running
    ensures states[7].sch.jobs[0].completedAt.Some?
  {
    states, steps := CommonStart();
    hide IsRun, Leads;
    RevivalLeads();
    states, steps := Extended(states, steps, Dispatch(0), Revived(AfterRollback()));
  }

  // ------------------------------------------------ a reboot over a mutation

  function JobDeleted(): Sys {
    AfterRollback().(sch := AfterRollback().sch.(jobs := map[1 := REBOOT_JOB.Fail("", 0)]))
  }

  lemma DeletionLeads()
    ensures Leads(AfterRollback(), UserDelete(0), JobDeleted())
  {
    assert AfterRollback().sch.jobs - {0} == map[1 := REBOOT_JOB.Fail("", 0)];
    assert Core(AfterRollback(), UserDelete(0)) == JobDeleted();
  }

  /** The install's closure runs under a slot whose job no longer exists. */
  function Phantom(pc: Pc, watch: set<Watchdog>): Sys {
    var s := JobDeleted();
    s.(tasks := s.tasks[0 := InstallTask(pc)], sch := s.sch.(slot := Some(0), generation := 1),
       acquired := 1, phantoms := 1, watch := watch)
  }

  lemma PhantomLeads()
    ensures Leads(JobDeleted(), Dispatch(0), Phantom(Persisting(1), {}))
  {
    assert RunningIds(JobDeleted().sch.jobs) == {};
    assert Core(JobDeleted(), Dispatch(0)) == Phantom(Persisting(1), {});
  }

  lemma SpawnLeads()
    ensures Leads(Phantom(Persisting(1), {}), Spawn(0), Phantom(InFlight(1), {Watchdog(0, 1, None)}))
  {
    var s := Phantom(Persisting(1), {});
    assert s.tasks[0 := InstallTask(InFlight(1))] == Phantom(InFlight(1), {Watchdog(0, 1, None)}).tasks;
    assert Core(s, Spawn(0)) == Phantom(InFlight(1), {Watchdog(0, 1, None)});
  }

  lemma PhantomIsRebootable()
    ensures
      var s := Phantom(InFlight(1), {Watchdog(0, 1, None)});
      && ReservesUnacked(s, RequestReboot(2, false, false, 0, None)) && !NoRealMutation(s.sch)
      && s.watch == {Watchdog(0, 1, None)} && 0 in s.tasks && s.tasks[0].kind == Package(Install)
  {
    assert ActiveRealIds(Phantom(InFlight(1), {Watchdog(0, 1, None)}).sch.jobs) == {};
  }

  /**
   * A reboot without force is accepted while an install is executing, because
   * the install took the slot after its cancelled job had been deleted.
   */
  lemma UnforcedRebootOverInstall() returns (states: seq<Sys>, steps: seq<Step>, reboot: Action)
    ensures IsRun(states, steps) && |steps| == 9
    ensures reboot == RequestReboot(2, false, false, 0, None) && ReservesUnacked(states[9], reboot)
    ensures states[9].watch == {Watchdog(0, 1, None)}
    ensures 0 in states[9].tasks && states[9].tasks[0].kind == Package(Install)
    ensures !NoRealMutation(states[9].sch)
  {
    reboot := RequestReboot(2, false, false, 0, None);
    states, steps := CommonStart();
    PhantomIsRebootable();
    hide IsRun, Leads, Phantom, ReservesUnacked, NoRealMutation;
    DeletionLeads();
    states, steps := Extended(states, steps, UserDelete(0), JobDeleted());
    PhantomLeads();
    states, steps := Extended(states, steps, Dispatch(0), Phantom(Persisting(1), {}));
    SpawnLeads();
    states, steps := Extended(states, steps, Spawn(0), Phantom(InFlight(1), {Watchdog(0, 1, None)}));
  }

  // -------------------------------------------------------- a queue too long

  /** Two more installs fill the queue again. */
  function Refilled(): Sys {
    var s := AfterRollback();
    s.(sch := s.sch.(jobs := s.sch.jobs[2 := CurlJob(2)][3 := CurlJob(3)]),
       tasks := s.tasks[2 := InstallTask(Queued)][3 := InstallTask(Queued)], used := {0, 1, 2, 3})
  }

  function HalfRefilled(): Sys {
    var s := AfterRollback();
    s.(sch := s.sch.(jobs := s.sch.jobs[2 := CurlJob(2)]),
       tasks := s.tasks[2 := InstallTask(Queued)], used := {0, 1, 2})
  }

  lemma RefillLeads()
    ensures Leads(AfterRollback(), Admit(2, Package(Install), NAMES, 0, None), HalfRefilled())
    ensures Leads(HalfRefilled(), Admit(3, Package(Install), NAMES, 0, None), Refilled())
  {
    FirstRefillLeads();
    SecondRefillLeads();
  }

  lemma FirstRefillLeads()
    ensures Leads(AfterRollback(), Admit(2, Package(Install), NAMES, 0, None), HalfRefilled())
  {
    NamesAreValid();
    assert ActiveRealIds(AfterRollback().sch.jobs) == {};
    assert Core(AfterRollback(), Admit(2, Package(Install), NAMES, 0, None)) == HalfRefilled();
  }

  lemma SecondRefillLeads()
    ensures Leads(HalfRefilled(), Admit(3, Package(Install), NAMES, 0, None), Refilled())
  {
    NamesAreValid();
    assert ActiveRealIds(HalfRefilled().sch.jobs) == {2};
    assert Core(HalfRefilled(), Admit(3, Package(Install), NAMES, 0, None)) == Refilled();
  }

  lemma LateRevivalLeads()
    ensures Leads(Refilled(), Dispatch(0), Revived(Refilled()))
  {
    LateAcquires();
    assert DoDispatch(Refilled(), 0) == Revived(Refilled()) by {
      hide TryAcquire;
    }
  }

  lemma LateAcquires()
    ensures TryAcquire(Refilled().sch, 0) == (Revived(Refilled()).sch, Acquired(1))
  {
    assert RunningIds(Refilled().sch.jobs) == {};
  }

  lemma ThreeAreActive()
    ensures ActiveRealIds(Revived(Refilled()).sch.jobs) == {0, 2, 3}
  {
    NamesAreValid();
  }

  /** The queue holds three active jobs although its depth is two. */
  lemma QueueOverflows() returns (states: seq<Sys>, steps: seq<Step>)
    ensures IsRun(states, steps) && |steps| == 9
    ensures |ActiveRealIds(states[9].sch.jobs)| == 3 && states[9].sch.maxQueueDepth == 2
  {
    states, steps := CommonStart();
    RefillLeads();
    LateRevivalLeads();
    ThreeAreActive();
    hide IsRun, Leads;
    states, steps := Extended(states, steps, Admit(2, Package(Install), NAMES, 0, None), HalfRefilled());
    states, steps := Extended(states, steps, Admit(3, Package(Install), NAMES, 0, None), Refilled());
    states, steps := Extended(states, steps, Dispatch(0), Revived(Refilled()));
  }

  // ------------------------------------------------------- two closures overlap

  const RUNNING_CURL := CurlJob(0).(status := Running)

  /** Job 0 runs; its task stands at `pc` with the given watchdogs and detached closures. */
  function Mutating(pc: Pc, slot: Option<Id>, watch: set<Watchdog>, detached: nat, released: nat): Sys {
    Sys(Scheduling(map[0 := RUNNING_CURL], None).(slot := slot, generation := 1),
        map[0 := InstallTask(pc)], true, watch, detached, {0}, None, false, false, 1, released, 0, 0)
  }

  function AfterBackstop(): Sys {
    Mutating(Returned(false, true), None, {}, 1, 1)
  }

  /** Job 2 in the same system; job 0's closure is detached. */
  function SecondMutation(pc: Pc, status: JobStatus, watch: set<Watchdog>): Sys {
    var s := AfterBackstop();
    s.(sch := s.sch.(jobs := s.sch.jobs[2 := CurlJob(2).(status := status)],
                     slot := if status == Running then Some(2) else None,
                     generation := if status == Running then 2 else 1),
       tasks := s.tasks[2 := InstallTask(pc)],
       watch := watch, used := {0, 2}, acquired := if status == Running then 2 else 1)
  }

  const FIRST_DOG := Watchdog(0, 1, None)
  const SECOND_DOG := Watchdog(2, 2, None)

  lemma FirstDispatchLeads()
    ensures Leads(AfterAdmission(), Dispatch(0), Mutating(Persisting(1), Some(0), {}, 0, 0))
  {
    assert RunningIds(AfterAdmission().sch.jobs) == {};
    assert Core(AfterAdmission(), Dispatch(0)) == Mutating(Persisting(1), Some(0), {}, 0, 0);
  }

  lemma FirstSpawnLeads()
    ensures Leads(Mutating(Persisting(1), Some(0), {}, 0, 0), Spawn(0), Mutating(InFlight(1), Some(0), {FIRST_DOG}, 0, 0))
  {
    assert Core(Mutating(Persisting(1), Some(0), {}, 0, 0), Spawn(0)) == Mutating(InFlight(1), Some(0), {FIRST_DOG}, 0, 0);
  }

  const LATE_DOG := FIRST_DOG.(result := Some(false))

  lemma BackstopLeads()
    ensures Leads(Mutating(InFlight(1), Some(0), {FIRST_DOG}, 0, 0), Backstop(FIRST_DOG),
                  Mutating(InFlight(1), Some(0), {LATE_DOG}, 1, 0))
  {
    assert {FIRST_DOG} - {FIRST_DOG} + {LATE_DOG} == {LATE_DOG};
  }

  lemma LateFinalizeLeads()
    ensures Leads(Mutating(InFlight(1), Some(0), {LATE_DOG}, 1, 0), WatchdogFinalize(LATE_DOG, 0), AfterBackstop())
  {
    assert {LATE_DOG} - {LATE_DOG} == {};
    assert Core(Mutating(InFlight(1), Some(0), {LATE_DOG}, 1, 0), WatchdogFinalize(LATE_DOG, 0)) == AfterBackstop();
  }

  lemma SecondAdmissionLeads()
    ensures Leads(AfterBackstop(), Admit(2, Package(Install), NAMES, 0, None), SecondMutation(Queued, Pending, {}))
  {
    NamesAreValid();
    assert ActiveRealIds(AfterBackstop().sch.jobs) == {0};
    assert Core(AfterBackstop(), Admit(2, Package(Install), NAMES, 0, None)) == SecondMutation(Queued, Pending, {});
  }

  lemma SecondDispatchLeads()
    ensures Leads(SecondMutation(Queued, Pending, {}), Dispatch(2), SecondMutation(Persisting(2), Running, {}))
  {
    SecondAcquires();
    assert DoDispatch(SecondMutation(Queued, Pending, {}), 2) == SecondMutation(Persisting(2), Running, {}) by {
      hide TryAcquire;
    }
  }

  lemma SecondAcquires()
    ensures
      var s := SecondMutation(Queued, Pending, {});
      TryAcquire(s.sch, 2) == (SecondMutation(Persisting(2), Running, {}).sch, Acquired(2))
  {
    var s := SecondMutation(Queued, Pending, {});
    assert RunningIds(s.sch.jobs) == {0};
    assert s.sch.jobs[2 := s.sch.jobs[2].(status := Running)] == SecondMutation(Persisting(2), Running, {}).sch.jobs;
  }

  lemma SecondSpawnLeads()
    ensures Leads(SecondMutation(Persisting(2), Running, {}), Spawn(2), SecondMutation(InFlight(2), Running, {SECOND_DOG}))
  {
    assert Core(SecondMutation(Persisting(2), Running, {}), Spawn(2)) == SecondMutation(InFlight(2), Running, {SECOND_DOG});
  }

  lemma FirstMutationStarts() returns (states: seq<Sys>, steps: seq<Step>)
    ensures IsRun(states, steps) && |steps| == 3 && |states| == 4
    ensures states[3] == Mutating(InFlight(1), Some(0), {FIRST_DOG}, 0, 0)
  {
    hide Leads, Apply, Permissible, Mutating, AfterAdmission, IsRun;
    states, steps := EmptyRun();
    AdmissionLeads();
    states, steps := Extended(states, steps, START[0], AfterAdmission());
    FirstDispatchLeads();
    states, steps := Extended(states, steps, Dispatch(0), Mutating(Persisting(1), Some(0), {}, 0, 0));
    FirstSpawnLeads();
    states, steps := Extended(states, steps, Spawn(0), Mutating(InFlight(1), Some(0), {FIRST_DOG}, 0, 0));
  }

  lemma BackstopElapses() returns (states: seq<Sys>, steps: seq<Step>)
    ensures IsRun(states, steps) && |steps| == 5 && |states| == 6 && states[5] == AfterBackstop()
  {
    hide Leads, Apply, Permissible, Mutating, AfterBackstop, IsRun;
    states, steps := FirstMutationStarts();
    BackstopLeads();
    states, steps := Extended(states, steps, Backstop(FIRST_DOG), Mutating(InFlight(1), Some(0), {LATE_DOG}, 1, 0));
    LateFinalizeLeads();
    states, steps := Extended(states, steps, WatchdogFinalize(LATE_DOG, 0), AfterBackstop());
  }

  lemma TwoExecute()
    ensures SecondMutation(Persisting(2), Running, {}).detached == 1
    ensures Executing(SecondMutation(InFlight(2), Running, {SECOND_DOG})) == 2
  {
    assert Unfinished({SECOND_DOG}) == {SECOND_DOG};
  }

  /** A second closure starts while the one whose backstop has elapsed still executes. */
  lemma ClosuresOverlap() returns (states: seq<Sys>, steps: seq<Step>)
    ensures IsRun(states, steps) && |steps| == 8 && |states| == 9
    ensures steps[7].action.Spawn? && states[7].detached == 1
    ensures Executing(states[8]) == 2
  {
    hide IsRun, Leads, Executing, SecondMutation, AfterBackstop;
    states, steps := BackstopElapses();
    SecondAdmissionLeads();
    states, steps := Extended(states, steps, Admit(2, Package(Install), NAMES, 0, None),
                              SecondMutation(Queued, Pending, {}));
    SecondDispatchLeads();
    states, steps := Extended(states, steps, Dispatch(2), SecondMutation(Persisting(2), Running, {}));
    SecondSpawnLeads();
    states, steps := Extended(states, steps, Spawn(2), SecondMutation(InFlight(2), Running, {SECOND_DOG}));
    TwoExecute();
  }

  // ------------------------------------------------- force is not monotone

  const REFRESH_JOB := NewJob(0, Install, [HEALTH_REFRESH], 0, None)

  /** A cache refresh whose job has the given status; it holds the slot once it runs. */
  function Refreshing(pc: Pc, status: JobStatus, watch: set<Watchdog>): Sys {
    var (slot, n) := if status == Running then (Some(0), 1) else (None, 0);
    Sys(Scheduling(map[0 := REFRESH_JOB.(status := status)], None).(slot := slot, generation := n),
        map[0 := Task(Refresh, pc)], true, watch, 0, {0}, None, false, false, n, 0, 0, 0)
  }

  const ADMIT_REFRESH := Admit(0, Refresh, [HEALTH_REFRESH], 0, None)

  lemma RefreshLeads()
    ensures Leads(NOTHING, ADMIT_REFRESH, Refreshing(Queued, Pending, {}))
  {
    assert ActiveRealIds(map[]) == {};
    assert Core(NOTHING, ADMIT_REFRESH) == Refreshing(Queued, Pending, {}).(permit := false);
  }

  lemma RefreshDispatchLeads()
    ensures Leads(Refreshing(Queued, Pending, {}), Dispatch(0), Refreshing(Persisting(1), Running, {}))
  {
    assert RunningIds(Refreshing(Queued, Pending, {}).sch.jobs) == {};
    assert Core(Refreshing(Queued, Pending, {}), Dispatch(0)) == Refreshing(Persisting(1), Running, {});
  }

  lemma RefreshSpawnLeads()
    ensures Leads(Refreshing(Persisting(1), Running, {}), Spawn(0), Refreshing(InFlight(1), Running, {FIRST_DOG}))
  {
    assert Core(Refreshing(Persisting(1), Running, {}), Spawn(0)) == Refreshing(InFlight(1), Running, {FIRST_DOG});
  }

  lemma RefreshRefusesForce(ack: bool)
    ensures
      var s := Refreshing(InFlight(1), Running, {FIRST_DOG}).sch;
      RebootRefusal(s, false, ack) == None && RebootRefusal(s, true, false) == Some(PackageMutationInProgress)
  {
    RefreshJobsAreInternal();
    assert ActiveRealIds(Refreshing(InFlight(1), Running, {FIRST_DOG}).sch.jobs) == {};
  }

  lemma RefreshRuns() returns (states: seq<Sys>, steps: seq<Step>)
    ensures IsRun(states, steps) && |steps| == 3 && |states| == 4
    ensures states[3] == Refreshing(InFlight(1), Running, {FIRST_DOG})
  {
    hide IsRun, Leads, Refreshing;
    states, steps := EmptyRun();
    RefreshLeads();
    states, steps := Extended(states, steps, ADMIT_REFRESH, Refreshing(Queued, Pending, {}));
    RefreshDispatchLeads();
    states, steps := Extended(states, steps, Dispatch(0), Refreshing(Persisting(1), Running, {}));
    RefreshSpawnLeads();
    states, steps := Extended(states, steps, Spawn(0), Refreshing(InFlight(1), Running, {FIRST_DOG}));
  }

  /**
   * While a cache refresh runs, an unforced reboot is admitted and a forced one
   * without acknowledgement refused: the states of ForceCanRefuse are reached.
   */
  lemma ForceIsRefusedDuringRefresh(ack: bool) returns (states: seq<Sys>, steps: seq<Step>)
    ensures IsRun(states, steps) && |steps| == 3
    ensures RebootRefusal(states[3].sch, false, ack) == None
    ensures RebootRefusal(states[3].sch, true, false) == Some(PackageMutationInProgress)
  {
    states, steps := RefreshRuns();
    RefreshRefusesForce(ack);
  }
}
