/**
 * Concrete runs on which the scheduler does what it promises: an install waits
 * for its turn and gets it, and the agent's update is reserved while a cache
 * refresh is running.
 */
module ExampleRuns {
  import opened Wrappers
  import opened Jobs
  import opened SchedulerState
  import opened Tasks
  import opened Counterexamples

  // ----------------------------------------------- an install waits its turn

  ghost predicate Takes(s: Sys, step: Step, s': Sys) {
    Permissible(s, step) && Apply(s, step) == s'
  }

  lemma QuietTakes(s: Sys, a: Action, s': Sys)
    requires Enabled(s, a) && !Notifies(s, a) && Core(s, a) == s'
    ensures Takes(s, Step(a, 0), s')
  {
  }

  lemma Taken(states: seq<Sys>, steps: seq<Step>, step: Step, next: Sys)
    returns (states': seq<Sys>, steps': seq<Step>)
    requires IsRun(states, steps) && |states| == |steps| + 1 && Takes(states[|steps|], step, next)
    ensures states' == states + [next] && steps' == steps + [step]
    ensures IsRun(states', steps') && |states'| == |steps'| + 1 && states'[|steps'|] == next
  {
    hide Apply, Permissible, Init, HasTimes;
    states', steps' := states + [next], steps + [step];
  }

  /** Where the two installs stand, and the watchdog of the first. */
  datatype Scene = Scene(first: Pc, second: Pc, permit: bool, watch: set<Watchdog>)

  predicate Holds(pc: Pc) {
    pc.Persisting? || pc.InFlight?
  }

  predicate HasRun(pc: Pc) {
    Holds(pc) || pc.Returned?
  }

  function StatusAt(pc: Pc): JobStatus {
    if HasRun(pc) then Running else Pending
  }

  /** The first install runs first, so the second has run only after it. */
  function Show(scene: Scene): Sys {
    var jobs := map[0 := CurlJob(0).(status := StatusAt(scene.first)),
                    2 := CurlJob(2).(status := StatusAt(scene.second))];
    var slot := if Holds(scene.first) then Some(0) else if Holds(scene.second) then Some(2) else None;
    var acquired := if HasRun(scene.second) then 2 else if HasRun(scene.first) then 1 else 0;
    Sys(Scheduling(jobs, None).(slot := slot, generation := acquired),
        map[0 := InstallTask(scene.first), 2 := InstallTask(scene.second)],
        scene.permit, scene.watch, 0, {0, 2}, None, false, false,
        acquired, if slot.Some? then acquired - 1 else acquired, 0, 0)
  }

  const ADMIT_SECOND := Admit(2, Package(Install), NAMES, 0, None)

  lemma SecondIsAdmitted()
    ensures Leads(AfterAdmission(), ADMIT_SECOND, Show(Scene(Queued, Queued, true, {})))
  {
    NamesAreValid();
    assert ActiveRealIds(AfterAdmission().sch.jobs) == {0};
    assert Core(AfterAdmission(), ADMIT_SECOND) == Show(Scene(Queued, Queued, true, {}));
  }

  lemma FirstRuns()
    ensures Takes(Show(Scene(Queued, Queued, true, {})), Step(Dispatch(0), 0),
                  Show(Scene(Persisting(1), Queued, true, {})))
    ensures Takes(Show(Scene(Persisting(1), Queued, true, {})), Step(Spawn(0), 0),
                  Show(Scene(InFlight(1), Queued, true, {FIRST_DOG})))
  {
    FirstAcquires();
    FirstSpawns();
  }

  lemma FirstAcquires()
    ensures Takes(Show(Scene(Queued, Queued, true, {})), Step(Dispatch(0), 0),
                  Show(Scene(Persisting(1), Queued, true, {})))
  {
    var (s, s') := (Show(Scene(Queued, Queued, true, {})), Show(Scene(Persisting(1), Queued, true, {})));
    assert TryAcquire(s.sch, 0) == (s'.sch, Acquired(1)) by {
      assert RunningIds(s.sch.jobs) == {};
      assert s.sch.jobs[0 := s.sch.jobs[0].(status := Running)] == s'.sch.jobs;
    }
    hide TryAcquire;
    assert Core(s, Dispatch(0)) == s';
    QuietTakes(s, Dispatch(0), s');
  }

  lemma FirstSpawns()
    ensures Takes(Show(Scene(Persisting(1), Queued, true, {})), Step(Spawn(0), 0),
                  Show(Scene(InFlight(1), Queued, true, {FIRST_DOG})))
  {
    var s := Show(Scene(Persisting(1), Queued, true, {}));
    assert Core(s, Spawn(0)) == Show(Scene(InFlight(1), Queued, true, {FIRST_DOG}));
    QuietTakes(s, Spawn(0), Show(Scene(InFlight(1), Queued, true, {FIRST_DOG})));
  }

  /** While the first holds the slot, the second waits at every turn. */
  lemma SecondWaits(pc: Pc, permit: bool)
    requires pc == Queued || pc == Rechecking
    ensures Takes(Show(Scene(InFlight(1), pc, permit, {FIRST_DOG})), Step(Dispatch(2), 0),
                  Show(Scene(InFlight(1), Pausing, permit, {FIRST_DOG})))
  {
    var s := Show(Scene(InFlight(1), pc, permit, {FIRST_DOG}));
    assert RunningIds(s.sch.jobs) == {0};
    assert Core(s, Dispatch(2)) == Show(Scene(InFlight(1), Pausing, permit, {FIRST_DOG}));
    QuietTakes(s, Dispatch(2), Show(Scene(InFlight(1), Pausing, permit, {FIRST_DOG})));
  }

  /** The stored permit is used up by one more turn; without it the second falls asleep. */
  lemma SecondPolls(permit: bool)
    ensures Takes(Show(Scene(InFlight(1), Pausing, permit, {FIRST_DOG})), Step(Poll(2), 0),
                  Show(Scene(InFlight(1), if permit then Rechecking else Sleeping, false, {FIRST_DOG})))
  {
    var s := Show(Scene(InFlight(1), Pausing, permit, {FIRST_DOG}));
    var s' := Show(Scene(InFlight(1), if permit then Rechecking else Sleeping, false, {FIRST_DOG}));
    assert Core(s, Poll(2)) == s';
    QuietTakes(s, Poll(2), s');
  }

  const DONE_DOG := FIRST_DOG.(result := Some(true))

  lemma FirstExits()
    ensures Takes(Show(Scene(InFlight(1), Sleeping, false, {FIRST_DOG})), Step(ClosureExit(FIRST_DOG, true), 0),
                  Show(Scene(InFlight(1), Sleeping, false, {DONE_DOG})))
  {
    var s := Show(Scene(InFlight(1), Sleeping, false, {FIRST_DOG}));
    assert {FIRST_DOG} - {FIRST_DOG} + {DONE_DOG} == {DONE_DOG};
    QuietTakes(s, ClosureExit(FIRST_DOG, true), Show(Scene(InFlight(1), Sleeping, false, {DONE_DOG})));
  }

  /** The finalization frees the slot and wakes the sleeper. */
  lemma FirstIsFinalized()
    ensures Takes(Show(Scene(InFlight(1), Sleeping, false, {DONE_DOG})), Step(WatchdogFinalize(DONE_DOG, 0), 2),
                  Show(Scene(Returned(true, true), Woken, false, {})))
  {
    var s := Show(Scene(InFlight(1), Sleeping, false, {DONE_DOG}));
    var a := WatchdogFinalize(DONE_DOG, 0);
    var s1 := Show(Scene(Returned(true, true), Sleeping, false, {}));
    assert {DONE_DOG} - {DONE_DOG} == {};
    assert Core(s, a) == s1;
    assert IsSleeping(s1, 2);
    assert NotifyOne(s1, 2) == Show(Scene(Returned(true, true), Woken, false, {}));
  }

  lemma SecondRuns()
    ensures Takes(Show(Scene(Returned(true, true), Woken, false, {})), Step(Resume(2), 0),
                  Show(Scene(Returned(true, true), Rechecking, false, {})))
    ensures Takes(Show(Scene(Returned(true, true), Rechecking, false, {})), Step(Dispatch(2), 0),
                  Show(Scene(Returned(true, true), Persisting(2), false, {})))
  {
    SecondResumes();
    SecondAcquiresSlot();
  }

  lemma SecondResumes()
    ensures Takes(Show(Scene(Returned(true, true), Woken, false, {})), Step(Resume(2), 0),
                  Show(Scene(Returned(true, true), Rechecking, false, {})))
  {
    var s := Show(Scene(Returned(true, true), Woken, false, {}));
    assert Core(s, Resume(2)) == Show(Scene(Returned(true, true), Rechecking, false, {}));
    QuietTakes(s, Resume(2), Show(Scene(Returned(true, true), Rechecking, false, {})));
  }

  lemma SecondAcquiresSlot()
    ensures Takes(Show(Scene(Returned(true, true), Rechecking, false, {})), Step(Dispatch(2), 0),
                  Show(Scene(Returned(true, true), Persisting(2), false, {})))
  {
    var s := Show(Scene(Returned(true, true), Rechecking, false, {}));
    var s' := Show(Scene(Returned(true, true), Persisting(2), false, {}));
    assert TryAcquire(s.sch, 2) == (s'.sch, Acquired(2)) by {
      assert RunningIds(s.sch.jobs) == {0};
      assert s.sch.jobs[2 := s.sch.jobs[2].(status := Running)] == s'.sch.jobs;
    }
    hide TryAcquire;
    assert Core(s, Dispatch(2)) == s';
    QuietTakes(s, Dispatch(2), s');
  }

  lemma FirstIsInFlight() returns (states: seq<Sys>, steps: seq<Step>)
    ensures IsRun(states, steps) && |steps| == 4 && |states| == 5
    ensures states[4] == Show(Scene(InFlight(1), Queued, true, {FIRST_DOG}))
  {
    AdmissionLeads();
    SecondIsAdmitted();
    FirstRuns();
    hide IsRun, Leads, Takes, Show, AfterAdmission;
    states, steps := EmptyRun();
    states, steps := Extended(states, steps, START[0], AfterAdmission());
    states, steps := Extended(states, steps, ADMIT_SECOND, Show(Scene(Queued, Queued, true, {})));
    states, steps := Taken(states, steps, Step(Dispatch(0), 0), Show(Scene(Persisting(1), Queued, true, {})));
    states, steps := Taken(states, steps, Step(Spawn(0), 0), Show(Scene(InFlight(1), Queued, true, {FIRST_DOG})));
  }

  lemma SecondFallsAsleep() returns (states: seq<Sys>, steps: seq<Step>)
    ensures IsRun(states, steps) && |steps| == 8 && |states| == 9
    ensures states[8] == Show(Scene(InFlight(1), Sleeping, false, {FIRST_DOG}))
  {
    SecondWaits(Queued, true);
    SecondPolls(true);
    SecondWaits(Rechecking, false);
    SecondPolls(false);
    hide IsRun, Takes, Show;
    states, steps := FirstIsInFlight();
    states, steps := Taken(states, steps, Step(Dispatch(2), 0), Show(Scene(InFlight(1), Pausing, true, {FIRST_DOG})));
    states, steps := Taken(states, steps, Step(Poll(2), 0), Show(Scene(InFlight(1), Rechecking, false, {FIRST_DOG})));
    states, steps := Taken(states, steps, Step(Dispatch(2), 0), Show(Scene(InFlight(1), Pausing, false, {FIRST_DOG})));
    states, steps := Taken(states, steps, Step(Poll(2), 0), Show(Scene(InFlight(1), Sleeping, false, {FIRST_DOG})));
  }

  /**
   * A second install finds the slot taken and falls asleep; when the first is
   * finalized it is woken, and its next turn acquires the slot.
   */
  lemma SecondInstallGetsItsTurn() returns (states: seq<Sys>, steps: seq<Step>)
    ensures IsRun(states, steps) && |steps| == 12 && |states| == 13
    ensures states[8].sch.slot == Some(0) && IsSleeping(states[8], 2)
    ensures steps[9].action.WatchdogFinalize? && steps[9].action.w.job == 0 && steps[9].wake == 2
    ensures states[10].sch.slot == None && 2 in states[10].tasks && states[10].tasks[2].pc == Woken
    ensures steps[11].action == Dispatch(2) && states[12].sch.slot == Some(2)
    ensures 2 in states[12].sch.jobs && states[12].sch.jobs[2].status == Running
  {
    FirstExits();
    FirstIsFinalized();
    SecondRuns();
    states, steps := SecondFallsAsleep();
    hide IsRun, Takes;
    states, steps := Taken(states, steps, Step(ClosureExit(FIRST_DOG, true), 0),
                           Show(Scene(InFlight(1), Sleeping, false, {DONE_DOG})));
    states, steps := Taken(states, steps, Step(WatchdogFinalize(DONE_DOG, 0), 2),
                           Show(Scene(Returned(true, true), Woken, false, {})));
    states, steps := Taken(states, steps, Step(Resume(2), 0), Show(Scene(Returned(true, true), Rechecking, false, {})));
    states, steps := Taken(states, steps, Step(Dispatch(2), 0), Show(Scene(Returned(true, true), Persisting(2), false, {})));
  }

  // ------------------------------------- an update reserved during a refresh

  const RESERVE_UPDATE := ReserveUpdate(2, 0, None)

  function UpdateReserved(): Sys {
    var s := Refreshing(InFlight(1), Running, {FIRST_DOG});
    s.(sch := s.sch.(selfUpdate := Some(2),
                     jobs := s.sch.jobs[2 := NewJob(2, SelfUpdate, [SELF_PACKAGE_NAME], 0, None)]),
       tasks := s.tasks[2 := Task(Upgrade, Guarded)], used := {0, 2})
  }

  lemma ReservationLeadsToUpdate()
    ensures Leads(Refreshing(InFlight(1), Running, {FIRST_DOG}), RESERVE_UPDATE, UpdateReserved())
  {
    var s := Refreshing(InFlight(1), Running, {FIRST_DOG});
    RefreshJobsAreInternal();
    assert ActiveRealIds(s.sch.jobs) == {};
    assert Core(s, RESERVE_UPDATE) == UpdateReserved();
  }

  /** While a cache refresh holds the slot, a self-update is reserved all the same. */
  lemma UpdateIsReservedDuringRefresh() returns (states: seq<Sys>, steps: seq<Step>)
    ensures IsRun(states, steps) && |steps| == 4 && |states| == 5
    ensures states[3].sch.slot == Some(0) && 0 in states[3].sch.jobs && states[3].sch.jobs[0].status == Running
    ensures states[3].sch.jobs[0].packages == ["__health_refresh__"]
    ensures steps[3].action == RESERVE_UPDATE && states[4].sch.selfUpdate == Some(2) && states[4].sch.slot == Some(0)
  {
    ReservationLeadsToUpdate();
    states, steps := RefreshRuns();
    hide IsRun, Leads;
    states, steps := Extended(states, steps, RESERVE_UPDATE, UpdateReserved());
  }
}
