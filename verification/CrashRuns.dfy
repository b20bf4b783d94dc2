/**
 * Concrete runs of overlapping history writes: a stale file, and a torn one
 * once the counter of temporary names has wrapped.
 */
module CrashRuns {
  import opened Wrappers
  import opened Jobs
  import opened SchedulerState
  import opened SchedulerLaws
  import opened Persistence
  import opened Boot
  import opened CrashSafety
  import opened HistoryWrites

  // ------------------------------------------------------------ building runs

  /** The run so far, with its last state. */
  ghost predicate Reaches(agents: seq<Agent>, acts: seq<Act>, a: Agent) {
    IsAgentRun(agents, acts) && |agents| == |acts| + 1 && agents[|acts|] == a
  }

  lemma Extend(agents: seq<Agent>, acts: seq<Act>, a: Agent, act: Act) returns (agents': seq<Agent>, acts': seq<Act>)
    requires Reaches(agents, acts, a) && CanAct(a, act)
    ensures Reaches(agents', acts', After(a, act)) && agents <= agents' && acts <= acts'
    ensures |agents'| > |agents| > 0 && |acts'| > |acts|
  {
    hide CanAct, After, IsLaunch;
    agents', acts' := agents + [After(a, act)], acts + [act];
    var concurrent, depth, history :| IsLaunch(agents[0], concurrent, depth, history);
    assert IsLaunch(agents'[0], concurrent, depth, history);
  }

  lemma StartOf(a: Agent, concurrent: nat, depth: nat, history: seq<Job>) returns (agents: seq<Agent>, acts: seq<Act>)
    requires IsLaunch(a, concurrent, depth, history)
    ensures Reaches(agents, acts, a) && agents == [a] && acts == []
  {
    agents, acts := [a], [];
    assert IsLaunch(agents[0], concurrent, depth, history);
  }

  /** The state after call `c` that leaves the scheduler in `sch`. */
  function Called(a: Agent, c: Call, w: nat, sch: SchedState): Agent {
    Agent(sch, a.disk.(past := a.disk.past + [sch.jobs]), if Persists(a.sch, c) then a.due[w := c] else a.due)
  }

  lemma MakeCall(agents: seq<Agent>, acts: seq<Act>, a: Agent, c: Call, w: nat, sch: SchedState)
    returns (agents': seq<Agent>, acts': seq<Act>)
    requires Reaches(agents, acts, a) && w !in a.due && w !in a.disk.writers && IsNext(a.due, c)
    requires Exec(a.sch, c) == sch
    ensures Reaches(agents', acts', Called(a, c, w, sch)) && agents <= agents' && acts <= acts'
    ensures |agents'| > |agents| > 0 && |acts'| > |acts|
  {
    hide Exec, Persists, IsNext, Reaches;
    agents', acts' := Extend(agents, acts, a, Section(c, w));
  }

  /** The state once writer `w` has copied the current job map. */
  function Copied(a: Agent, w: nat, list: seq<Job>): Agent
    requires |a.disk.past| > 0
  {
    a.(disk := a.disk.(writers := a.disk.writers[w := Writer(|a.disk.past| - 1, Persisted(list), Snapped)]))
  }

  lemma TakeCopy(agents: seq<Agent>, acts: seq<Act>, a: Agent, w: nat, list: seq<Job>)
    returns (agents': seq<Agent>, acts': seq<Act>)
    requires Reaches(agents, acts, a) && w in a.due && w !in a.disk.writers
    requires |a.disk.past| > 0 && IsListing(list, a.disk.past[|a.disk.past| - 1])
    ensures Reaches(agents', acts', Copied(a, w, list)) && agents <= agents' && acts <= acts'
    ensures |agents'| > |agents| > 0 && |acts'| > |acts|
  {
    hide Reaches, Persisted, IsListing;
    agents', acts' := Extend(agents, acts, a, Write(Snap(w, list)));
  }

  /** The state once writer `w` has put its copy in place. */
  function Installed(a: Agent, w: nat): Agent
    requires w in a.disk.writers
  {
    var d := a.disk;
    a.(disk := d.(files := d.files[HISTORY_FILE := Whole(d.writers[w].at, d.writers[w].image)],
                  started := d.started + 1, writers := d.writers - {w}),
       due := a.due - {w})
  }

  /** No temporary file is left lying about. */
  predicate OnlyHistory(d: Disk) {
    d.files.Keys <= {HISTORY_FILE}
  }

  lemma WriteInstalls(a: Agent, w: nat) returns (named: Agent, torn: Agent, written: Agent)
    requires w in a.disk.writers && a.disk.writers[w].phase.Snapped? && OnlyHistory(a.disk)
    ensures CanAct(a, Write(Name(w, 0))) && named == After(a, Write(Name(w, 0)))
    ensures CanAct(named, Write(OpenTemp(w))) && torn == After(named, Write(OpenTemp(w)))
    ensures CanAct(torn, Write(Finish(w))) && written == After(torn, Write(Finish(w)))
    ensures CanAct(written, Write(Rename(w))) && After(written, Write(Rename(w))) == Installed(a, w)
  {
    hide TempName, Exec, Persists, IsNext, IsListing, Persisted;
    NotTheHistory(Named(0, a.disk.started));
    named := After(a, Write(Name(w, 0)));
    torn := After(named, Write(OpenTemp(w)));
    written := After(torn, Write(Finish(w)));
    assert After(written, Write(Rename(w))).disk.files == Installed(a, w).disk.files;
    assert After(written, Write(Rename(w))).disk.writers == Installed(a, w).disk.writers;
  }

  /** A writer that has its copy names, writes and renames its file. */
  lemma FinishWrite(agents: seq<Agent>, acts: seq<Act>, a: Agent, w: nat)
    returns (agents': seq<Agent>, acts': seq<Act>)
    requires Reaches(agents, acts, a)
    requires w in a.disk.writers && a.disk.writers[w].phase.Snapped? && OnlyHistory(a.disk)
    ensures Reaches(agents', acts', Installed(a, w)) && agents <= agents' && acts <= acts'
    ensures |agents'| > |agents| > 0 && |acts'| > |acts|
    ensures OnlyHistory(Installed(a, w).disk)
  {
    hide CanAct, After, Reaches;
    var named, torn, written := WriteInstalls(a, w);
    agents', acts' := Extend(agents, acts, a, Write(Name(w, 0)));
    agents', acts' := Extend(agents', acts', named, Write(OpenTemp(w)));
    agents', acts' := Extend(agents', acts', torn, Write(Finish(w)));
    agents', acts' := Extend(agents', acts', written, Write(Rename(w)));
  }

  // ------------------------------------------------------ a stale history file

  const FINISHED := NewJob(1, Install, ["curl"], 0, None).Complete(1)
  const PENDING := NewJob(0, Install, ["curl"], 2, None)
  const RUNNING := PENDING.(status := Running)
  const INSTALLED := RUNNING.Complete(5)

  function Scheduling(jobs: map<Id, Job>, slot: Option<Id>): SchedState {
    NewScheduler(2, 2).(jobs := jobs, slot := slot, generation := if 0 in jobs && jobs[0] != PENDING then 1 else 0)
  }

  const JUST_FINISHED := map[1 := FINISHED]
  const WITH_PENDING := map[1 := FINISHED, 0 := PENDING]
  const WITH_RUNNING := map[1 := FINISHED, 0 := RUNNING]
  const JUST_RUNNING := map[0 := RUNNING]
  const JUST_INSTALLED := map[0 := INSTALLED]

  // The calls of the run, with the number of the writer that writes for them.
  const ADMIT := Section(CallAdmit(0, Install, ["curl"], 2, None), 0)  // does not write
  const DISPATCH := Section(CallTryAcquire(0), 0)                       // writer 0, awaited before the spawn
  const DELETE := Section(CallDelete(1), 1)                             // writer 1, the late one
  const FINALIZE := Section(CallFinalize(0, 1, true, true, 4), 2)       // does not write
  const COMPLETE := Section(CallComplete(0, 5), 2)                      // writer 2

  lemma AdmitStarts()
    ensures Exec(Scheduling(JUST_FINISHED, None), ADMIT.c) == Scheduling(WITH_PENDING, None)
    ensures !Persists(Scheduling(JUST_FINISHED, None), ADMIT.c)
  {
    assert ActiveRealIds(JUST_FINISHED) == {};
    assert JUST_FINISHED[0 := PENDING] == WITH_PENDING;
  }

  lemma DispatchRuns()
    ensures Exec(Scheduling(WITH_PENDING, None), DISPATCH.c) == Scheduling(WITH_RUNNING, Some(0))
    ensures Persists(Scheduling(WITH_PENDING, None), DISPATCH.c)
  {
    assert RunningIds(WITH_PENDING) == {};
    assert WITH_PENDING[0 := RUNNING] == WITH_RUNNING;
  }

  lemma DeleteRemoves()
    ensures Exec(Scheduling(WITH_RUNNING, Some(0)), DELETE.c) == Scheduling(JUST_RUNNING, Some(0))
    ensures Persists(Scheduling(WITH_RUNNING, Some(0)), DELETE.c)
  {
    assert WITH_RUNNING - {1} == JUST_RUNNING;
  }

  lemma InstallCompletes()
    ensures Exec(Scheduling(JUST_RUNNING, Some(0)), FINALIZE.c) == Scheduling(JUST_RUNNING, None)
    ensures !Persists(Scheduling(JUST_RUNNING, Some(0)), FINALIZE.c)
    ensures Exec(Scheduling(JUST_RUNNING, None), COMPLETE.c) == Scheduling(JUST_INSTALLED, None)
    ensures Persists(Scheduling(JUST_RUNNING, None), COMPLETE.c)
  {
    assert JUST_RUNNING[0 := INSTALLED] == JUST_INSTALLED;
  }

  lemma SingleListing(job: Job)
    ensures IsListing([job], map[job.id := job])
  {
    assert [job][0].id == job.id;
  }

  lemma PairListing(job: Job, other: Job)
    requires job.id != other.id
    ensures IsListing([job, other], map[job.id := job, other.id := other])
  {
    var list := [job, other];
    assert list[0].id == job.id && list[1].id == other.id;
  }

  lemma RunningIsEligible()
    ensures !RUNNING.IsInternal() && Persisted([RUNNING]) == [RUNNING]
  {
    ValidNamesAreNotInternal(["curl"]);
    AllEligible([RUNNING]);
  }

  lemma RunningInstallFails(clock: nat -> Time, boot: Option<string>)
    ensures
      var found := BootJobs(Persisted([RUNNING]), clock, boot);
      0 in found && found[0].status == Failed
  {
    RunningIsEligible();
    hide BootJobs, Persisted, HasSentinel;
    BootPreserves([RUNNING], clock, boot, RUNNING);
  }

  function LaunchedAgent(): Agent {
    Agent(Scheduling(JUST_FINISHED, None),
          Disk([JUST_FINISHED], map[HISTORY_FILE := Older([FINISHED])], 0, map[]), map[])
  }

  /** The install runs, its dispatch has written, and the deletion's writer has copied the job map. */
  function Deleted(): Agent {
    Agent(Scheduling(JUST_RUNNING, Some(0)),
          Disk([JUST_FINISHED, WITH_PENDING, WITH_RUNNING, JUST_RUNNING],
               map[HISTORY_FILE := Whole(2, Persisted([FINISHED, RUNNING]))], 1,
               map[1 := Writer(3, Persisted([RUNNING]), Snapped)]),
          map[1 := DELETE.c])
  }

  lemma LaunchIsProper()
    ensures IsLaunch(LaunchedAgent(), 2, 2, [FINISHED])
  {
    var history := [FINISHED];
    assert history[..|history| - 1] == [];
    assert InsertAll(map[], history[..|history| - 1]) == map[];
    assert InsertAll(map[], history) == JUST_FINISHED;
  }

  lemma Dispatched() returns (agents: seq<Agent>, acts: seq<Act>, a: Agent)
    ensures Reaches(agents, acts, a) && |agents| > 0 && agents[0] == LaunchedAgent()
    ensures a == Agent(Scheduling(WITH_RUNNING, Some(0)),
                       Disk([JUST_FINISHED, WITH_PENDING, WITH_RUNNING],
                            map[HISTORY_FILE := Whole(2, Persisted([FINISHED, RUNNING]))], 1, map[]),
                       map[])
  {
    hide Reaches, Exec, Persists, Persisted, IsListing, IsLaunch;
    LaunchIsProper();
    AdmitStarts();
    DispatchRuns();
    a := LaunchedAgent();
    agents, acts := StartOf(a, 2, 2, [FINISHED]);
    agents, acts := MakeCall(agents, acts, a, ADMIT.c, 0, Scheduling(WITH_PENDING, None));
    a := Called(a, ADMIT.c, 0, Scheduling(WITH_PENDING, None));
    agents, acts := MakeCall(agents, acts, a, DISPATCH.c, 0, Scheduling(WITH_RUNNING, Some(0)));
    a := Called(a, DISPATCH.c, 0, Scheduling(WITH_RUNNING, Some(0)));
    PairListing(FINISHED, RUNNING);
    agents, acts := TakeCopy(agents, acts, a, 0, [FINISHED, RUNNING]);
    a := Copied(a, 0, [FINISHED, RUNNING]);
    agents, acts := FinishWrite(agents, acts, a, 0);
    a := Installed(a, 0);
  }

  lemma LateCopyTaken() returns (agents: seq<Agent>, acts: seq<Act>)
    ensures Reaches(agents, acts, Deleted()) && |agents| > 0 && agents[0] == LaunchedAgent()
  {
    var a;
    agents, acts, a := Dispatched();
    hide Reaches, Exec, Persisted, IsListing;
    DeleteRemoves();
    agents, acts := MakeCall(agents, acts, a, DELETE.c, 1, Scheduling(JUST_RUNNING, Some(0)));
    a := Called(a, DELETE.c, 1, Scheduling(JUST_RUNNING, Some(0)));
    SingleListing(RUNNING);
    agents, acts := TakeCopy(agents, acts, a, 1, [RUNNING]);
    assert Copied(a, 1, [RUNNING]) == Deleted();
  }

  /** The install has ended and its completion is written; the deletion's writer still holds its older copy. */
  function Completed(): Agent {
    Agent(Scheduling(JUST_INSTALLED, None),
          Disk([JUST_FINISHED, WITH_PENDING, WITH_RUNNING, JUST_RUNNING, JUST_RUNNING, JUST_INSTALLED],
               map[HISTORY_FILE := Whole(5, Persisted([INSTALLED]))], 2,
               map[1 := Writer(3, Persisted([RUNNING]), Snapped)]),
          map[1 := DELETE.c])
  }

  lemma CompletionStates() returns (finalized: Agent, completed: Agent, copied: Agent)
    ensures finalized == Called(Deleted(), FINALIZE.c, 2, Scheduling(JUST_RUNNING, None))
    ensures completed == Called(finalized, COMPLETE.c, 2, Scheduling(JUST_INSTALLED, None))
    ensures copied == Copied(completed, 2, [INSTALLED]) && Installed(copied, 2) == Completed()
    ensures IsNext(Deleted().due, FINALIZE.c) && IsNext(finalized.due, COMPLETE.c)
    ensures finalized.sch == Scheduling(JUST_RUNNING, None) && completed.sch == Scheduling(JUST_INSTALLED, None)
    ensures finalized.due.Keys == {1} && finalized.disk.writers.Keys == {1}
    ensures 2 in completed.due && 2 !in completed.disk.writers && OnlyHistory(copied.disk)
    ensures |completed.disk.past| == 6 && completed.disk.past[5] == JUST_INSTALLED
  {
    InstallCompletes();
    hide Exec, Persists, Persisted;
    finalized := Called(Deleted(), FINALIZE.c, 2, Scheduling(JUST_RUNNING, None));
    completed := Called(finalized, COMPLETE.c, 2, Scheduling(JUST_INSTALLED, None));
    copied := Copied(completed, 2, [INSTALLED]);
    assert Installed(copied, 2).disk.past == Completed().disk.past;
    assert Installed(copied, 2).disk.writers == Completed().disk.writers;
    assert Installed(copied, 2).due == Completed().due;
  }

  lemma CompletionWritten() returns (agents: seq<Agent>, acts: seq<Act>)
    ensures Reaches(agents, acts, Completed()) && |agents| > 0 && agents[0] == LaunchedAgent()
  {
    agents, acts := LateCopyTaken();
    assert Deleted().sch == Scheduling(JUST_RUNNING, Some(0)) && 2 !in Deleted().due && 2 !in Deleted().disk.writers;
    var finalized, completed, copied := CompletionStates();
    InstallCompletes();
    SingleListing(INSTALLED);
    hide Reaches, Exec, Persisted, Persists, IsListing, IsNext, Deleted, Completed, Called, OnlyHistory, LaunchedAgent;
    agents, acts := MakeCall(agents, acts, Deleted(), FINALIZE.c, 2, Scheduling(JUST_RUNNING, None));
    agents, acts := MakeCall(agents, acts, finalized, COMPLETE.c, 2, Scheduling(JUST_INSTALLED, None));
    agents, acts := TakeCopy(agents, acts, completed, 2, [INSTALLED]);
    agents, acts := FinishWrite(agents, acts, copied, 2);
  }

  /**
   * While an install runs, a finished job is deleted; the deletion's write takes
   * its copy and is slow.  The install's completion reaches the file first, then
   * the older copy replaces it.  No write is due any more, yet after a restart
   * the completed install has failed.
   */
  lemma CompletedInstallIsReportedFailed(clock: nat -> Time, boot: Option<string>)
    returns (agents: seq<Agent>, acts: seq<Act>, k: nat)
    ensures IsAgentRun(agents, acts) && agents[0] == LaunchedAgent() && k < |acts|
    ensures HistoryOf(agents[k].disk) == Some(Whole(5, Persisted([INSTALLED])))
    ensures
      var a := agents[|acts|];
      && a.sch.jobs == map[0 := INSTALLED] && a.due == map[]
      && HistoryOf(a.disk) == Some(Whole(3, Persisted([RUNNING])))
    ensures
      var found := BootJobs(HistoryOf(agents[|acts|].disk).value.image, clock, boot);
      0 in found && found[0].status == Failed
  {
    agents, acts := CompletionWritten();
    k := |acts|;
    hide Persisted, BootJobs, IsAgentRun;
    var before := agents;
    agents, acts := FinishWrite(agents, acts, Completed(), 1);
    assert agents[k] == before[k];
    RunningInstallFails(clock, boot);
  }

  // -------------------------------------------------------- a wrapped counter

  /** The scheduler at rest, after `generation` acquisitions. */
  function AtRest(generation: nat): SchedState {
    NewScheduler(2, 2).(generation := generation)
  }

  const OLD := NewJob(0, Install, ["curl"], 0, None).Complete(1)
  const DELETE_OLD := CallDelete(0)

  function RefreshJob(id: Id, status: JobStatus): Job {
    NewJob(id, Install, [HEALTH_REFRESH], 0, None).(
      status := status,
      progress := if status == JobStatus.Completed then 100 else 0,
      completedAt := if status == JobStatus.Completed then Some(0) else None)
  }

  /** The scheduler in one round: the cache refresh `id`, which is job and, while it runs, holder of the slot. */
  function InRound(id: Id, status: JobStatus, holds: bool, generation: nat): SchedState {
    AtRest(generation).(jobs := map[id := RefreshJob(id, status)], slot := if holds then Some(id) else None)
  }

  function Successor(generation: nat): nat {
    (generation + 1) % GENERATIONS
  }

  /** The calls of a cache refresh, as its task makes them. */
  function AdmitRefresh(id: Id): Call {
    CallAdmit(id, Install, [HEALTH_REFRESH], 0, None)
  }

  function FinalizeRefresh(id: Id, generation: nat): Call {
    CallFinalize(id, generation, true, true, 0)
  }

  lemma RefreshIsAdmitted(id: Id, g: nat)
    ensures Exec(AtRest(g), AdmitRefresh(id)) == InRound(id, Pending, false, g)
    ensures !Persists(AtRest(g), AdmitRefresh(id))
  {
    assert ActiveRealIds(map[]) == {};
  }

  lemma RefreshRuns(id: Id, g: nat)
    ensures Exec(InRound(id, Pending, false, g), CallTryAcquire(id)) == InRound(id, Running, true, Successor(g))
    ensures Persists(InRound(id, Pending, false, g), CallTryAcquire(id))
  {
    assert RunningIds(InRound(id, Pending, false, g).jobs) == {};
  }

  lemma RefreshEnds(id: Id, g: nat)
    ensures Exec(InRound(id, Running, true, g), FinalizeRefresh(id, g)) == InRound(id, Running, false, g)
    ensures Exec(InRound(id, Running, false, g), CallComplete(id, 0)) == InRound(id, JobStatus.Completed, false, g)
    ensures Exec(InRound(id, JobStatus.Completed, false, g), CallDelete(id)) == AtRest(g)
    ensures Persists(InRound(id, JobStatus.Completed, false, g), CallDelete(id))
  {
    assert InRound(id, JobStatus.Completed, false, g).jobs - {id} == map[];
  }

  /** Writer 0 has its temporary file written and not renamed; nothing else is due, and `n` names are given out. */
  ghost predicate Stuck(a: Agent, sch: SchedState, n: nat) {
    && a.sch == sch && a.due == map[0 := DELETE_OLD] && a.disk.started == n
    && |a.disk.past| > 0 && a.disk.past[|a.disk.past| - 1] == sch.jobs
    && a.disk.writers.Keys == {0} && a.disk.writers[0].phase == Written(0, 0)
    && NameOf(Written(0, 0)) in a.disk.files
  }

  /** A call of the refresh that does not write. */
  lemma QuietCall(agents: seq<Agent>, acts: seq<Act>, a: Agent, sch: SchedState, c: Call, n: nat)
    returns (agents': seq<Agent>, acts': seq<Act>, a': Agent)
    requires Reaches(agents, acts, a) && Stuck(a, sch, n) && JobOf(c) != Some(0) && !Persists(sch, c)
    ensures Reaches(agents', acts', a') && Stuck(a', Exec(sch, c), n) && agents <= agents' && |agents| > 0
  {
    hide Reaches, Exec, Persists, NameOf;
    agents', acts' := MakeCall(agents, acts, a, c, 1, Exec(sch, c));
    a' := Called(a, c, 1, Exec(sch, c));
  }

  /** The state once writer 1 has copied, named and given up. */
  lemma WriteFails(a: Agent, list: seq<Job>) returns (named: Agent, failed: Agent)
    requires a.due.Keys == {0, 1} && 1 !in a.disk.writers
    requires |a.disk.past| > 0 && IsListing(list, a.disk.past[|a.disk.past| - 1])
    ensures
      var copied := Copied(a, 1, list);
      && CanAct(copied, Write(Name(1, 0))) && named == After(copied, Write(Name(1, 0)))
      && CanAct(named, Write(GiveUp(1))) && failed == After(named, Write(GiveUp(1)))
    ensures failed == a.(disk := a.disk.(started := a.disk.started + 1), due := a.due - {1})
  {
    hide Persisted, IsListing;
    named := After(Copied(a, 1, list), Write(Name(1, 0)));
    failed := After(named, Write(GiveUp(1)));
    assert failed.disk.writers == a.disk.writers;
  }

  /** A call of the refresh whose write takes a name and fails, as on a full disk. */
  lemma WritingCall(agents: seq<Agent>, acts: seq<Act>, a: Agent, sch: SchedState, c: Call, n: nat, list: seq<Job>)
    returns (agents': seq<Agent>, acts': seq<Act>, a': Agent)
    requires Reaches(agents, acts, a) && Stuck(a, sch, n) && JobOf(c) != Some(0) && Persists(sch, c)
    requires IsListing(list, Exec(sch, c).jobs)
    ensures Reaches(agents', acts', a') && Stuck(a', Exec(sch, c), n + 1) && agents <= agents' && |agents| > 0
  {
    hide Reaches, Exec, Persists, NameOf, CanAct, After, IsListing, Persisted;
    agents', acts' := MakeCall(agents, acts, a, c, 1, Exec(sch, c));
    var called := Called(a, c, 1, Exec(sch, c));
    agents', acts' := TakeCopy(agents', acts', called, 1, list);
    var named, failed := WriteFails(called, list);
    agents', acts' := Extend(agents', acts', Copied(called, 1, list), Write(Name(1, 0)));
    agents', acts' := Extend(agents', acts', named, Write(GiveUp(1)));
    a' := failed;
  }

  /** One cache refresh: dispatched, completed and deleted, it takes three names. */
  lemma Round(agents: seq<Agent>, acts: seq<Act>, a: Agent, id: Id, g: nat, n: nat)
    returns (agents': seq<Agent>, acts': seq<Act>, a': Agent)
    requires Reaches(agents, acts, a) && Stuck(a, AtRest(g), n) && id != 0
    ensures Reaches(agents', acts', a') && Stuck(a', AtRest(Successor(g)), n + 3) && agents <= agents' && |agents| > 0
  {
    RefreshIsAdmitted(id, g);
    RefreshRuns(id, g);
    RefreshEnds(id, Successor(g));
    RefreshListings(id, Successor(g));
    hide Reaches, Stuck, Exec, Persists, IsListing, AtRest, InRound, Successor, RefreshJob;
    agents', acts', a' := QuietCall(agents, acts, a, AtRest(g), AdmitRefresh(id), n);
    agents', acts', a' := WritingCall(agents', acts', a', InRound(id, Pending, false, g), CallTryAcquire(id), n,
                                      [RefreshJob(id, Running)]);
    var h := Successor(g);
    agents', acts', a' := QuietCall(agents', acts', a', InRound(id, Running, true, h), FinalizeRefresh(id, h), n + 1);
    agents', acts', a' := WritingCall(agents', acts', a', InRound(id, Running, false, h), CallComplete(id, 0), n + 1,
                                      [RefreshJob(id, JobStatus.Completed)]);
    agents', acts', a' := WritingCall(agents', acts', a', InRound(id, JobStatus.Completed, false, h),
                                      CallDelete(id), n + 2, []);
  }

  lemma RefreshListings(id: Id, g: nat)
    ensures IsListing([RefreshJob(id, Running)], InRound(id, Running, true, g).jobs)
    ensures IsListing([RefreshJob(id, JobStatus.Completed)], InRound(id, JobStatus.Completed, false, g).jobs)
    ensures IsListing([], AtRest(g).jobs)
    ensures !Persists(InRound(id, Running, true, g), FinalizeRefresh(id, g))
    ensures Persists(InRound(id, Running, false, g), CallComplete(id, 0))
  {
    SingleListing(RefreshJob(id, Running));
    SingleListing(RefreshJob(id, JobStatus.Completed));
  }

  lemma {:induction false} Rounds(agents: seq<Agent>, acts: seq<Act>, a: Agent, g: nat, n: nat, k: nat)
    returns (agents': seq<Agent>, acts': seq<Act>, a': Agent, h: nat)
    requires Reaches(agents, acts, a) && Stuck(a, AtRest(g), n)
    ensures Reaches(agents', acts', a') && Stuck(a', AtRest(h), n + 3 * k) && agents <= agents'
    decreases k
  {
    hide Reaches, Stuck, AtRest;
    agents', acts', a', h := agents, acts, a, g;
    if k > 0 {
      agents', acts', a' := Round(agents, acts, a, k + 1, g, n);
      agents', acts', a', h := Rounds(agents', acts', a', Successor(g), n + 3, k - 1);
    }
  }

  /** A process that starts with one finished job in its history. */
  function LaunchedWithOld(): Agent {
    Agent(AtRest(0).(jobs := map[0 := OLD]),
          Disk([map[0 := OLD]], map[HISTORY_FILE := Older([OLD])], 0, map[]), map[])
  }

  lemma OldLaunchIsProper()
    ensures IsLaunch(LaunchedWithOld(), 2, 2, [OLD])
    ensures Exec(LaunchedWithOld().sch, DELETE_OLD) == AtRest(0) && Persists(LaunchedWithOld().sch, DELETE_OLD)
  {
    var history := [OLD];
    assert history[..|history| - 1] == [];
    assert InsertAll(map[], history[..|history| - 1]) == map[];
    assert InsertAll(map[], history) == map[0 := OLD];
    assert map[0 := OLD] - {0} == map[];
  }

  lemma WriterIsReady(a: Agent) returns (named: Agent, torn: Agent, written: Agent)
    requires 0 in a.disk.writers && a.disk.writers[0].phase == Snapped && a.disk.started == 0
    ensures CanAct(a, Write(Name(0, 0))) && named == After(a, Write(Name(0, 0)))
    ensures CanAct(named, Write(OpenTemp(0))) && torn == After(named, Write(OpenTemp(0)))
    ensures CanAct(torn, Write(Finish(0))) && written == After(torn, Write(Finish(0)))
    ensures written.sch == a.sch && written.due == a.due && written.disk.past == a.disk.past
    ensures written.disk.started == 1 && written.disk.writers.Keys == a.disk.writers.Keys
    ensures written.disk.writers[0].phase == Written(0, 0) && NameOf(Written(0, 0)) in written.disk.files
  {
    hide TempName, Exec, Persists, IsNext, IsListing, Persisted;
    named := After(a, Write(Name(0, 0)));
    torn := After(named, Write(OpenTemp(0)));
    written := After(torn, Write(Finish(0)));
  }

  /** The old job is deleted; the deletion's write takes the first name and is slow to rename its file. */
  lemma FirstWriterIsStuck() returns (agents: seq<Agent>, acts: seq<Act>, a: Agent)
    ensures Reaches(agents, acts, a) && Stuck(a, AtRest(0), 1)
    ensures |agents| > 0 && agents[0] == LaunchedWithOld()
  {
    hide Reaches, Exec, Persists, IsListing, Persisted, CanAct, After, NameOf, IsLaunch;
    OldLaunchIsProper();
    assert IsListing([], map[]) by {
      RefreshListings(1, 0);
    }
    a := LaunchedWithOld();
    agents, acts := StartOf(a, 2, 2, [OLD]);
    agents, acts := MakeCall(agents, acts, a, DELETE_OLD, 0, AtRest(0));
    a := Called(a, DELETE_OLD, 0, AtRest(0));
    agents, acts := TakeCopy(agents, acts, a, 0, []);
    a := Copied(a, 0, []);
    var named, torn, written := WriterIsReady(a);
    agents, acts := Extend(agents, acts, a, Write(Name(0, 0)));
    agents, acts := Extend(agents, acts, named, Write(OpenTemp(0)));
    agents, acts := Extend(agents, acts, torn, Write(Finish(0)));
    a := written;
  }

  /** Two writers with the same temporary name can leave a torn history file. */
  lemma CollisionTearsHistory(d: Disk, v: nat, w: nat)
    requires v in d.writers && w in d.writers && v != w
    requires d.writers[v].phase.Written? && d.writers[w].phase.Named?
    requires NameOf(d.writers[v].phase) == NameOf(d.writers[w].phase)
    ensures Possible(d, OpenTemp(w)) && Possible(Next(d, OpenTemp(w)), Rename(v))
    ensures HistoryOf(Next(Next(d, OpenTemp(w)), Rename(v))) == Some(Torn)
  {
  }

  /** After this many refreshes the counter is back where it was when writer 0 took its name. */
  const ROUNDS := (GENERATIONS - 1) / 3

  lemma RoundsFillTheCounter()
    ensures 1 + 3 * ROUNDS == GENERATIONS
  {
  }

  /** The next refresh's dispatch takes writer 0's name again, and truncates its file before it is renamed. */
  lemma NamesCollide(a: Agent, sch: SchedState, c: Call, list: seq<Job>) returns (named: Agent, torn: Agent)
    requires Stuck(a, sch, GENERATIONS) && JobOf(c) != Some(0) && Persists(sch, c)
    requires IsListing(list, Exec(sch, c).jobs)
    ensures
      var copied := Copied(Called(a, c, 1, Exec(sch, c)), 1, list);
      && CanAct(copied, Write(Name(1, 0))) && named == After(copied, Write(Name(1, 0)))
      && CanAct(named, Write(OpenTemp(1))) && torn == After(named, Write(OpenTemp(1)))
    ensures CanAct(torn, Write(Rename(0)))
    ensures
      var d := After(torn, Write(Rename(0))).disk;
      d.started == GENERATIONS + 1 && HistoryOf(d) == Some(Torn)
  {
    hide Persisted, IsListing, Exec, Persists, TempName;
    var copied := Copied(Called(a, c, 1, Exec(sch, c)), 1, list);
    named := After(copied, Write(Name(1, 0)));
    torn := After(named, Write(OpenTemp(1)));
    CollisionTearsHistory(named.disk, 0, 1);
  }

  lemma CollidingCall(agents: seq<Agent>, acts: seq<Act>, a: Agent, sch: SchedState, c: Call, list: seq<Job>)
    returns (agents': seq<Agent>, acts': seq<Act>, torn: Agent)
    requires Reaches(agents, acts, a) && Stuck(a, sch, GENERATIONS) && JobOf(c) != Some(0) && Persists(sch, c)
    requires IsListing(list, Exec(sch, c).jobs)
    ensures Reaches(agents', acts', torn) && agents <= agents' && |agents| > 0 && CanAct(torn, Write(Rename(0)))
    ensures
      var d := After(torn, Write(Rename(0))).disk;
      d.started == GENERATIONS + 1 && HistoryOf(d) == Some(Torn)
  {
    var named;
    named, torn := NamesCollide(a, sch, c, list);
    hide Reaches, Exec, Persists, NameOf, CanAct, After, IsListing, Persisted, HistoryOf;
    agents', acts' := MakeCall(agents, acts, a, c, 1, Exec(sch, c));
    var called := Called(a, c, 1, Exec(sch, c));
    agents', acts' := TakeCopy(agents', acts', called, 1, list);
    agents', acts' := Extend(agents', acts', Copied(called, 1, list), Write(Name(1, 0)));
    agents', acts' := Extend(agents', acts', named, Write(OpenTemp(1)));
  }

  lemma LastRound(agents: seq<Agent>, acts: seq<Act>, a: Agent, g: nat)
    returns (agents': seq<Agent>, acts': seq<Act>, torn: Agent)
    requires Reaches(agents, acts, a) && Stuck(a, AtRest(g), GENERATIONS)
    ensures Reaches(agents', acts', torn) && agents <= agents' && |agents| > 0
    ensures torn.disk.started == GENERATIONS + 1 && HistoryOf(torn.disk) == Some(Torn)
  {
    RefreshIsAdmitted(1, g);
    RefreshRuns(1, g);
    RefreshListings(1, Successor(g));
    hide Reaches, Stuck, Exec, Persists, IsListing, AtRest, InRound, Successor, RefreshJob, CanAct, After, HistoryOf;
    var last;
    agents', acts', last := QuietCall(agents, acts, a, AtRest(g), AdmitRefresh(1), GENERATIONS);
    agents', acts', torn := CollidingCall(agents', acts', last, InRound(1, Pending, false, g), CallTryAcquire(1),
                                          [RefreshJob(1, Running)]);
    agents', acts' := Extend(agents', acts', torn, Write(Rename(0)));
    torn := After(torn, Write(Rename(0)));
  }

  /**
   * The bound on the counter is exact: after one more name than the counter has
   * values, two writers share a name and the history file is torn.  The first
   * name is that of a slow deletion, the others those of refreshes.
   */
  lemma WrappedCounterTearsHistory() returns (agents: seq<Agent>, acts: seq<Act>)
    ensures IsAgentRun(agents, acts) && |agents| == |acts| + 1 && agents[0] == LaunchedWithOld()
    ensures agents[|acts|].disk.started == GENERATIONS + 1 && HistoryOf(agents[|acts|].disk) == Some(Torn)
  {
    var a, h;
    agents, acts, a := FirstWriterIsStuck();
    RoundsFillTheCounter();
    hide Stuck, AtRest, ROUNDS, LaunchedWithOld, IsAgentRun, HistoryOf;
    agents, acts, a, h := Rounds(agents, acts, a, 0, 1, ROUNDS);
    agents, acts, a := LastRound(agents, acts, a, h);
  }
}
