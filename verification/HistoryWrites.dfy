/**
 * The scheduler's calls together with the writes they cause.  A call that ends
 * with `persist_jobs` leaves a write due, which copies the job map at some later
 * point and runs beside the calls that follow, except those about the same job:
 * whoever made the call awaits its write.
 */
module HistoryWrites {
  import opened Wrappers
  import opened Jobs
  import opened SchedulerState
  import opened SchedulerLaws
  import opened Persistence
  import opened Boot
  import opened CrashSafety
  import opened HistoryOrder

  /** `due` holds the calls whose writes are not finished, each under the number of its writer. */
  datatype Agent = Agent(sch: SchedState, disk: Disk, due: map<nat, Call>)

  /** A call, whose write, if any, will be that of writer `w`, or an event of a write. */
  datatype Act = Section(c: Call, w: nat) | Write(e: Event)

  /** Whether the call goes on to `persist_jobs`. */
  predicate Persists(s: SchedState, c: Call) {
    match c
    case CallReserveReboot(_, force, ack, _, _) => RebootRefusal(s, force, ack).None?
    case CallRollbackReboot(id, _, _) => s.rebootPending == Some(id)
    case CallBeginReboot(id) => BeginRebootExecution(s, id).1
    case CallSetRebooting(id) => SetJobRebooting(s, id).1
    case CallTryAcquire(id) => TryAcquire(s, id).1.Acquired?
    case CallComplete(_, _) => true
    case CallFail(_, _, _) => true
    case CallFailWithDiagnostics(_, _, _, _) => true
    case CallDelete(id) => DeleteJob(s, id).1
    case _ => false
  }

  /**
   * The ends of jobs are always written; reservations, their rollbacks and
   * starts, acquisitions and deletions if they took effect.
   */
  lemma WritesFollowChanges(s: SchedState, c: Call)
    ensures Persists(s, c) <==>
            || c.CallComplete? || c.CallFail? || c.CallFailWithDiagnostics?
            || ((c.CallReserveReboot? || c.CallRollbackReboot? || c.CallBeginReboot? || c.CallSetRebooting?
                 || c.CallTryAcquire? || c.CallDelete?) && Exec(s, c) != s)
  {
    hide RunningIds, ActiveRealIds, AdmitJob, InsertAll, RecoverAll;
  }

  /** The job a call is about. */
  function JobOf(c: Call): Option<Id> {
    if c.CallFreeze? || c.CallLoadHistory? || c.CallRecover? then None else Some(c.id)
  }

  /**
   * No write for an earlier call about the same job is due.  This is stricter
   * than the program, where a user may delete a job whose completion is still
   * being written.
   */
  ghost predicate IsNext(due: map<nat, Call>, c: Call) {
    forall w :: w in due ==> JobOf(due[w]) != JobOf(c)
  }

  ghost predicate CanAct(a: Agent, act: Act) {
    match act
    case Section(c, w) => w !in a.due && w !in a.disk.writers && IsNext(a.due, c)
    case Write(e) => !e.Change? && Possible(a.disk, e) && (e.Snap? ==> e.w in a.due)
  }

  /** The event of the disk an act amounts to. */
  function EventOf(a: Agent, act: Act): Event {
    match act
    case Section(c, _) => Change(Exec(a.sch, c).jobs)
    case Write(e) => e
  }

  predicate EndsWrite(e: Event) {
    e.Rename? || e.RenameFails? || e.GiveUp?
  }

  function After(a: Agent, act: Act): Agent
    requires CanAct(a, act)
  {
    match act
    case Section(c, w) =>
      Agent(Exec(a.sch, c), Next(a.disk, EventOf(a, act)), if Persists(a.sch, c) then a.due[w := c] else a.due)
    case Write(e) =>
      a.(disk := Next(a.disk, e), due := if EndsWrite(e) then a.due - {e.w} else a.due)
  }

  /** A startup that finds only finished jobs in its history file, and so writes nothing itself. */
  predicate IsLaunch(a: Agent, concurrent: nat, depth: nat, history: seq<Job>) {
    && (forall i :: 0 <= i < |history| ==> history[i].status.IsTerminal())
    && a.sch == LoadHistory(NewScheduler(concurrent, depth), history)
    && a.disk == Disk([a.sch.jobs], map[HISTORY_FILE := Older(history)], 0, map[])
    && a.due == map[]
  }

  ghost predicate IsAgentRun(agents: seq<Agent>, acts: seq<Act>) {
    && |agents| == |acts| + 1
    && (exists concurrent, depth, history :: IsLaunch(agents[0], concurrent, depth, history))
    && forall i {:trigger acts[i]} :: 0 <= i < |acts| ==>
         CanAct(agents[i], acts[i]) && agents[i + 1] == After(agents[i], acts[i])
  }

  lemma AgentStep(agents: seq<Agent>, acts: seq<Act>, i: nat)
    requires IsAgentRun(agents, acts) && i < |acts|
    ensures |agents| == |acts| + 1 && CanAct(agents[i], acts[i]) && agents[i + 1] == After(agents[i], acts[i])
  {
  }

  // ------------------------------------------------------ seen from the disk

  function Disks(agents: seq<Agent>): seq<Disk> {
    seq(|agents|, i requires 0 <= i < |agents| => agents[i].disk)
  }

  function Events(agents: seq<Agent>, acts: seq<Act>): seq<Event>
    requires |agents| >= |acts|
  {
    seq(|acts|, i requires 0 <= i < |acts| => EventOf(agents[i], acts[i]))
  }

  lemma ActIsEvent(a: Agent, act: Act)
    requires CanAct(a, act)
    ensures Possible(a.disk, EventOf(a, act)) && After(a, act).disk == Next(a.disk, EventOf(a, act))
  {
  }

  /** The disk goes through a run of overlapping writers, so what holds of those holds here. */
  lemma AgentRunsAreDiskRuns(agents: seq<Agent>, acts: seq<Act>)
    requires IsAgentRun(agents, acts)
    ensures |agents| == |acts| + 1 && IsDiskRun(Disks(agents), Events(agents, acts))
  {
    var disks, events := Disks(agents), Events(agents, acts);
    forall i {:trigger events[i]} | 0 <= i < |events|
      ensures Possible(disks[i], events[i]) && disks[i + 1] == Next(disks[i], events[i])
    {
      AgentStep(agents, acts, i);
      ActIsEvent(agents[i], acts[i]);
    }
  }

  // ---------------------------------------------------------------- durability

  /** The current job map is the last one on record, and only writers of due writes are at work. */
  ghost predicate InStep(a: Agent) {
    && |a.disk.past| > 0 && a.disk.past[|a.disk.past| - 1] == a.sch.jobs
    && a.disk.writers.Keys <= a.due.Keys
  }

  lemma ActKeepsStep(a: Agent, act: Act)
    requires InStep(a) && CanAct(a, act)
    ensures InStep(After(a, act))
  {
    hide Exec, Persists, IsNext, IsListing, Persisted, NameOf;
  }

  lemma {:induction false} InStepAlongRun(agents: seq<Agent>, acts: seq<Act>, i: nat)
    requires IsAgentRun(agents, acts) && i < |agents|
    ensures InStep(agents[i])
    decreases i
  {
    if i > 0 {
      InStepAlongRun(agents, acts, i - 1);
      AgentStep(agents, acts, i - 1);
      ActKeepsStep(agents[i - 1], acts[i - 1]);
    }
  }

  /** Job map number `p` is on disk, or a newer one, or writer `w` is on its way to put one there. */
  ghost predicate OnItsWay(a: Agent, w: nat, p: nat) {
    || Version(a.disk) >= p
    || (w in a.due && p < |a.disk.past| && (w in a.disk.writers ==> a.disk.writers[w].at >= p))
  }

  lemma OnItsWayStays(a: Agent, act: Act, w: nat, p: nat, preboot: Option<Content>)
    requires InStep(a) && OnItsWay(a, w, p) && CanAct(a, act)
    requires DiskInv(a.disk, preboot) && RenamesForward(a.disk, EventOf(a, act))
    requires act.Write? ==> !act.e.GiveUp? && !act.e.RenameFails?
    ensures OnItsWay(After(a, act), w, p)
  {
    ActIsEvent(a, act);
    VersionChanges(a.disk, EventOf(a, act), preboot);
    hide DiskInv, Version, Exec, Persists, IsNext, IsListing, Persisted, NameOf;
  }

  /** No write of the run fails, and none replaces the file by an older copy. */
  ghost predicate WritesSucceed(agents: seq<Agent>, acts: seq<Act>)
    requires |agents| >= |acts|
  {
    forall m {:trigger acts[m]} :: 0 <= m < |acts| ==>
      && (acts[m].Write? ==> !acts[m].e.GiveUp? && !acts[m].e.RenameFails?)
      && RenamesForward(agents[m].disk, EventOf(agents[m], acts[m]))
  }

  lemma DiskInvOfAgent(agents: seq<Agent>, acts: seq<Act>, i: nat)
    requires IsAgentRun(agents, acts) && i < |agents| && agents[|acts|].disk.started <= GENERATIONS
    ensures DiskInv(agents[i].disk, HistoryOf(agents[0].disk))
  {
    AgentRunsAreDiskRuns(agents, acts);
    hide DiskInv, IsDiskRun, IsAgentRun;
    DiskInvBefore(Disks(agents), Events(agents, acts), i);
  }

  lemma {:induction false} OnItsWayAlongRun(agents: seq<Agent>, acts: seq<Act>, m: nat, i: nat)
    requires IsAgentRun(agents, acts) && m < i < |agents| && agents[|acts|].disk.started <= GENERATIONS
    requires WritesSucceed(agents, acts)
    requires acts[m].Section? && Persists(agents[m].sch, acts[m].c)
    ensures OnItsWay(agents[i], acts[m].w, |agents[m + 1].disk.past| - 1)
    decreases i
  {
    AgentStep(agents, acts, i - 1);
    InStepAlongRun(agents, acts, i - 1);
    if i > m + 1 {
      OnItsWayAlongRun(agents, acts, m, i - 1);
      DiskInvOfAgent(agents, acts, i - 1);
      hide DiskInv, InStep, CanAct, After, OnItsWay, Persists, RenamesForward;
      assert acts[i - 1] == acts[i - 1];
      OnItsWayStays(agents[i - 1], acts[i - 1], acts[m].w, |agents[m + 1].disk.past| - 1,
                    HistoryOf(agents[0].disk));
    }
  }

  lemma VersionIsImage(d: Disk, preboot: Option<Content>)
    requires DiskInv(d, preboot) && Version(d) >= 0 && !(preboot.Some? && preboot.value.Whole?)
    ensures HistoryOf(d).Some? && HistoryOf(d).value.Whole? && HistoryOf(d).value.at == Version(d)
    ensures IsImage(d.past, HistoryOf(d).value.at, HistoryOf(d).value.image)
  {
    hide WriterOk, TicketsDiffer, IsImage;
  }

  lemma LaunchIsOlder(agents: seq<Agent>, acts: seq<Act>)
    requires IsAgentRun(agents, acts)
    ensures |agents| == |acts| + 1 && HistoryOf(agents[0].disk).Some? && HistoryOf(agents[0].disk).value.Older?
  {
  }

  /**
   * If no write fails and none puts an older copy in place of a newer one, then
   * once no write is due the history file is the image of a job map at least as
   * recent as every call that persists.
   */
  lemma PersistedCallsAreOnDisk(agents: seq<Agent>, acts: seq<Act>, m: nat, i: nat)
    requires IsAgentRun(agents, acts) && m < i < |agents| && agents[|acts|].disk.started <= GENERATIONS
    requires WritesSucceed(agents, acts)
    requires acts[m].Section? && Persists(agents[m].sch, acts[m].c) && agents[i].due == map[]
    ensures
      var file := HistoryOf(agents[i].disk);
      && file.Some? && file.value.Whole? && file.value.at >= |agents[m + 1].disk.past| - 1
      && IsImage(agents[i].disk.past, file.value.at, file.value.image)
  {
    LaunchIsOlder(agents, acts);
    InStepAlongRun(agents, acts, m + 1);
    hide IsAgentRun, DiskInv, Version, HistoryOf, IsImage, WritesSucceed, Persists;
    OnItsWayAlongRun(agents, acts, m, i);
    DiskInvOfAgent(agents, acts, i);
    VersionIsImage(agents[i].disk, HistoryOf(agents[0].disk));
  }
}
