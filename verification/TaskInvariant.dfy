/**
 * The inductive invariant of the concurrent system, in six parts, and the
 * proof that every step keeps it.
 */
module TaskInvariant {
  import opened Wrappers
  import opened Jobs
  import opened SchedulerState
  import opened SchedulerLaws
  import opened Boot
  import opened Tasks

  /** The statuses the job of a task may have while the task is at `pc`. */
  predicate StatusOk(kind: Kind, pc: Pc, status: JobStatus) {
    match pc
    case Queued => status in {Pending, Failed}
    case Pausing => status in {Pending, Failed}
    case Sleeping => status in {Pending, Failed}
    case Woken => status in {Pending, Failed}
    case Rechecking => status in {Pending, Failed}
    case Guarded => status in {Pending, Failed}
    case Persisting(_) => status == Running
    case InFlight(_) => status == Running
    case Returned(_, ran) => if ran then status == Running else status in {Pending, Failed}
    case Reserving => status == Running
    case Marking(_) => status == Running
    case Completing(_) => status in {Running, Rebooting}
    case Reserved(_) => status == Pending
    case Beginning(_) => status == if kind == Restart then Pending else Rebooting
    case Commanding(_) => status == Rebooting
    case RollingBack(_) => status == Rebooting
    case AwaitingReboot(_) => status == Rebooting
    case DroppingGuard(_) => status in {Completed, Failed}
    case Deleting => status in {Completed, Failed}
    case Releasing => status in {Completed, Failed}
    case Done => status in {Completed, Failed}
    case Dropped => true
  }

  /** The task's closure has run and its job still occupies a running slot. */
  predicate RanNotFinished(pc: Pc) {
    (pc.Returned? && pc.ran) || pc.Reserving? || pc.Marking? || pc.Completing?
  }

  /** Only these tasks exist: each kind stays within its own part of the program. */
  predicate KindOk(kind: Kind, pc: Pc) {
    && (kind.Package? ==> kind.op in {Install, Update, Remove})
    && (pc.Returned? && !pc.ran ==> !pc.ok)
    && (kind == Restart ==>
          || pc.Reserved? || pc.Beginning? || pc.Commanding? || pc.RollingBack? || pc.AwaitingReboot?
          || pc.Done? || pc.Dropped?)
    && (pc.Reserving? || pc.Marking? || pc.Completing? || pc.DroppingGuard? ==> kind == Patch)
    && (pc.Beginning? || pc.Commanding? || pc.RollingBack? || pc.AwaitingReboot? ==> kind in {Patch, Restart})
    && (pc.Reserved? ==> kind == Restart)
    && (pc.Guarded? || pc.Releasing? ==> kind == Upgrade)
    && (pc.Deleting? ==> kind == Refresh)
  }

  /** A task at one of these points owns the current reservation. */
  predicate HoldsReservation(pc: Pc) {
    pc.Marking? || pc.Reserved? || pc.Beginning? || pc.Commanding? || pc.RollingBack? || pc.AwaitingReboot?
  }

  predicate BeforeReboot(pc: Pc) {
    pc.Marking? || pc.Reserved? || pc.Beginning?
  }

  /** A task and its job agree on operation, internal flag and status. */
  predicate JobFits(task: Task, job: Job) {
    && job.operation == OperationOf(task.kind)
    && (job.IsInternal() <==> task.kind == Refresh)
    && StatusOk(task.kind, task.pc, job.status)
  }

  // --------------------------------------------------------------- the parts

  ghost predicate Ids(used: set<Id>, jobs: map<Id, Job>, tasks: map<Id, Task>) {
    && jobs.Keys <= used && tasks.Keys <= used
    && forall k :: k in jobs ==> jobs[k].id == k
  }

  ghost predicate Fits(tasks: map<Id, Task>, jobs: map<Id, Job>) {
    forall k :: k in tasks && k in jobs ==> JobFits(tasks[k], jobs[k])
  }

  ghost predicate Kinds(tasks: map<Id, Task>) {
    forall t :: t in tasks ==> KindOk(tasks[t].kind, tasks[t].pc)
  }

  /**
   * Slot ownership: the un-finalized watchdogs, together with a task between
   * acquisition and spawn, are exactly the holder of the slot with the current
   * generation.
   */
  ghost predicate Slots(slot: Option<Id>, generation: nat, tasks: map<Id, Task>, watch: set<Watchdog>) {
    && (forall w :: w in watch ==> slot == Some(w.job) && w.generation == generation)
    && (forall v, w :: v in watch && w in watch ==> v == w)
    && (slot.Some? ==>
          && slot.value in tasks
          && var pc := tasks[slot.value].pc;
             if watch == {} then pc == Persisting(generation) else pc.InFlight? || pc.Dropped?)
    && (forall t :: t in tasks && (tasks[t].pc.Persisting? || tasks[t].pc.InFlight?) ==> slot == Some(t))
  }

  /** A job runs exactly while it holds the slot or its task has not recorded the outcome yet. */
  ghost predicate RunningJobs(slot: Option<Id>, tasks: map<Id, Task>, jobs: map<Id, Job>, phantoms: nat) {
    && (forall k :: k in jobs && jobs[k].status == Running ==>
          slot == Some(k) || (k in tasks && RanNotFinished(tasks[k].pc)))
    && (slot.Some? ==> if slot.value in jobs then jobs[slot.value].status == Running else phantoms > 0)
  }

  ghost predicate Reservation(pending: Option<Id>, owner: Option<Id>, jobs: map<Id, Job>) {
    pending.Some? ==>
      && pending.value in jobs
      && jobs[pending.value].operation == Reboot && !jobs[pending.value].IsInternal()
      && jobs[pending.value].status in {Pending, Rebooting}
      && (forall k :: k in jobs && k != pending.value ==> jobs[k].status != Pending)
      && owner.Some?
  }

  predicate HolderOk(t: Id, task: Task, pending: Option<Id>, owner: Option<Id>, tasks: map<Id, Task>, jobs: map<Id, Job>) {
    HoldsReservation(task.pc) ==>
      && pending == Some(task.pc.r) && owner == Some(t)
      && task.pc.r in jobs
      && jobs[task.pc.r].status == (if BeforeReboot(task.pc) then Pending else Rebooting)
      && (if task.kind == Restart then task.pc.r == t else task.pc.r !in tasks)
  }

  ghost predicate Holders(pending: Option<Id>, owner: Option<Id>, tasks: map<Id, Task>, jobs: map<Id, Job>) {
    forall t :: t in tasks ==> HolderOk(t, tasks[t], pending, owner, tasks, jobs)
  }

  /** The reboot job of a guard that is about to be dropped. */
  function GuardOf(pc: Pc): Option<Id> {
    match pc
    case Completing(guard) => guard
    case DroppingGuard(r) => Some(r)
    case _ => None
  }

  /** Guards that are still to be dropped at the end of a patch task are stale. */
  ghost predicate StaleGuards(used: set<Id>, pending: Option<Id>, tasks: map<Id, Task>) {
    forall t :: t in tasks && GuardOf(tasks[t].pc).Some? ==>
      GuardOf(tasks[t].pc).value in used && pending != GuardOf(tasks[t].pc)
  }

  predicate HeldByInternal(slot: Option<Id>, jobs: map<Id, Job>) {
    slot.Some? && slot.value in jobs && jobs[slot.value].IsInternal()
  }

  /** The self-update barrier. */
  ghost predicate Barrier(selfUpdate: Option<Id>, pending: Option<Id>, slot: Option<Id>, jobs: map<Id, Job>) {
    selfUpdate.Some? ==>
      && (forall k :: k in jobs && jobs[k].IsActiveReal() ==> selfUpdate == Some(k) || pending == Some(k))
      && (slot.Some? && slot != selfUpdate ==> HeldByInternal(slot, jobs))
  }

  ghost predicate Upgrades(selfUpdate: Option<Id>, tasks: map<Id, Task>) {
    && (selfUpdate.Some? ==> selfUpdate.value in tasks && tasks[selfUpdate.value].kind == Upgrade)
    && (forall t :: t in tasks && tasks[t].kind == Upgrade && tasks[t].pc != Done && tasks[t].pc != Dropped ==>
          selfUpdate == Some(t))
  }

  /** What an unacknowledged reservation guarantees while it lasts. */
  ghost predicate Unacked(unacked: bool, blind: bool, sch: SchedState) {
    unacked ==>
      && sch.rebootPending.Some? && sch.selfUpdate.None?
      && (sch.slot.Some? && !blind ==> HeldByInternal(sch.slot, sch.jobs))
  }

  ghost predicate Capacity(sch: SchedState, revived: nat) {
    && sch.maxConcurrent >= 1 && sch.maxQueueDepth >= 1 && sch.generation < GENERATIONS
    && |RunningIds(sch.jobs)| <= sch.maxConcurrent
    && |ActiveRealIds(sch.jobs)| <= sch.maxQueueDepth + revived
  }

  ghost predicate CompletionTimes(revived: nat, jobs: map<Id, Job>) {
    forall k :: k in jobs ==>
      && (jobs[k].status.IsTerminal() ==> jobs[k].completedAt.Some?)
      && (revived == 0 && jobs[k].completedAt.Some? ==> jobs[k].status.IsTerminal())
  }

  ghost predicate Inv(s: Sys) {
    && Ids(s.used, s.sch.jobs, s.tasks)
    && Fits(s.tasks, s.sch.jobs)
    && Kinds(s.tasks)
    && Slots(s.sch.slot, s.sch.generation, s.tasks, s.watch)
    && s.acquired == s.released + (if s.sch.slot.Some? then 1 else 0)
    && RunningJobs(s.sch.slot, s.tasks, s.sch.jobs, s.phantoms)
    && Reservation(s.sch.rebootPending, s.rebootBy, s.sch.jobs)
    && Holders(s.sch.rebootPending, s.rebootBy, s.tasks, s.sch.jobs)
    && StaleGuards(s.used, s.sch.rebootPending, s.tasks)
    && Barrier(s.sch.selfUpdate, s.sch.rebootPending, s.sch.slot, s.sch.jobs)
    && Upgrades(s.sch.selfUpdate, s.tasks)
    && Unacked(s.unacked, s.blind, s.sch)
    && Capacity(s.sch, s.revived)
    && CompletionTimes(s.revived, s.sch.jobs)
  }

  /** After startup every job is finished, filed under its own id, and carries its completion time. */
  lemma BootIsProper(history: seq<Job>, clock: nat -> Time, boot: Option<string>)
    requires HasTimes(history)
    ensures forall k :: k in BootJobs(history, clock, boot) ==>
              var job := BootJobs(history, clock, boot)[k];
              job.id == k && job.status.IsTerminal() && job.completedAt.Some?
  {
    forall k | k in BootJobs(history, clock, boot)
      ensures
        var job := BootJobs(history, clock, boot)[k];
        job.id == k && job.status.IsTerminal() && job.completedAt.Some?
    {
      BootIsTotal(history, clock, boot, k);
    }
  }

  lemma InitInv(launch: Launch)
    requires HasTimes(launch.history)
    ensures Inv(Init(launch))
  {
    BootIsProper(launch.history, launch.clock, launch.boot);
    hide BootJobs;
    var jobs := Init(launch).sch.jobs;
    assert RunningIds(jobs) == {} && ActiveRealIds(jobs) == {};
  }

  // ------------------------------------------------- moves of a single task

  /** A move that fits the job's status and neither takes nor leaves the slot. */
  ghost predicate TameMove(task: Task, pc: Pc) {
    && KindOk(task.kind, pc)
    && (forall st :: StatusOk(task.kind, task.pc, st) ==> StatusOk(task.kind, pc, st))
    && (RanNotFinished(task.pc) ==> RanNotFinished(pc))
    && !pc.Persisting? && !pc.InFlight? && !task.pc.Persisting? && (task.pc.InFlight? ==> pc.Dropped?)
    && (GuardOf(pc).Some? ==> GuardOf(task.pc) == GuardOf(pc))
    && (task.pc == Done ==> pc == Done || pc == Dropped)
    && (task.pc == Dropped ==> pc == Dropped)
  }

  /** A tame move that claims no reservation the task did not have. */
  ghost predicate SmoothMove(task: Task, pc: Pc) {
    && TameMove(task, pc)
    && (HoldsReservation(pc) ==>
          HoldsReservation(task.pc) && pc.r == task.pc.r && BeforeReboot(pc) == BeforeReboot(task.pc))
  }

  lemma MoveKeepsParts(s: Sys, t: Id, pc: Pc)
    requires t in s.tasks && TameMove(s.tasks[t], pc)
    requires Ids(s.used, s.sch.jobs, s.tasks)
    requires Fits(s.tasks, s.sch.jobs) && Kinds(s.tasks) && StaleGuards(s.used, s.sch.rebootPending, s.tasks)
    ensures
      var tasks := Move(s, t, pc).tasks;
      && Ids(s.used, s.sch.jobs, tasks) && Fits(tasks, s.sch.jobs) && Kinds(tasks)
      && StaleGuards(s.used, s.sch.rebootPending, tasks)
  {
  }

  lemma MoveKeepsSlots(s: Sys, t: Id, pc: Pc)
    requires t in s.tasks && TameMove(s.tasks[t], pc)
    requires Slots(s.sch.slot, s.sch.generation, s.tasks, s.watch)
    requires RunningJobs(s.sch.slot, s.tasks, s.sch.jobs, s.phantoms)
    ensures
      var tasks := Move(s, t, pc).tasks;
      && Slots(s.sch.slot, s.sch.generation, tasks, s.watch)
      && RunningJobs(s.sch.slot, tasks, s.sch.jobs, s.phantoms)
  {
  }

  lemma MoveKeepsOwners(s: Sys, t: Id, pc: Pc)
    requires t in s.tasks && SmoothMove(s.tasks[t], pc)
    requires Holders(s.sch.rebootPending, s.rebootBy, s.tasks, s.sch.jobs) && Upgrades(s.sch.selfUpdate, s.tasks)
    ensures
      var tasks := Move(s, t, pc).tasks;
      Holders(s.sch.rebootPending, s.rebootBy, tasks, s.sch.jobs) && Upgrades(s.sch.selfUpdate, tasks)
  {
  }

  lemma MoveKeeps(s: Sys, t: Id, pc: Pc)
    requires Inv(s) && t in s.tasks && SmoothMove(s.tasks[t], pc)
    ensures Inv(Move(s, t, pc))
  {
    MoveKeepsParts(s, t, pc);
    MoveKeepsSlots(s, t, pc);
    MoveKeepsOwners(s, t, pc);
  }

  lemma NotifyKeepsInv(s: Sys, wake: Id)
    requires Inv(s)
    ensures Inv(NotifyOne(s, wake))
  {
    if IsSleeping(s, wake) {
      MoveKeeps(s, wake, Woken);
    }
  }

  lemma PollKeeps(s: Sys, t: Id)
    requires Inv(s) && At(s, t, {Pausing})
    ensures Inv(DoPoll(s, t))
  {
    MoveKeeps(s, t, if s.permit then Rechecking else Sleeping);
  }

  /** A move within a running job's task: only the slot's part of the invariant is concerned. */
  ghost predicate RunningMove(task: Task, pc: Pc) {
    && KindOk(task.kind, pc)
    && (forall st :: StatusOk(task.kind, task.pc, st) ==> StatusOk(task.kind, pc, st))
    && GuardOf(pc).None? && !HoldsReservation(pc) && task.pc != Done && task.pc != Dropped
  }

  lemma RunningMoveKeepsParts(s: Sys, t: Id, pc: Pc)
    requires t in s.tasks && RunningMove(s.tasks[t], pc)
    requires Ids(s.used, s.sch.jobs, s.tasks) && Fits(s.tasks, s.sch.jobs) && Kinds(s.tasks)
    ensures
      var tasks := Move(s, t, pc).tasks;
      Ids(s.used, s.sch.jobs, tasks) && Fits(tasks, s.sch.jobs) && Kinds(tasks)
  {
  }

  lemma RunningMoveKeepsOwners(s: Sys, t: Id, pc: Pc)
    requires t in s.tasks && RunningMove(s.tasks[t], pc)
    requires Holders(s.sch.rebootPending, s.rebootBy, s.tasks, s.sch.jobs)
    requires StaleGuards(s.used, s.sch.rebootPending, s.tasks) && Upgrades(s.sch.selfUpdate, s.tasks)
    ensures
      var tasks := Move(s, t, pc).tasks;
      && Holders(s.sch.rebootPending, s.rebootBy, tasks, s.sch.jobs)
      && StaleGuards(s.used, s.sch.rebootPending, tasks) && Upgrades(s.sch.selfUpdate, tasks)
  {
  }

  lemma SpawnKeepsSlots(s: Sys, t: Id)
    requires t in s.tasks && s.tasks[t].pc.Persisting?
    requires Slots(s.sch.slot, s.sch.generation, s.tasks, s.watch)
    requires RunningJobs(s.sch.slot, s.tasks, s.sch.jobs, s.phantoms)
    ensures
      var s' := DoSpawn(s, t);
      && Slots(s.sch.slot, s.sch.generation, s'.tasks, s'.watch)
      && RunningJobs(s.sch.slot, s'.tasks, s.sch.jobs, s.phantoms)
  {
  }

  lemma SpawnKeeps(s: Sys, t: Id)
    requires Inv(s) && t in s.tasks && s.tasks[t].pc.Persisting?
    ensures Inv(DoSpawn(s, t))
  {
    assert KindOk(s.tasks[t].kind, s.tasks[t].pc);
    hide Ids, Fits, Kinds, Slots, RunningJobs, Holders, StaleGuards, Upgrades;
    SpawnKeepsSlots(s, t);
    RunningMoveKeepsParts(s, t, InFlight(s.tasks[t].pc.generation));
    RunningMoveKeepsOwners(s, t, InFlight(s.tasks[t].pc.generation));
  }

  // ------------------------------------------- recording a task's outcome

  /** The task moves on and its job, if it still exists, becomes `job`. */
  function Settled(s: Sys, t: Id, pc: Pc, job: Job): Sys
    requires t in s.tasks
  {
    Move(s, t, pc).(sch := s.sch.(jobs := if t in s.sch.jobs then s.sch.jobs[t := job] else s.sch.jobs))
  }

  /** The job stops running: it becomes terminal, or waits for the reboot. */
  ghost predicate SettlingMove(s: Sys, t: Id, pc: Pc, job: Job)
    requires t in s.tasks
  {
    var task := s.tasks[t];
    && KindOk(task.kind, pc)
    && !pc.Persisting? && !pc.InFlight? && !task.pc.Persisting? && !task.pc.InFlight? && !task.pc.Dropped?
    && (HoldsReservation(pc) ==>
          HoldsReservation(task.pc) && pc.r == task.pc.r && BeforeReboot(pc) == BeforeReboot(task.pc))
    && (GuardOf(pc).Some? ==> GuardOf(task.pc) == GuardOf(pc))
    && (task.pc == Done ==> pc == Done)
    && (t in s.sch.jobs ==>
          && job.id == t && job.packages == s.sch.jobs[t].packages && job.operation == s.sch.jobs[t].operation
          && StatusOk(task.kind, pc, job.status)
          && !job.status.Pending? && !job.status.Running?
          && (job.status.IsActive() ==> s.sch.jobs[t].status.IsActive() && job.completedAt == s.sch.jobs[t].completedAt)
          && (job.status.IsTerminal() ==> job.completedAt.Some?))
  }

  lemma SettleKeepsFits(s: Sys, t: Id, pc: Pc, job: Job)
    requires t in s.tasks && SettlingMove(s, t, pc, job)
    requires Ids(s.used, s.sch.jobs, s.tasks) && Fits(s.tasks, s.sch.jobs)
    ensures
      var s' := Settled(s, t, pc, job);
      Ids(s.used, s'.sch.jobs, s'.tasks) && Fits(s'.tasks, s'.sch.jobs)
  {
  }

  lemma SettleKeepsParts(s: Sys, t: Id, pc: Pc, job: Job)
    requires t in s.tasks && SettlingMove(s, t, pc, job)
    requires CompletionTimes(s.revived, s.sch.jobs) && Kinds(s.tasks)
    requires StaleGuards(s.used, s.sch.rebootPending, s.tasks)
    ensures
      var s' := Settled(s, t, pc, job);
      && Kinds(s'.tasks) && StaleGuards(s.used, s.sch.rebootPending, s'.tasks)
      && CompletionTimes(s.revived, s'.sch.jobs)
  {
  }

  lemma SettleKeepsSlots(s: Sys, t: Id, pc: Pc, job: Job)
    requires t in s.tasks && SettlingMove(s, t, pc, job)
    requires Slots(s.sch.slot, s.sch.generation, s.tasks, s.watch)
    requires RunningJobs(s.sch.slot, s.tasks, s.sch.jobs, s.phantoms)
    ensures
      var s' := Settled(s, t, pc, job);
      && Slots(s.sch.slot, s.sch.generation, s'.tasks, s.watch)
      && RunningJobs(s.sch.slot, s'.tasks, s'.sch.jobs, s.phantoms)
  {
    assert s.sch.slot != Some(t);
  }

  /** No task's own job other than a reboot request's is the reserved reboot job. */
  lemma OwnJobIsNotTheReboot(s: Sys, t: Id)
    requires Inv(s) && t in s.tasks && s.tasks[t].kind != Restart
    ensures s.sch.rebootPending != Some(t)
  {
  }

  lemma SettleKeepsReservation(s: Sys, t: Id, pc: Pc, job: Job)
    requires t in s.tasks && SettlingMove(s, t, pc, job)
    requires s.sch.rebootPending != Some(t)
    requires Reservation(s.sch.rebootPending, s.rebootBy, s.sch.jobs) && Upgrades(s.sch.selfUpdate, s.tasks)
    ensures
      var s' := Settled(s, t, pc, job);
      Reservation(s.sch.rebootPending, s.rebootBy, s'.sch.jobs) && Upgrades(s.sch.selfUpdate, s'.tasks)
  {
  }

  lemma SettleKeepsHolders(s: Sys, t: Id, pc: Pc, job: Job)
    requires t in s.tasks && SettlingMove(s, t, pc, job)
    requires s.sch.rebootPending != Some(t)
    requires Holders(s.sch.rebootPending, s.rebootBy, s.tasks, s.sch.jobs)
    ensures
      var s' := Settled(s, t, pc, job);
      Holders(s.sch.rebootPending, s.rebootBy, s'.tasks, s'.sch.jobs)
  {
  }

  lemma SettleKeepsCounts(s: Sys, t: Id, pc: Pc, job: Job)
    requires t in s.tasks && SettlingMove(s, t, pc, job)
    requires Barrier(s.sch.selfUpdate, s.sch.rebootPending, s.sch.slot, s.sch.jobs)
    requires Unacked(s.unacked, s.blind, s.sch) && Capacity(s.sch, s.revived)
    ensures
      var s' := Settled(s, t, pc, job);
      && Barrier(s.sch.selfUpdate, s.sch.rebootPending, s.sch.slot, s'.sch.jobs)
      && Unacked(s.unacked, s.blind, s'.sch) && Capacity(s'.sch, s.revived)
  {
    var s' := Settled(s, t, pc, job);
    RunningShrinks(s.sch.jobs, s'.sch.jobs);
    ActiveShrinks(s.sch.jobs, s'.sch.jobs);
  }

  lemma SettleKeeps(s: Sys, t: Id, pc: Pc, job: Job)
    requires Inv(s) && t in s.tasks && s.tasks[t].kind != Restart && SettlingMove(s, t, pc, job)
    ensures Inv(Settled(s, t, pc, job))
  {
    OwnJobIsNotTheReboot(s, t);
    hide Ids, Fits, Kinds, Slots, RunningJobs, Reservation, Holders, StaleGuards, Upgrades, Barrier, Unacked, Capacity,
         CompletionTimes, SettlingMove;
    SettleKeepsFits(s, t, pc, job);
    SettleKeepsParts(s, t, pc, job);
    SettleKeepsSlots(s, t, pc, job);
    SettleKeepsReservation(s, t, pc, job);
    SettleKeepsHolders(s, t, pc, job);
    SettleKeepsCounts(s, t, pc, job);
  }

  // ------------------------------------------------------------ slot traffic

  lemma AcquireKeepsTasks(s: Sys, t: Id)
    requires At(s, t, {Queued, Rechecking}) && TryAcquire(s.sch, t).1.Acquired?
    requires Ids(s.used, s.sch.jobs, s.tasks) && Fits(s.tasks, s.sch.jobs) && Kinds(s.tasks)
    requires Slots(s.sch.slot, s.sch.generation, s.tasks, s.watch)
    requires RunningJobs(s.sch.slot, s.tasks, s.sch.jobs, s.phantoms)
    ensures
      var s' := DoDispatch(s, t);
      && Ids(s'.used, s'.sch.jobs, s'.tasks) && Fits(s'.tasks, s'.sch.jobs) && Kinds(s'.tasks)
      && Slots(s'.sch.slot, s'.sch.generation, s'.tasks, s'.watch)
      && RunningJobs(s'.sch.slot, s'.tasks, s'.sch.jobs, s'.phantoms)
  {
  }

  lemma AcquireKeepsReservation(s: Sys, t: Id)
    requires At(s, t, {Queued, Rechecking}) && TryAcquire(s.sch, t).1.Acquired?
    requires Reservation(s.sch.rebootPending, s.rebootBy, s.sch.jobs)
    requires Holders(s.sch.rebootPending, s.rebootBy, s.tasks, s.sch.jobs)
    requires StaleGuards(s.used, s.sch.rebootPending, s.tasks) && Unacked(s.unacked, s.blind, s.sch)
    ensures
      var s' := DoDispatch(s, t);
      && Reservation(s'.sch.rebootPending, s'.rebootBy, s'.sch.jobs)
      && Holders(s'.sch.rebootPending, s'.rebootBy, s'.tasks, s'.sch.jobs)
      && StaleGuards(s'.used, s'.sch.rebootPending, s'.tasks)
      && Unacked(s'.unacked, s'.blind, s'.sch)
  {
  }

  lemma AcquireKeepsBarrier(s: Sys, t: Id)
    requires At(s, t, {Queued, Rechecking}) && TryAcquire(s.sch, t).1.Acquired?
    requires Barrier(s.sch.selfUpdate, s.sch.rebootPending, s.sch.slot, s.sch.jobs)
    requires Upgrades(s.sch.selfUpdate, s.tasks)
    ensures
      var s' := DoDispatch(s, t);
      && Barrier(s'.sch.selfUpdate, s'.sch.rebootPending, s'.sch.slot, s'.sch.jobs)
      && Upgrades(s'.sch.selfUpdate, s'.tasks)
  {
  }

  lemma AcquireKeepsCounts(s: Sys, t: Id)
    requires t in s.tasks && TryAcquire(s.sch, t).1.Acquired?
    requires Capacity(s.sch, s.revived) && CompletionTimes(s.revived, s.sch.jobs)
    requires t in s.sch.jobs ==> s.sch.jobs[t].status in {Pending, Failed}
    ensures
      var s' := DoDispatch(s, t);
      Capacity(s'.sch, s'.revived) && CompletionTimes(s'.revived, s'.sch.jobs)
  {
    var jobs := DoDispatch(s, t).sch.jobs;
    if t in s.sch.jobs {
      RunningGrowsByOne(s.sch.jobs, jobs, t);
      if s.sch.jobs[t].status == Pending {
        ActiveShrinks(s.sch.jobs, jobs);
      } else {
        ActiveGrowsByOne(s.sch.jobs, jobs, t);
      }
    }
  }

  lemma AcquireKeeps(s: Sys, t: Id)
    requires Inv(s) && At(s, t, {Queued, Rechecking}) && TryAcquire(s.sch, t).1.Acquired?
    ensures Inv(DoDispatch(s, t))
  {
    TaskFacts(s, t);
    AcquireKeepsTasks(s, t);
    AcquireKeepsReservation(s, t);
    AcquireKeepsBarrier(s, t);
    AcquireKeepsCounts(s, t);
    hide Ids, Fits, Kinds, Slots, RunningJobs, Reservation, Holders, StaleGuards, Upgrades, Barrier, Unacked, Capacity,
         CompletionTimes;
  }

  lemma StillWaitingKeeps(s: Sys, t: Id, pc: Pc)
    requires Inv(s) && At(s, t, {Queued, Rechecking}) && (pc == Pausing || pc == Returned(false, false))
    ensures Inv(Move(s, t, pc))
  {
    TaskFacts(s, t);
    hide Inv;
    MoveKeeps(s, t, pc);
  }

  lemma DispatchKeeps(s: Sys, t: Id)
    requires Inv(s) && At(s, t, {Queued, Rechecking})
    ensures Inv(DoDispatch(s, t))
  {
    hide Inv, TryAcquire;
    match TryAcquire(s.sch, t).1
    case Rejected(_) => StillWaitingKeeps(s, t, Returned(false, false));
    case Wait => StillWaitingKeeps(s, t, Pausing);
    case Acquired(_) => AcquireKeeps(s, t);
  }

  /** A live watchdog is the only one, and it owns the slot: its final check never fails. */
  lemma WatchdogOwnsSlot(s: Sys, w: Watchdog)
    requires Inv(s) && w in s.watch
    ensures s.watch == {w} && StillOwns(s.sch, w.job, w.generation)
    ensures w.job in s.tasks && (s.tasks[w.job].pc.InFlight? || s.tasks[w.job].pc.Dropped?)
  {
  }

  /** The watchdog's final section when the caller still waits for the result. */
  function Delivered(s: Sys, t: Id, ok: bool): Sys
    requires t in s.tasks
  {
    Move(s, t, Returned(ok, true)).(sch := s.sch.(slot := None), watch := {}, released := s.released + 1)
  }

  lemma DeliverKeepsSlots(s: Sys, t: Id, ok: bool)
    requires t in s.tasks && s.tasks[t].pc.InFlight? && Fits(s.tasks, s.sch.jobs)
    requires Slots(s.sch.slot, s.sch.generation, s.tasks, s.watch)
    requires RunningJobs(s.sch.slot, s.tasks, s.sch.jobs, s.phantoms)
    ensures
      var s' := Delivered(s, t, ok);
      Slots(None, s.sch.generation, s'.tasks, {}) && RunningJobs(None, s'.tasks, s.sch.jobs, s.phantoms)
  {
  }

  /** The watchdog's final section when the caller is gone. */
  function Discarded(s: Sys, t: Id, ok: bool, now: Time): Sys {
    s.(sch := s.sch.(
         slot := None,
         jobs := if t in s.sch.jobs
                 then s.sch.jobs[t := s.sch.jobs[t].Fail(if ok then CANCELLED_OK else CANCELLED_ERR, now)]
                 else s.sch.jobs),
       watch := {}, released := s.released + 1)
  }

  lemma DiscardKeepsFits(s: Sys, t: Id, ok: bool, now: Time)
    requires At(s, t, {Dropped}) && Ids(s.used, s.sch.jobs, s.tasks) && Fits(s.tasks, s.sch.jobs)
    ensures
      var s' := Discarded(s, t, ok, now);
      Ids(s.used, s'.sch.jobs, s.tasks) && Fits(s.tasks, s'.sch.jobs)
  {
  }

  lemma DiscardKeepsSlots(s: Sys, t: Id, ok: bool, now: Time)
    requires At(s, t, {Dropped}) && s.sch.slot == Some(t) && s.watch != {}
    requires Slots(s.sch.slot, s.sch.generation, s.tasks, s.watch)
    requires RunningJobs(s.sch.slot, s.tasks, s.sch.jobs, s.phantoms)
    ensures
      var s' := Discarded(s, t, ok, now);
      Slots(None, s.sch.generation, s.tasks, {}) && RunningJobs(None, s.tasks, s'.sch.jobs, s.phantoms)
  {
  }

  lemma DiscardKeepsOwners(s: Sys, t: Id, ok: bool, now: Time)
    requires Inv(s) && At(s, t, {Dropped}) && s.sch.slot == Some(t) && s.watch != {}
    ensures
      var s' := Discarded(s, t, ok, now);
      && Reservation(s.sch.rebootPending, s.rebootBy, s'.sch.jobs)
      && Holders(s.sch.rebootPending, s.rebootBy, s.tasks, s'.sch.jobs)
  {
  }

  lemma DiscardKeepsCounts(s: Sys, t: Id, ok: bool, now: Time)
    requires Inv(s) && At(s, t, {Dropped}) && s.sch.slot == Some(t) && s.watch != {}
    ensures
      var s' := Discarded(s, t, ok, now);
      && Barrier(s.sch.selfUpdate, s.sch.rebootPending, None, s'.sch.jobs)
      && Capacity(s'.sch, s.revived) && CompletionTimes(s.revived, s'.sch.jobs)
  {
    RunningShrinks(s.sch.jobs, Discarded(s, t, ok, now).sch.jobs);
    ActiveShrinks(s.sch.jobs, Discarded(s, t, ok, now).sch.jobs);
  }

  /** A free slot satisfies the parts about what else may hold it. */
  lemma DeliverKeepsRest(s: Sys)
    requires Inv(s)
    ensures Barrier(s.sch.selfUpdate, s.sch.rebootPending, None, s.sch.jobs)
    ensures Unacked(s.unacked, s.blind, s.sch.(slot := None))
    ensures Capacity(s.sch.(slot := None), s.revived)
  {
  }

  lemma DeliverKeeps(s: Sys, t: Id, ok: bool)
    requires Inv(s) && t in s.tasks && s.tasks[t].pc.InFlight? && s.sch.slot == Some(t)
    ensures Inv(Delivered(s, t, ok))
  {
    assert KindOk(s.tasks[t].kind, s.tasks[t].pc);
    DeliverKeepsRest(s);
    hide Ids, Fits, Kinds, Slots, RunningJobs, Reservation, Holders, StaleGuards, Upgrades, CompletionTimes, Barrier,
         Unacked, Capacity;
    DeliverKeepsSlots(s, t, ok);
    RunningMoveKeepsParts(s, t, Returned(ok, true));
    RunningMoveKeepsOwners(s, t, Returned(ok, true));
  }

  lemma DiscardKeeps(s: Sys, t: Id, ok: bool, now: Time)
    requires Inv(s) && At(s, t, {Dropped}) && s.sch.slot == Some(t) && s.watch != {}
    ensures Inv(Discarded(s, t, ok, now))
  {
    DiscardKeepsFits(s, t, ok, now);
    DiscardKeepsSlots(s, t, ok, now);
    DiscardKeepsOwners(s, t, ok, now);
    DiscardKeepsCounts(s, t, ok, now);
    hide Ids, Fits, Kinds, Slots, RunningJobs, Reservation, Holders, StaleGuards, Upgrades, CompletionTimes, Capacity;
  }

  /** The watchdog owns the slot, so its final section either delivers or discards. */
  lemma FinalizeEffect(s: Sys, w: Watchdog, now: Time)
    requires w in s.watch && w.result.Some? && s.watch == {w} && StillOwns(s.sch, w.job, w.generation)
    requires w.job in s.tasks && (s.tasks[w.job].pc.InFlight? || s.tasks[w.job].pc.Dropped?)
    requires s.tasks[w.job].pc.Dropped? && w.job in s.sch.jobs ==> s.sch.jobs[w.job].status == Running
    ensures DoFinalize(s, w, now) ==
            if s.tasks[w.job].pc.InFlight? then Delivered(s, w.job, w.result.value)
            else Discarded(s, w.job, w.result.value, now)
  {
    assert s.watch - {w} == {};
  }

  lemma FinalizeKeeps(s: Sys, w: Watchdog, now: Time)
    requires Inv(s) && w in s.watch && w.result.Some?
    ensures Inv(DoFinalize(s, w, now))
  {
    WatchdogOwnsSlot(s, w);
    assert w.job in s.sch.jobs ==> s.sch.jobs[w.job].status == Running;
    hide Inv, DoFinalize, Delivered, Discarded;
    FinalizeEffect(s, w, now);
    if s.tasks[w.job].pc.InFlight? {
      DeliverKeeps(s, w.job, w.result.value);
    } else {
      DiscardKeeps(s, w.job, w.result.value, now);
    }
  }

  /** A closure exit or an elapsed backstop only fills in the watchdog's result. */
  lemma ResultKeeps(s: Sys, w: Watchdog, ok: bool, detached: nat)
    requires Inv(s) && w in s.watch && w.result.None?
    ensures Inv(s.(watch := s.watch - {w} + {w.(result := Some(ok))}, detached := detached))
  {
  }

  // -------------------------------------------------- the reboot reservation

  /** The owner of a reservation moves to `pc` while the reboot job becomes `job`. */
  function RebootMove(s: Sys, t: Id, pc: Pc, r: Id, job: Job): Sys
    requires t in s.tasks
  {
    Move(s, t, pc).(sch := s.sch.(jobs := s.sch.jobs[r := job]))
  }

  /** What the owner of a reservation may rely on. */
  lemma ReservationIsLive(s: Sys, t: Id)
    requires Inv(s) && t in s.tasks && HoldsReservation(s.tasks[t].pc)
    ensures
      var r := s.tasks[t].pc.r;
      && s.sch.rebootPending == Some(r) && s.rebootBy == Some(t) && s.sch.slot != Some(r) && s.sch.slot != Some(t)
      && r in s.sch.jobs
      && s.sch.jobs[r].status == (if BeforeReboot(s.tasks[t].pc) then Pending else Rebooting)
      && (if s.tasks[t].kind == Restart then r == t else r !in s.tasks)
  {
  }

  ghost predicate RebootMoveOk(s: Sys, t: Id, pc: Pc, job: Job) {
    && t in s.tasks && KindOk(s.tasks[t].kind, pc)
    && ((s.tasks[t].pc.Beginning? && pc == Commanding(s.tasks[t].pc.r) && job.status == Rebooting)
        || (s.tasks[t].pc.RollingBack? && job.status == Failed
            && pc == if s.tasks[t].kind == Patch then Completing(Some(s.tasks[t].pc.r)) else Done))
    && var r := s.tasks[t].pc.r;
       && r in s.sch.jobs && r in s.used
       && s.sch.jobs[r].status == (if s.tasks[t].pc.Beginning? then Pending else Rebooting)
       && (if s.tasks[t].kind == Restart then r == t else r !in s.tasks && s.tasks[t].kind == Patch)
       && s.sch.slot != Some(r) && s.sch.slot != Some(t)
       && job.id == r && job.packages == s.sch.jobs[r].packages && job.operation == s.sch.jobs[r].operation
       && (job.completedAt.Some? <==> job.status == Failed || s.sch.jobs[r].completedAt.Some?)
  }

  lemma RebootMoveKeepsFits(s: Sys, t: Id, pc: Pc, job: Job)
    requires RebootMoveOk(s, t, pc, job)
    requires Fits(s.tasks, s.sch.jobs)
    ensures
      var s' := RebootMove(s, t, pc, s.tasks[t].pc.r, job);
      Fits(s'.tasks, s'.sch.jobs)
  {
  }

  lemma RebootMoveKeepsIds(s: Sys, t: Id, pc: Pc, job: Job)
    requires RebootMoveOk(s, t, pc, job)
    requires Ids(s.used, s.sch.jobs, s.tasks) && Kinds(s.tasks)
    ensures
      var s' := RebootMove(s, t, pc, s.tasks[t].pc.r, job);
      Ids(s.used, s'.sch.jobs, s'.tasks) && Kinds(s'.tasks)
  {
  }

  lemma RebootMoveKeepsSlots(s: Sys, t: Id, pc: Pc, job: Job)
    requires RebootMoveOk(s, t, pc, job)
    requires Slots(s.sch.slot, s.sch.generation, s.tasks, s.watch)
    requires RunningJobs(s.sch.slot, s.tasks, s.sch.jobs, s.phantoms) && CompletionTimes(s.revived, s.sch.jobs)
    ensures
      var s' := RebootMove(s, t, pc, s.tasks[t].pc.r, job);
      && Slots(s.sch.slot, s.sch.generation, s'.tasks, s.watch)
      && RunningJobs(s.sch.slot, s'.tasks, s'.sch.jobs, s.phantoms) && CompletionTimes(s.revived, s'.sch.jobs)
  {
  }

  lemma RebootMoveKeepsCounts(s: Sys, t: Id, pc: Pc, job: Job)
    requires RebootMoveOk(s, t, pc, job) && Capacity(s.sch, s.revived)
    ensures Capacity(RebootMove(s, t, pc, s.tasks[t].pc.r, job).sch, s.revived)
  {
    RunningShrinks(s.sch.jobs, s.sch.jobs[s.tasks[t].pc.r := job]);
    ActiveShrinks(s.sch.jobs, s.sch.jobs[s.tasks[t].pc.r := job]);
  }

  lemma BeginKeepsReservation(s: Sys, t: Id, job: Job)
    requires Inv(s) && t in s.tasks && s.tasks[t].pc.Beginning?
    requires RebootMoveOk(s, t, Commanding(s.tasks[t].pc.r), job)
    ensures
      var s' := RebootMove(s, t, Commanding(s.tasks[t].pc.r), s.tasks[t].pc.r, job);
      && Reservation(s.sch.rebootPending, s.rebootBy, s'.sch.jobs)
      && Barrier(s.sch.selfUpdate, s.sch.rebootPending, s.sch.slot, s'.sch.jobs)
      && Unacked(s.unacked, s.blind, s'.sch)
  {
    ReservationIsLive(s, t);
    hide Ids, Fits, Kinds, Slots, Holders, StaleGuards, Upgrades, Capacity, CompletionTimes;
  }

  lemma BeginKeepsHolders(s: Sys, t: Id, job: Job)
    requires Inv(s) && t in s.tasks && s.tasks[t].pc.Beginning?
    requires RebootMoveOk(s, t, Commanding(s.tasks[t].pc.r), job)
    ensures
      var s' := RebootMove(s, t, Commanding(s.tasks[t].pc.r), s.tasks[t].pc.r, job);
      && Holders(s.sch.rebootPending, s.rebootBy, s'.tasks, s'.sch.jobs)
      && StaleGuards(s.used, s.sch.rebootPending, s'.tasks)
      && Upgrades(s.sch.selfUpdate, s'.tasks)
  {
    ReservationIsLive(s, t);
    hide Ids, Fits, Kinds, Slots, RunningJobs, Reservation, Barrier, Unacked, Capacity, CompletionTimes;
  }

  lemma BeginKeeps(s: Sys, t: Id)
    requires Inv(s) && t in s.tasks && s.tasks[t].pc.Beginning?
    ensures Inv(DoBegin(s, t))
    ensures DoBegin(s, t).tasks[t].pc.Commanding?
  {
    ReservationIsLive(s, t);
    var r := s.tasks[t].pc.r;
    var job := s.sch.jobs[r].(status := Rebooting);
    assert DoBegin(s, t) == RebootMove(s, t, Commanding(r), r, job);
    RebootMoveKeepsFits(s, t, Commanding(r), job);
    RebootMoveKeepsIds(s, t, Commanding(r), job);
    RebootMoveKeepsSlots(s, t, Commanding(r), job);
    RebootMoveKeepsCounts(s, t, Commanding(r), job);
    BeginKeepsReservation(s, t, job);
    BeginKeepsHolders(s, t, job);
  }

  lemma RollBackKeepsOwners(s: Sys, t: Id, pc: Pc, job: Job)
    requires Inv(s) && t in s.tasks && s.tasks[t].pc.RollingBack? && RebootMoveOk(s, t, pc, job)
    ensures
      var s' := RebootMove(s, t, pc, s.tasks[t].pc.r, job);
      && Holders(None, None, s'.tasks, s'.sch.jobs)
      && StaleGuards(s.used, None, s'.tasks)
      && Upgrades(s.sch.selfUpdate, s'.tasks)
      && Barrier(s.sch.selfUpdate, None, s.sch.slot, s'.sch.jobs)
  {
    ReservationIsLive(s, t);
  }

  function RollBackPc(s: Sys, t: Id): Pc
    requires t in s.tasks && s.tasks[t].pc.RollingBack?
  {
    if s.tasks[t].kind == Patch then Completing(Some(s.tasks[t].pc.r)) else Done
  }

  /** The owner's rollback ends the reservation and fails its job. */
  lemma RollBackEffect(s: Sys, t: Id, reason: string, now: Time)
    requires t in s.tasks && s.tasks[t].pc.RollingBack?
    requires s.sch.rebootPending == Some(s.tasks[t].pc.r) && s.tasks[t].pc.r in s.sch.jobs
    ensures
      var r := s.tasks[t].pc.r;
      var s1 := RebootMove(s, t, RollBackPc(s, t), r, s.sch.jobs[r].Fail(reason, now));
      DoRollBack(s, t, reason, now) ==
      s1.(sch := s1.sch.(rebootPending := None), rebootBy := None, unacked := false, blind := false)
  {
  }

  lemma RollBackMoveOk(s: Sys, t: Id, reason: string, now: Time)
    requires Inv(s) && t in s.tasks && s.tasks[t].pc.RollingBack?
    ensures s.sch.rebootPending == Some(s.tasks[t].pc.r) && s.tasks[t].pc.r in s.sch.jobs
    ensures RebootMoveOk(s, t, RollBackPc(s, t), s.sch.jobs[s.tasks[t].pc.r].Fail(reason, now))
  {
    ReservationIsLive(s, t);
  }

  lemma RollBackKeeps(s: Sys, t: Id, reason: string, now: Time)
    requires Inv(s) && t in s.tasks && s.tasks[t].pc.RollingBack?
    ensures Inv(DoRollBack(s, t, reason, now))
  {
    hide RebootMoveOk, DoRollBack, Ids, Fits, Kinds, Slots, RunningJobs, Holders, StaleGuards, Upgrades, Barrier,
         Capacity, CompletionTimes;
    RollBackMoveOk(s, t, reason, now);
    RollBackEffect(s, t, reason, now);
    var job := s.sch.jobs[s.tasks[t].pc.r].Fail(reason, now);
    RebootMoveKeepsFits(s, t, RollBackPc(s, t), job);
    RebootMoveKeepsIds(s, t, RollBackPc(s, t), job);
    RebootMoveKeepsSlots(s, t, RollBackPc(s, t), job);
    RebootMoveKeepsCounts(s, t, RollBackPc(s, t), job);
    RollBackKeepsOwners(s, t, RollBackPc(s, t), job);
    CapacityIgnoresReservation(RebootMove(s, t, RollBackPc(s, t), s.tasks[t].pc.r, job).sch, s.revived);
  }

  lemma CapacityIgnoresReservation(sch: SchedState, revived: nat)
    requires Capacity(sch, revived)
    ensures Capacity(sch.(rebootPending := None), revived)
  {
  }

  // -------------------------------------------------------------- the outcome

  lemma TaskFacts(s: Sys, t: Id)
    requires Inv(s) && t in s.tasks
    ensures KindOk(s.tasks[t].kind, s.tasks[t].pc)
    ensures t in s.sch.jobs ==> s.sch.jobs[t].id == t && JobFits(s.tasks[t], s.sch.jobs[t])
    ensures t in s.sch.jobs && s.sch.jobs[t].status == Running && s.revived == 0 ==> s.sch.jobs[t].completedAt.None?
  {
  }

  lemma CompleteKeeps(s: Sys, t: Id, now: Time)
    requires Inv(s) && t in s.tasks && s.tasks[t].pc.Returned? && s.tasks[t].pc.ok && s.tasks[t].kind != Patch
    ensures Inv(Move(s, t, AfterOutcome(s.tasks[t].kind)).(sch := CompleteJob(s.sch, t, now)))
  {
    hide Inv;
    TaskFacts(s, t);
    var pc := AfterOutcome(s.tasks[t].kind);
    var job := if t in s.sch.jobs then s.sch.jobs[t].Complete(now) else NewJob(t, Install, [], now, None);
    SettleKeeps(s, t, pc, job);
    assert Move(s, t, pc).(sch := CompleteJob(s.sch, t, now)) == Settled(s, t, pc, job);
  }

  lemma FailKeeps(s: Sys, t: Id, reason: string, code: string, now: Time)
    requires Inv(s) && t in s.tasks && s.tasks[t].pc.Returned? && !s.tasks[t].pc.ok
    ensures Inv(DoFail(s, t, reason, code, now))
  {
    hide Inv;
    TaskFacts(s, t);
    var pc := AfterOutcome(s.tasks[t].kind);
    var job := if t !in s.sch.jobs then NewJob(t, Install, [], now, None)
               else if s.tasks[t].kind == Refresh then s.sch.jobs[t].Fail(reason, now)
               else s.sch.jobs[t].Fail(reason, now).(errorCode := Some(code));
    SettleKeeps(s, t, pc, job);
    assert DoFail(s, t, reason, code, now) == Settled(s, t, pc, job);
  }

  lemma PatchMarkKeeps(s: Sys, t: Id)
    requires Inv(s) && t in s.tasks && s.tasks[t].pc.Marking?
    ensures Inv(Move(s, t, Beginning(s.tasks[t].pc.r)).(sch := SetJobRebooting(s.sch, t).0))
  {
    hide Inv;
    TaskFacts(s, t);
    var pc := Beginning(s.tasks[t].pc.r);
    var job := if t in s.sch.jobs then s.sch.jobs[t].SetRebooting() else NewJob(t, Install, [], 0, None);
    SettleKeeps(s, t, pc, job);
    assert Move(s, t, pc).(sch := SetJobRebooting(s.sch, t).0) == Settled(s, t, pc, job);
  }

  lemma PatchCompleteKeeps(s: Sys, t: Id, now: Time)
    requires Inv(s) && t in s.tasks && s.tasks[t].pc.Completing?
    ensures Inv(DoPatchComplete(s, t, now))
  {
    hide Inv;
    TaskFacts(s, t);
    var guard := s.tasks[t].pc.guard;
    var pc := if guard.Some? then DroppingGuard(guard.value) else Done;
    var job := if t in s.sch.jobs then s.sch.jobs[t].Complete(now) else NewJob(t, Install, [], now, None);
    SettleKeeps(s, t, pc, job);
    assert DoPatchComplete(s, t, now) == Settled(s, t, pc, job);
  }

  /** The guard a patch task drops at its end is always stale: dropping it changes nothing else. */
  lemma DroppedGuardIsStale(s: Sys, t: Id, now: Time)
    requires Inv(s) && t in s.tasks && s.tasks[t].pc.DroppingGuard?
    ensures RolledBack(s, s.tasks[t].pc.r, GUARD_DROPPED, now) == s
  {
    assert GuardOf(s.tasks[t].pc).Some?;
  }

  // ------------------------------------------------------ removal of a record

  function Removed(s: Sys, id: Id): Sys {
    s.(sch := s.sch.(jobs := s.sch.jobs - {id}))
  }

  lemma RemoveKeeps(s: Sys, id: Id)
    requires Inv(s) && s.sch.slot != Some(id) && s.sch.rebootPending != Some(id)
    ensures Inv(Removed(s, id))
  {
    var jobs := s.sch.jobs - {id};
    RunningShrinks(s.sch.jobs, jobs);
    ActiveShrinks(s.sch.jobs, jobs);
  }

  lemma DeleteKeeps(s: Sys, id: Id)
    requires Inv(s)
    ensures Inv(s.(sch := DeleteJob(s.sch, id).0))
  {
    if DeleteJob(s.sch, id).1 {
      RemoveKeeps(s, id);
    }
  }

  lemma EndUpgradeKeepsOwners(s: Sys, t: Id)
    requires t in s.tasks && s.tasks[t].kind == Upgrade && s.sch.selfUpdate == Some(t)
    requires !HoldsReservation(s.tasks[t].pc)
    requires Upgrades(s.sch.selfUpdate, s.tasks)
    requires Holders(s.sch.rebootPending, s.rebootBy, s.tasks, s.sch.jobs)
    ensures Upgrades(None, Move(s, t, Done).tasks)
    ensures Holders(s.sch.rebootPending, s.rebootBy, Move(s, t, Done).tasks, s.sch.jobs)
  {
  }

  lemma UpgradeOwnsSelfUpdate(s: Sys, t: Id)
    requires Inv(s) && (At(s, t, {Releasing}) || At(s, t, {Guarded}))
    ensures s.sch.selfUpdate == Some(t) && s.tasks[t].kind == Upgrade
    ensures s.sch.slot != Some(t) && s.sch.rebootPending != Some(t)
  {
  }

  /** Ending the self-update's ownership together with its task. */
  lemma EndUpgradeKeeps(s: Sys, t: Id)
    requires Inv(s) && (At(s, t, {Releasing}) || (At(s, t, {Guarded}) && t !in s.sch.jobs))
    ensures Inv(Move(s, t, Done).(sch := s.sch.(selfUpdate := None)))
  {
    UpgradeOwnsSelfUpdate(s, t);
    EndUpgradeKeepsOwners(s, t);
    EndUpgradeKeepsTasks(s, t);
    EndUpgradeKeepsSlots(s, t);
  }

  lemma EndUpgradeKeepsTasks(s: Sys, t: Id)
    requires At(s, t, {Releasing}) || (At(s, t, {Guarded}) && t !in s.sch.jobs)
    requires Ids(s.used, s.sch.jobs, s.tasks) && Fits(s.tasks, s.sch.jobs) && Kinds(s.tasks)
    requires StaleGuards(s.used, s.sch.rebootPending, s.tasks)
    ensures
      var tasks := Move(s, t, Done).tasks;
      && Ids(s.used, s.sch.jobs, tasks) && Fits(tasks, s.sch.jobs) && Kinds(tasks)
      && StaleGuards(s.used, s.sch.rebootPending, tasks)
  {
  }

  lemma EndUpgradeKeepsSlots(s: Sys, t: Id)
    requires (At(s, t, {Releasing}) || At(s, t, {Guarded})) && s.sch.slot != Some(t)
    requires Slots(s.sch.slot, s.sch.generation, s.tasks, s.watch)
    requires RunningJobs(s.sch.slot, s.tasks, s.sch.jobs, s.phantoms)
    ensures
      var tasks := Move(s, t, Done).tasks;
      && Slots(s.sch.slot, s.sch.generation, tasks, s.watch)
      && RunningJobs(s.sch.slot, tasks, s.sch.jobs, s.phantoms)
  {
  }

  lemma ReleaseKeeps(s: Sys, t: Id)
    requires Inv(s) && At(s, t, {Releasing})
    ensures Inv(Move(s, t, Done).(sch := ReleaseSelfUpdate(s.sch, t).0))
  {
    hide Inv;
    UpgradeOwnsSelfUpdate(s, t);
    EndUpgradeKeeps(s, t);
  }

  lemma DropUpdateGuardKeeps(s: Sys, t: Id)
    requires Inv(s) && At(s, t, {Guarded})
    ensures Inv(Move(s, t, Done).(sch := DropSelfUpdateGuard(s.sch, t)))
  {
    hide Inv;
    UpgradeOwnsSelfUpdate(s, t);
    RemoveKeeps(s, t);
    EndUpgradeKeeps(Removed(s, t), t);
  }

  // --------------------------------------------------------- one-line moves

  lemma SimpleMoveKeeps(s: Sys, t: Id, pc: Pc)
    requires Inv(s) && t in s.tasks
    requires (s.tasks[t].pc == Woken && pc == Rechecking)
             || (s.tasks[t].pc == Guarded && pc == Queued)
             || (s.tasks[t].pc == Deleting && pc == Done)
             || (s.tasks[t].pc.DroppingGuard? && pc == Done)
             || (s.tasks[t].pc.Reserved? && pc == Beginning(s.tasks[t].pc.r))
             || (s.tasks[t].pc.Commanding? && pc in {AwaitingReboot(s.tasks[t].pc.r), RollingBack(s.tasks[t].pc.r)})
             || (s.tasks[t].pc.Returned? && s.tasks[t].pc.ok && s.tasks[t].kind == Patch
                 && pc in {Reserving, Completing(None)})
             || (Droppable(s.tasks[t].pc) && pc == Dropped)
    ensures Inv(Move(s, t, pc))
  {
    hide Inv;
    TaskFacts(s, t);
    MoveKeeps(s, t, pc);
  }

  lemma FreezeKeeps(s: Sys)
    requires Inv(s)
    ensures Inv(s.(sch := FreezeAdmission(s.sch)))
  {
  }

  lemma DetachedExitKeeps(s: Sys)
    requires Inv(s) && s.detached > 0
    ensures Inv(s.(detached := s.detached - 1))
  {
  }

  // --------------------------------------------------------------- admission

  /** A new job together with the task that owns it. */
  function Joined(s: Sys, job: Job, kind: Kind, pc: Pc): Sys {
    Start(s.(sch := s.sch.(jobs := s.sch.jobs[job.id := job])), job.id, kind, pc)
  }

  ghost predicate NewJobOk(s: Sys, job: Job) {
    job.id !in s.used && job.status == Pending && job.completedAt.None?
  }

  lemma JoinKeepsTasks(s: Sys, job: Job, kind: Kind, pc: Pc)
    requires Inv(s) && NewJobOk(s, job) && JobFits(Task(kind, pc), job) && KindOk(kind, pc)
    requires pc == Queued || pc == Guarded
    ensures
      var s' := Joined(s, job, kind, pc);
      && Ids(s'.used, s'.sch.jobs, s'.tasks) && Fits(s'.tasks, s'.sch.jobs) && Kinds(s'.tasks)
      && Slots(s.sch.slot, s.sch.generation, s'.tasks, s.watch)
      && CompletionTimes(s.revived, s'.sch.jobs)
  {
  }

  lemma JoinKeepsOwners(s: Sys, job: Job, kind: Kind, pc: Pc)
    requires Inv(s) && NewJobOk(s, job) && s.sch.rebootPending.None?
    requires pc == Queued || pc == Guarded
    ensures
      var s' := Joined(s, job, kind, pc);
      && RunningJobs(s.sch.slot, s'.tasks, s'.sch.jobs, s.phantoms)
      && Holders(None, s.rebootBy, s'.tasks, s'.sch.jobs)
      && StaleGuards(s'.used, None, s'.tasks)
  {
  }

  lemma NewJobKeepsCounts(s: Sys, job: Job)
    requires Capacity(s.sch, s.revived) && NewJobOk(s, job) && |ActiveRealIds(s.sch.jobs)| < s.sch.maxQueueDepth
    ensures Capacity(s.sch.(jobs := s.sch.jobs[job.id := job]), s.revived)
  {
    RunningShrinks(s.sch.jobs, s.sch.jobs[job.id := job]);
    ActiveGrowsByOne(s.sch.jobs, s.sch.jobs[job.id := job], job.id);
  }

  lemma AdmittedJobFits(id: Id, kind: Kind, packages: seq<string>, now: Time, boot: Option<string>)
    requires ProperRequest(kind, packages)
    ensures KindOk(kind, Queued) && JobFits(Task(kind, Queued), NewJob(id, OperationOf(kind), packages, now, boot))
  {
    if kind == Refresh {
      RefreshJobsAreInternal();
    } else {
      ValidNamesAreNotInternal(packages);
    }
  }

  lemma JoinKeeps(s: Sys, job: Job, kind: Kind, pc: Pc)
    requires Inv(s) && NewJobOk(s, job) && JobFits(Task(kind, pc), job) && KindOk(kind, pc) && pc == Queued
    requires kind != Upgrade && s.sch.rebootPending.None? && s.sch.selfUpdate.None?
    requires |ActiveRealIds(s.sch.jobs)| < s.sch.maxQueueDepth
    ensures Inv(Joined(s, job, kind, pc))
  {
    JoinKeepsTasks(s, job, kind, pc);
    JoinKeepsOwners(s, job, kind, pc);
    NewJobKeepsCounts(s, job);
    hide Ids, Fits, Kinds, Slots, RunningJobs, Holders, StaleGuards, Capacity, CompletionTimes;
  }

  lemma AdmitKeeps(s: Sys, id: Id, kind: Kind, packages: seq<string>, now: Time, boot: Option<string>)
    requires Inv(s) && id !in s.used && ProperRequest(kind, packages)
    ensures Inv(DoAdmit(s, id, kind, packages, now, boot))
  {
    hide Inv, HasSentinel, AllValid;
    if AdmitJob(s.sch, id, OperationOf(kind), packages, now, boot).1.Ok? {
      AdmittedJobFits(id, kind, packages, now, boot);
      JoinKeeps(s, NewJob(id, OperationOf(kind), packages, now, boot), kind, Queued);
    }
  }

  lemma NoActiveJobs(jobs: map<Id, Job>)
    requires |ActiveRealIds(jobs)| == 0
    ensures forall k :: k in jobs ==> !jobs[k].IsActiveReal()
  {
    assert forall k :: k in jobs ==> k !in ActiveRealIds(jobs);
  }

  lemma ReserveUpdateKeeps(s: Sys, id: Id, now: Time, boot: Option<string>)
    requires Inv(s) && id !in s.used
    ensures Inv(DoReserveUpdate(s, id, now, boot))
  {
    if TryReserveSelfUpdate(s.sch, id, [SELF_PACKAGE_NAME], now, boot).1.Ok? {
      var job := NewJob(id, SelfUpdate, [SELF_PACKAGE_NAME], now, boot);
      SelfUpdateIsNotInternal();
      JoinKeepsTasks(s, job, Upgrade, Guarded);
      JoinKeepsOwners(s, job, Upgrade, Guarded);
      NewJobKeepsCounts(s, job);
      NoActiveJobs(s.sch.jobs);
    }
  }

  /** A job nobody executes: rollback jobs are admitted without a task. */
  lemma LooseJobKeeps(s: Sys, job: Job)
    requires Inv(s) && NewJobOk(s, job) && s.sch.rebootPending.None? && s.sch.selfUpdate.None?
    requires |ActiveRealIds(s.sch.jobs)| < s.sch.maxQueueDepth
    ensures Inv(s.(sch := s.sch.(jobs := s.sch.jobs[job.id := job]), used := s.used + {job.id}))
  {
    NewJobKeepsCounts(s, job);
  }

  /** An admitted rollback adds one exclusive job, linked to the original. */
  lemma AdmitRollbackEffect(s: Sys, original: Id, id: Id, now: Time, boot: Option<string>)
    requires CreateRollbackJob(s.sch, original, id, now, boot).1.Ok?
    requires CreateRollbackJob(s.sch, original, id, now, boot).1.value.Some?
    ensures original in s.sch.jobs && s.sch.rebootPending.None? && s.sch.selfUpdate.None?
    ensures |ActiveRealIds(s.sch.jobs)| < s.sch.maxQueueDepth
    ensures
      var job := NewJob(id, Rollback, s.sch.jobs[original].packages, now, boot)
                 .(exclusive := true, rollbackOf := Some(original));
      DoAdmitRollback(s, original, id, now, boot)
      == s.(sch := s.sch.(jobs := s.sch.jobs[id := job]), used := s.used + {id})
  {
    var plain := NewJob(id, Rollback, s.sch.jobs[original].packages, now, boot);
    var job := plain.(exclusive := true, rollbackOf := Some(original));
    assert s.sch.jobs[id := plain][id := job] == s.sch.jobs[id := job];
  }

  lemma AdmitRollbackKeeps(s: Sys, original: Id, id: Id, now: Time, boot: Option<string>)
    requires Inv(s) && id !in s.used
    ensures Inv(DoAdmitRollback(s, original, id, now, boot))
  {
    var r := CreateRollbackJob(s.sch, original, id, now, boot).1;
    hide Inv, CreateRollbackJob;
    if r.Ok? && r.value.Some? {
      AdmitRollbackEffect(s, original, id, now, boot);
      LooseJobKeeps(s, NewJob(id, Rollback, s.sch.jobs[original].packages, now, boot)
                       .(exclusive := true, rollbackOf := Some(original)));
    }
  }

  // ------------------------------------------------------ reserving a reboot

  function ReservedJobs(s: Sys, id: Id, now: Time, boot: Option<string>): map<Id, Job> {
    FailPending(s.sch.jobs[id := NewJob(id, Reboot, [], now, boot)], id, now)
  }

  lemma ReserveKeepsTasks(s: Sys, id: Id, now: Time, boot: Option<string>)
    requires id !in s.used && s.sch.rebootPending.None?
    requires Ids(s.used, s.sch.jobs, s.tasks) && Fits(s.tasks, s.sch.jobs) && Kinds(s.tasks)
    requires Holders(s.sch.rebootPending, s.rebootBy, s.tasks, s.sch.jobs) && CompletionTimes(s.revived, s.sch.jobs)
    ensures
      var jobs := ReservedJobs(s, id, now, boot);
      && Ids(s.used + {id}, jobs, s.tasks) && Fits(s.tasks, jobs)
      && CompletionTimes(s.revived, jobs)
  {
  }

  lemma ReserveKeepsReservation(s: Sys, id: Id, now: Time, boot: Option<string>)
    requires id !in s.used && Ids(s.used, s.sch.jobs, s.tasks)
    requires RunningJobs(s.sch.slot, s.tasks, s.sch.jobs, s.phantoms)
    requires s.sch.slot.Some? ==> s.sch.slot.value in s.tasks
    ensures
      var jobs := ReservedJobs(s, id, now, boot);
      RunningJobs(s.sch.slot, s.tasks, jobs, s.phantoms) && Reservation(Some(id), Some(id), jobs)
  {
  }

  lemma ReserveKeepsBarrier(s: Sys, id: Id, now: Time, boot: Option<string>)
    requires id !in s.used && Ids(s.used, s.sch.jobs, s.tasks) && s.sch.rebootPending.None?
    requires Barrier(s.sch.selfUpdate, None, s.sch.slot, s.sch.jobs)
    ensures Barrier(s.sch.selfUpdate, Some(id), s.sch.slot, ReservedJobs(s, id, now, boot))
  {
  }

  lemma ReserveKeepsRunning(s: Sys, id: Id, now: Time, boot: Option<string>)
    requires Inv(s) && id !in s.used && s.sch.rebootPending.None?
    ensures
      var jobs := ReservedJobs(s, id, now, boot);
      && RunningJobs(s.sch.slot, s.tasks, jobs, s.phantoms)
      && Reservation(Some(id), Some(id), jobs)
      && Barrier(s.sch.selfUpdate, Some(id), s.sch.slot, jobs)
  {
    assert s.sch.slot.Some? ==> s.sch.slot.value in s.tasks;
    hide Ids, RunningJobs, Reservation, Barrier, ReservedJobs;
    ReserveKeepsReservation(s, id, now, boot);
    ReserveKeepsBarrier(s, id, now, boot);
  }

  lemma ReserveKeepsCounts(s: Sys, id: Id, now: Time, boot: Option<string>)
    requires Capacity(s.sch, s.revived) && id !in s.sch.jobs && |ActiveRealIds(s.sch.jobs)| < s.sch.maxQueueDepth
    ensures Capacity(s.sch.(jobs := ReservedJobs(s, id, now, boot)), s.revived)
  {
    RunningShrinks(s.sch.jobs, ReservedJobs(s, id, now, boot));
    ActiveGrowsByOne(s.sch.jobs, ReservedJobs(s, id, now, boot), id);
  }

  /** Without force and acknowledgement a reservation finds no self-update and no real mutation. */
  lemma RefusalProtects(s: Sys, id: Id, force: bool, ack: bool, now: Time, boot: Option<string>)
    requires Inv(s) && id !in s.used && RebootRefusal(s.sch, force, ack).None? && !(force && ack)
    ensures s.sch.selfUpdate.None?
    ensures s.sch.slot.Some? && !HolderIsMissing(s.sch) ==>
              HeldByInternal(s.sch.slot, ReservedJobs(s, id, now, boot))
  {
    if !force && s.sch.slot.Some? && s.sch.slot.value in s.sch.jobs {
      assert s.sch.slot.value !in ActiveRealIds(s.sch.jobs);
    }
  }

  lemma NoHolders(s: Sys, t: Id)
    requires Inv(s) && s.sch.rebootPending.None? && t in s.tasks
    ensures !HoldsReservation(s.tasks[t].pc)
  {
  }

  /** Only the reserving task holds the new reservation. */
  lemma SoleHolder(s: Sys, t: Id, id: Id, task: Task, now: Time, boot: Option<string>)
    requires Inv(s) && id !in s.used && s.sch.rebootPending.None?
    requires (task == Task(Restart, Reserved(id)) && t == id) || (task == Task(Patch, Marking(id)) && t in s.tasks)
    ensures Holders(Some(id), Some(t), s.tasks[t := task], ReservedJobs(s, id, now, boot))
  {
    forall u | u in s.tasks && u != t
      ensures !HoldsReservation(s.tasks[u].pc)
    {
      NoHolders(s, u);
    }
  }

  lemma ReserveKeepsScheduler(s: Sys, t: Id, id: Id, force: bool, ack: bool, now: Time, boot: Option<string>)
    requires Inv(s) && id !in s.used && RebootRefusal(s.sch, force, ack).None?
    ensures
      var sch := ReserveReboot(s.sch, id, force, ack, now, boot).0;
      && Reservation(Some(id), Some(t), sch.jobs)
      && Barrier(sch.selfUpdate, Some(id), sch.slot, sch.jobs)
      && Unacked(!(force && ack), HolderIsMissing(s.sch), sch)
      && Capacity(sch, s.revived) && CompletionTimes(s.revived, sch.jobs)
      && RunningJobs(sch.slot, s.tasks, sch.jobs, s.phantoms)
      && Ids(s.used + {id}, sch.jobs, s.tasks) && Fits(s.tasks, sch.jobs)
  {
    ReserveKeepsTasks(s, id, now, boot);
    ReserveKeepsRunning(s, id, now, boot);
    ReserveKeepsCounts(s, id, now, boot);
    if !(force && ack) {
      RefusalProtects(s, id, force, ack, now, boot);
    }
  }

  /** A reboot request's task joins the others. */
  lemma RestartJoins(s: Sys, id: Id, jobs: map<Id, Job>)
    requires id !in s.used && Ids(s.used, s.sch.jobs, s.tasks) && s.sch.rebootPending.None?
    requires id in jobs && JobFits(Task(Restart, Reserved(id)), jobs[id])
    requires Ids(s.used + {id}, jobs, s.tasks) && Fits(s.tasks, jobs) && Kinds(s.tasks)
    requires Slots(s.sch.slot, s.sch.generation, s.tasks, s.watch) && RunningJobs(s.sch.slot, s.tasks, jobs, s.phantoms)
    requires StaleGuards(s.used, None, s.tasks) && Upgrades(s.sch.selfUpdate, s.tasks)
    ensures
      var tasks := s.tasks[id := Task(Restart, Reserved(id))];
      && Ids(s.used + {id}, jobs, tasks) && Fits(tasks, jobs) && Kinds(tasks)
      && Slots(s.sch.slot, s.sch.generation, tasks, s.watch)
      && RunningJobs(s.sch.slot, tasks, jobs, s.phantoms)
      && StaleGuards(s.used + {id}, Some(id), tasks) && Upgrades(s.sch.selfUpdate, tasks)
  {
  }

  lemma RequestRebootKeepsTasks(s: Sys, id: Id, now: Time, boot: Option<string>)
    requires Inv(s) && id !in s.used && s.sch.rebootPending.None?
    ensures
      var tasks := s.tasks[id := Task(Restart, Reserved(id))];
      var jobs := ReservedJobs(s, id, now, boot);
      && Ids(s.used + {id}, jobs, tasks) && Fits(tasks, jobs) && Kinds(tasks)
      && Slots(s.sch.slot, s.sch.generation, tasks, s.watch)
      && RunningJobs(s.sch.slot, tasks, jobs, s.phantoms)
      && StaleGuards(s.used + {id}, Some(id), tasks) && Upgrades(s.sch.selfUpdate, tasks)
  {
    ReserveKeepsTasks(s, id, now, boot);
    ReserveKeepsRunning(s, id, now, boot);
    var jobs := ReservedJobs(s, id, now, boot);
    assert JobFits(Task(Restart, Reserved(id)), jobs[id]);
    hide Ids, Fits, Kinds, Slots, RunningJobs, StaleGuards, Upgrades, ReservedJobs, JobFits;
    RestartJoins(s, id, jobs);
  }

  lemma RequestRebootKeeps(s: Sys, id: Id, force: bool, ack: bool, now: Time, boot: Option<string>)
    requires Inv(s) && id !in s.used
    ensures Inv(DoRequestReboot(s, id, force, ack, now, boot))
  {
    if RebootRefusal(s.sch, force, ack).None? {
      ReserveKeepsScheduler(s, id, id, force, ack, now, boot);
      RequestRebootKeepsTasks(s, id, now, boot);
      SoleHolder(s, id, id, Task(Restart, Reserved(id)), now, boot);
    }
  }

  lemma UpgradesIgnore(s: Sys, t: Id, pc: Pc)
    requires t in s.tasks && s.tasks[t].kind != Upgrade && Upgrades(s.sch.selfUpdate, s.tasks)
    ensures Upgrades(s.sch.selfUpdate, Move(s, t, pc).tasks)
  {
  }

  lemma PatchReserveKeepsTasks(s: Sys, t: Id, id: Id, now: Time, boot: Option<string>)
    requires Inv(s) && id !in s.used && s.sch.rebootPending.None? && At(s, t, {Reserving})
    ensures
      var tasks := Move(s, t, Marking(id)).tasks;
      var jobs := ReservedJobs(s, id, now, boot);
      && Ids(s.used + {id}, jobs, tasks) && Fits(tasks, jobs) && Kinds(tasks)
      && Slots(s.sch.slot, s.sch.generation, tasks, s.watch)
      && RunningJobs(s.sch.slot, tasks, jobs, s.phantoms)
      && StaleGuards(s.used + {id}, Some(id), tasks) && Upgrades(s.sch.selfUpdate, tasks)
  {
    ReserveKeepsTasks(s, id, now, boot);
    ReserveKeepsRunning(s, id, now, boot);
    var s1 := s.(sch := s.sch.(rebootPending := Some(id), jobs := ReservedJobs(s, id, now, boot)), used := s.used + {id});
    assert StaleGuards(s1.used, Some(id), s.tasks);
    UpgradesIgnore(s, t, Marking(id));
    hide Ids, Fits, Kinds, Slots, RunningJobs, StaleGuards, Upgrades, ReservedJobs;
    MoveKeepsParts(s1, t, Marking(id));
    MoveKeepsSlots(s1, t, Marking(id));
  }

  lemma PatchReserveKeeps(s: Sys, t: Id, id: Id, now: Time, boot: Option<string>)
    requires Inv(s) && id !in s.used && At(s, t, {Reserving})
    ensures Inv(DoPatchReserve(s, t, id, now, boot))
  {
    if RebootRefusal(s.sch, true, false).None? {
      ReserveKeepsScheduler(s, t, id, true, false, now, boot);
      PatchReserveKeepsTasks(s, t, id, now, boot);
      SoleHolder(s, t, id, Task(Patch, Marking(id)), now, boot);
    } else {
      MoveKeeps(s, t, Completing(None));
    }
  }

  // ------------------------------------------------------------- every step

  lemma DispatchActionsKeep(s: Sys, a: Action)
    requires Inv(s) && Enabled(s, a) && a.IsDispatch()
    ensures Inv(Core(s, a))
  {
    hide Inv;
    match a
    case Dispatch(t) => DispatchKeeps(s, t);
    case Poll(t) => PollKeeps(s, t);
    case Resume(t) => SimpleMoveKeeps(s, t, Rechecking);
    case Spawn(t) => SpawnKeeps(s, t);
    case ClosureExit(w, ok) => ResultKeeps(s, w, ok, s.detached);
    case Backstop(w) => ResultKeeps(s, w, false, s.detached + 1);
    case WatchdogFinalize(w, now) => FinalizeKeeps(s, w, now);
    case Cancel(t) => SimpleMoveKeeps(s, t, Dropped);
    case DetachedExit => DetachedExitKeeps(s);
  }

  lemma RequestActionsKeep(s: Sys, a: Action)
    requires Inv(s) && Enabled(s, a) && a.IsRequest()
    ensures Inv(Core(s, a))
  {
    hide Inv;
    match a
    case Admit(id, kind, packages, now, boot) => AdmitKeeps(s, id, kind, packages, now, boot);
    case AdmitRollback(original, id, now, boot) => AdmitRollbackKeeps(s, original, id, now, boot);
    case ReserveUpdate(id, now, boot) => ReserveUpdateKeeps(s, id, now, boot);
    case CommitUpdate(t) => SimpleMoveKeeps(s, t, Queued);
    case DropUpdateGuard(t) => DropUpdateGuardKeeps(s, t);
    case RequestReboot(id, force, ack, now, boot) => RequestRebootKeeps(s, id, force, ack, now, boot);
    case CommitReboot(t) => SimpleMoveKeeps(s, t, Beginning(s.tasks[t].pc.r));
    case UserDelete(id) => DeleteKeeps(s, id);
    case Freeze => FreezeKeeps(s);
  }

  lemma OutcomeActionsKeep(s: Sys, a: Action)
    requires Inv(s) && Enabled(s, a) && a.IsOutcome()
    ensures Inv(Core(s, a))
  {
    hide Inv;
    match a
    case Complete(t, now) => CompleteKeeps(s, t, now);
    case Fail(t, reason, code, now) => FailKeeps(s, t, reason, code, now);
    case DeleteTracking(t) => DeleteKeeps(s, t); SimpleMoveKeeps(s.(sch := DeleteJob(s.sch, t).0), t, Done);
    case Release(t) => ReleaseKeeps(s, t);
    case PatchDecide(t, reboot) => SimpleMoveKeeps(s, t, if reboot then Reserving else Completing(None));
    case PatchReserve(t, id, now, boot) => PatchReserveKeeps(s, t, id, now, boot);
    case PatchMark(t) => PatchMarkKeeps(s, t);
    case Begin(t) => BeginKeeps(s, t);
    case Command(t, ok) =>
      SimpleMoveKeeps(s, t, if ok then AwaitingReboot(s.tasks[t].pc.r) else RollingBack(s.tasks[t].pc.r));
    case RollBack(t, reason, now) => RollBackKeeps(s, t, reason, now);
    case PatchComplete(t, now) => PatchCompleteKeeps(s, t, now);
    case DropRebootGuard(t, now) => DroppedGuardIsStale(s, t, now); SimpleMoveKeeps(s, t, Done);
  }

  lemma CoreKeeps(s: Sys, a: Action)
    requires Inv(s) && Enabled(s, a)
    ensures Inv(Core(s, a))
  {
    hide Inv;
    if a.IsDispatch() {
      DispatchActionsKeep(s, a);
    } else if a.IsRequest() {
      RequestActionsKeep(s, a);
    } else {
      OutcomeActionsKeep(s, a);
    }
  }

  lemma StepKeeps(s: Sys, step: Step)
    requires Inv(s) && Permissible(s, step)
    ensures Inv(Apply(s, step))
  {
    hide Inv;
    CoreKeeps(s, step.action);
    NotifyKeepsInv(Core(s, step.action), step.wake);
  }

  /** Every state of every run satisfies the invariant. */
  lemma {:induction false} RunKeeps(states: seq<Sys>, steps: seq<Step>, i: nat)
    requires IsRun(states, steps) && i < |states|
    ensures Inv(states[i])
    decreases i
  {
    hide IsRun, Inv, Init, Apply, Permissible;
    var launch := RunStart(states, steps);
    if i == 0 {
      InitInv(launch);
    } else {
      RunStep(states, steps, i - 1);
      RunKeeps(states, steps, i - 1);
      StepKeeps(states[i - 1], steps[i - 1]);
    }
  }
}
