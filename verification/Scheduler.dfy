/**
 * The scheduler object (`src/jobs/scheduler.rs`): the fields of
 * `SchedulerState`, updated in place, one method per locked section.  Each
 * method is proved against the function of the same name in
 * SchedulerState.dfy.
 */
module SchedulerObject {
  import opened Wrappers
  import opened Jobs
  import opened SchedulerState

  class Scheduler {
    var admission: AdmissionMode
    var jobs: map<Id, Job>
    var activeMutation: Option<Id>
    var mutationGeneration: nat
    var selfUpdate: Option<Id>
    var rebootPending: Option<Id>
    const maxConcurrent: nat
    const maxQueueDepth: nat

    ghost function State(): SchedState
      reads this
    {
      SchedState(admission, jobs, activeMutation, mutationGeneration,
                 selfUpdate, rebootPending, maxConcurrent, maxQueueDepth)
    }

    ghost predicate Valid()
      reads this
    {
      && maxConcurrent >= 1 && maxQueueDepth >= 1
      && mutationGeneration < GENERATIONS
    }

    constructor (concurrent: nat, depth: nat)
      ensures Valid() && State() == NewScheduler(concurrent, depth)
    {
      admission, jobs, activeMutation, mutationGeneration := Open, map[], None, 0;
      selfUpdate, rebootPending := None, None;
      maxConcurrent := if concurrent == 0 then 1 else concurrent;
      maxQueueDepth := if depth == 0 then 1 else depth;
    }

    method CountActiveReal() returns (n: nat)
      ensures n == |ActiveRealIds(jobs)|
    {
      var rest, seen := jobs.Keys, {};
      n := 0;
      ghost var counted: set<Id> := {};
      while rest != {}
        invariant seen !! rest && seen + rest == jobs.Keys
        invariant counted == (set k | k in seen && jobs[k].IsActiveReal()) && n == |counted|
        decreases rest
      {
        var k :| k in rest;
        rest, seen := rest - {k}, seen + {k};
        if jobs[k].IsActiveReal() {
          counted := counted + {k};
          n := n + 1;
        }
      }
      assert counted == ActiveRealIds(jobs);
    }

    method CountRunning() returns (n: nat)
      ensures n == |RunningIds(jobs)|
    {
      var rest, seen := jobs.Keys, {};
      n := 0;
      ghost var counted: set<Id> := {};
      while rest != {}
        invariant seen !! rest && seen + rest == jobs.Keys
        invariant counted == (set k | k in seen && jobs[k].status == Running) && n == |counted|
        decreases rest
      {
        var k :| k in rest;
        rest, seen := rest - {k}, seen + {k};
        if jobs[k].status == Running {
          counted := counted + {k};
          n := n + 1;
        }
      }
      assert counted == RunningIds(jobs);
    }

    method AdmitJob(id: Id, op: JobOperation, packages: seq<string>, now: Time, boot: Option<string>)
      returns (r: Result<Id, JobAdmissionError>)
      modifies this
      ensures (State(), r) == SchedulerState.AdmitJob(old(State()), id, op, packages, now, boot)
    {
      if admission != Open {
        return Err(AdmissionFrozen);
      }
      if selfUpdate.Some? {
        return Err(SelfUpdateInProgress);
      }
      if rebootPending.Some? {
        return Err(AdmissionFrozen);
      }
      var active := CountActiveReal();
      if active >= maxQueueDepth {
        return Err(QueueFull);
      }
      jobs := jobs[id := NewJob(id, op, packages, now, boot)];
      r := Ok(id);
    }

    method CreateRollbackJob(original: Id, id: Id, now: Time, boot: Option<string>)
      returns (r: Result<Option<Id>, JobAdmissionError>)
      modifies this
      ensures (State(), r) == SchedulerState.CreateRollbackJob(old(State()), original, id, now, boot)
    {
      r := Ok(None);
      if original in jobs && jobs[original].status in {Failed, Completed} {
        var admitted := AdmitJob(id, Rollback, jobs[original].packages, now, boot);
        if admitted.Err? {
          return Err(admitted.error);
        }
        if id in jobs {
          jobs := jobs[id := jobs[id].(exclusive := true, rollbackOf := Some(original))];
        }
        r := Ok(Some(id));
      }
    }

    method TryReserveSelfUpdate(id: Id, packages: seq<string>, now: Time, boot: Option<string>)
      returns (r: Result<Id, SelfUpdateAdmissionError>)
      modifies this
      ensures (State(), r) == SchedulerState.TryReserveSelfUpdate(old(State()), id, packages, now, boot)
    {
      if admission != Open {
        return Err(AlreadyInProgress);
      }
      if selfUpdate.Some? {
        return Err(AlreadyInProgress);
      }
      if rebootPending.Some? {
        return Err(AlreadyInProgress);
      }
      if activeMutation.Some? {
        var holder := activeMutation.value;
        var heldByInternal := holder in jobs && jobs[holder].IsInternal();
        if !heldByInternal {
          return Err(BlockedByJobs(1));
        }
      }
      var active := CountActiveReal();
      if active > 0 {
        return Err(BlockedByJobs(active));
      }
      if maxQueueDepth == 0 {
        return Err(UpdateQueueFull);
      }
      selfUpdate := Some(id);
      jobs := jobs[id := NewJob(id, SelfUpdate, packages, now, boot)];
      r := Ok(id);
    }

    method ReleaseSelfUpdate(id: Id) returns (released: bool)
      modifies this
      ensures (State(), released) == SchedulerState.ReleaseSelfUpdate(old(State()), id)
    {
      released := false;
      if selfUpdate.Some? && selfUpdate.value == id {
        selfUpdate := None;
        released := true;
      }
    }

    method DropSelfUpdateGuard(id: Id)
      modifies this
      ensures State() == SchedulerState.DropSelfUpdateGuard(old(State()), id)
    {
      if selfUpdate.Some? && selfUpdate.value == id {
        selfUpdate := None;
      }
      jobs := jobs - {id};
    }

    /** The reservation collects the pending jobs first and then fails them one by one. */
    method ReserveReboot(id: Id, force: bool, ack: bool, now: Time, boot: Option<string>)
      returns (r: Result<Id, RebootAdmissionError>)
      modifies this
      ensures (State(), r) == SchedulerState.ReserveReboot(old(State()), id, force, ack, now, boot)
    {
      if admission != Open {
        return Err(AdmissionClosed);
      }
      if rebootPending.Some? {
        return Err(JobsInProgress(1));
      }
      var selfUpdateActive := selfUpdate.Some?;
      var mutationActive := activeMutation.Some?;
      var active := CountActiveReal();
      if !force {
        if selfUpdateActive {
          return Err(RebootSelfUpdateInProgress);
        }
        if active > 0 {
          return Err(JobsInProgress(active));
        }
      }
      if force && !ack && (selfUpdateActive || mutationActive) {
        if selfUpdateActive {
          return Err(RebootSelfUpdateInProgress);
        }
        return Err(PackageMutationInProgress);
      }
      if active >= maxQueueDepth {
        return Err(RebootQueueFull);
      }
      rebootPending := Some(id);
      jobs := jobs[id := NewJob(id, Reboot, [], now, boot)];
      FailAllPending(id, now);
      r := Ok(id);
    }

    method FailAllPending(owner: Id, now: Time)
      modifies this`jobs
      ensures jobs == FailPending(old(jobs), owner, now)
    {
      var rest, toFail := jobs.Keys, {};
      while rest != {}
        invariant rest <= jobs.Keys
        invariant toFail == set k | k in jobs.Keys - rest && k != owner && jobs[k].status == Pending
        decreases rest
      {
        var k :| k in rest;
        rest := rest - {k};
        if k != owner && jobs[k].status == Pending {
          toFail := toFail + {k};
        }
      }
      ghost var pending := toFail;
      while toFail != {}
        invariant toFail <= pending && jobs.Keys == old(jobs).Keys
        invariant forall k :: k in jobs ==>
                    jobs[k] == if k in pending - toFail then old(jobs)[k].Fail(CANCELLED_BY_REBOOT, now) else old(jobs)[k]
        decreases toFail
      {
        var k :| k in toFail;
        toFail := toFail - {k};
        jobs := jobs[k := jobs[k].Fail(CANCELLED_BY_REBOOT, now)];
      }
    }

    method RollbackReboot(id: Id, error: Option<string>, now: Time) returns (done: bool)
      modifies this
      ensures (State(), done) == SchedulerState.RollbackReboot(old(State()), id, error, now)
    {
      if rebootPending != Some(id) {
        return false;
      }
      rebootPending := None;
      if id in jobs {
        if error.Some? {
          jobs := jobs[id := jobs[id].Fail(error.value, now)];
        } else {
          jobs := jobs[id := jobs[id].(status := Cancelled, completedAt := Some(now))];
        }
      }
      done := true;
    }

    method BeginRebootExecution(id: Id) returns (begun: bool)
      modifies this
      ensures (State(), begun) == SchedulerState.BeginRebootExecution(old(State()), id)
    {
      if rebootPending != Some(id) || id !in jobs || jobs[id].status != Pending {
        return false;
      }
      jobs := jobs[id := jobs[id].(status := Rebooting)];
      begun := true;
    }

    method SetJobRebooting(id: Id) returns (set_: bool)
      modifies this
      ensures (State(), set_) == SchedulerState.SetJobRebooting(old(State()), id)
    {
      if id !in jobs || jobs[id].status != Running {
        return false;
      }
      jobs := jobs[id := jobs[id].SetRebooting()];
      set_ := true;
    }

    /** One turn of the `'wait` loop: everything between taking and releasing the lock. */
    method TryAcquire(id: Id) returns (r: DispatchOutcome)
      requires Valid()
      modifies this
      ensures (State(), r) == SchedulerState.TryAcquire(old(State()), id)
      ensures Valid()
    {
      if admission == Frozen {
        return Rejected(FrozenAdmission);
      }
      if admission == Recovery {
        return Rejected(RecoveryMode);
      }
      if rebootPending.Some? {
        return Rejected(RebootReserved);
      }
      if selfUpdate.Some? && selfUpdate.value != id {
        return Rejected(SelfUpdateConflict);
      }
      var alreadyRunning := id in jobs && jobs[id].status == Running;
      var running := CountRunning();
      if !alreadyRunning && running >= maxConcurrent {
        return Wait;
      }
      if activeMutation.Some? {
        return Wait;
      }
      activeMutation := Some(id);
      mutationGeneration := if mutationGeneration + 1 == GENERATIONS then 0 else mutationGeneration + 1;
      if id in jobs {
        jobs := jobs[id := jobs[id].(status := Running)];
      }
      r := Acquired(mutationGeneration);
    }

    method Finalize(id: Id, generation: nat, callerAlive: bool, ok: bool, now: Time)
      modifies this
      ensures State() == SchedulerState.Finalize(old(State()), id, generation, callerAlive, ok, now)
    {
      var stillOwns := activeMutation == Some(id) && mutationGeneration == generation;
      if stillOwns {
        activeMutation := None;
      }
      if !callerAlive && stillOwns {
        if id in jobs && jobs[id].status in {Running, Pending} {
          jobs := jobs[id := jobs[id].Fail(if ok then CANCELLED_OK else CANCELLED_ERR, now)];
        }
      }
    }

    method FreezeAdmission()
      modifies this
      ensures State() == SchedulerState.FreezeAdmission(old(State()))
    {
      admission := Frozen;
    }

    method CompleteJob(id: Id, now: Time)
      modifies this
      ensures State() == SchedulerState.CompleteJob(old(State()), id, now)
    {
      if id in jobs {
        jobs := jobs[id := jobs[id].Complete(now)];
      }
    }

    method FailJob(id: Id, reason: string, now: Time)
      modifies this
      ensures State() == SchedulerState.FailJob(old(State()), id, reason, now)
    {
      if id in jobs {
        jobs := jobs[id := jobs[id].Fail(reason, now)];
      }
    }

    method FailJobWithDiagnostics(id: Id, reason: string, code: string, now: Time)
      modifies this
      ensures State() == SchedulerState.FailJobWithDiagnostics(old(State()), id, reason, code, now)
    {
      if id in jobs {
        jobs := jobs[id := jobs[id].Fail(reason, now).(errorCode := Some(code))];
      }
    }

    method DeleteJob(id: Id) returns (removed: bool)
      modifies this
      ensures (State(), removed) == SchedulerState.DeleteJob(old(State()), id)
    {
      removed := false;
      if id in jobs && jobs[id].status.IsTerminal() {
        jobs := jobs - {id};
        removed := true;
      }
    }

    method UpdateJob(id: Id, status: JobStatus, progress: Option<nat>) returns (accepted: bool)
      modifies this
      ensures (State(), accepted) == SchedulerState.UpdateJob(old(State()), id, status, progress)
    {
      if status in {Running, Rebooting} {
        var alreadyRunning := id in jobs && jobs[id].status == Running;
        if !alreadyRunning {
          var running := CountRunning();
          if running >= maxConcurrent {
            return false;
          }
        }
      }
      if id in jobs {
        var job := jobs[id].(status := status);
        if progress.Some? {
          job := job.(progress := progress.value);
        }
        jobs := jobs[id := job];
      }
      accepted := true;
    }

    method LoadHistory(history: seq<Job>)
      modifies this
      ensures State() == SchedulerState.LoadHistory(old(State()), history)
    {
      for i := 0 to |history|
        invariant State() == old(State()).(jobs := InsertAll(old(jobs), history[..i]))
      {
        jobs := jobs[history[i].id := history[i]];
        assert history[..i + 1][..i] == history[..i];
      }
      assert history[..|history|] == history;
    }

    method RecoverOrphanedJobs(orphans: seq<Job>, clock: nat -> Time, boot: Option<string>)
      modifies this
      ensures State() == SchedulerState.RecoverOrphanedJobs(old(State()), orphans, clock, boot)
    {
      ghost var recovered := RecoverAll(orphans, clock, boot);
      for i := 0 to |orphans|
        invariant State() == old(State()).(jobs := InsertAll(old(jobs), recovered[..i]))
      {
        var job := Recovered(orphans[i], clock(i), boot);
        jobs := jobs[job.id := job];
        assert recovered[..i + 1][..i] == recovered[..i];
        assert recovered[i] == job;
      }
      assert recovered[..|orphans|] == recovered;
    }

    method IsMutationInProgress() returns (b: bool)
      ensures b <==> State().slot.Some?
    {
      b := activeMutation.Some?;
    }
  }
}
