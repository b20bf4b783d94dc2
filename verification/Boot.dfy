/**
 * The job map after startup (`src/main.rs:282-307`): the history file is split
 * into finished and unfinished jobs, the former are loaded, the latter
 * recovered, and the result is written back if anything was recovered.
 */
module Boot {
  import opened Wrappers
  import opened Jobs
  import opened SchedulerState
  import opened SchedulerLaws
  import opened Persistence

  function TerminalOf(jobs: seq<Job>): seq<Job>
    decreases |jobs|
  {
    if jobs == [] then []
    else
      var last := jobs[|jobs| - 1];
      TerminalOf(jobs[..|jobs| - 1]) + if last.status.IsTerminal() then [last] else []
  }

  function OrphansOf(jobs: seq<Job>): seq<Job>
    decreases |jobs|
  {
    if jobs == [] then []
    else
      var last := jobs[|jobs| - 1];
      OrphansOf(jobs[..|jobs| - 1]) + if last.status.IsTerminal() then [] else [last]
  }

  /** The job map after startup from a history file. */
  function BootJobs(history: seq<Job>, clock: nat -> Time, boot: Option<string>): map<Id, Job> {
    InsertAll(InsertAll(map[], TerminalOf(history)), RecoverAll(OrphansOf(history), clock, boot))
  }

  // --------------------------------------------------------------- insertion

  predicate DistinctIds(jobs: seq<Job>) {
    forall i, j :: 0 <= i < j < |jobs| ==> jobs[i].id != jobs[j].id
  }

  ghost predicate HasId(jobs: seq<Job>, k: Id) {
    exists i :: 0 <= i < |jobs| && jobs[i].id == k
  }

  /** Insertion adds exactly the listed ids, and every entry under a listed id is a listed job. */
  lemma {:induction false} InsertAllAdds(jobs: map<Id, Job>, extra: seq<Job>, k: Id)
    ensures k in InsertAll(jobs, extra) <==> k in jobs || HasId(extra, k)
    ensures !HasId(extra, k) && k in jobs ==> InsertAll(jobs, extra)[k] == jobs[k]
    ensures HasId(extra, k) ==> InsertAll(jobs, extra)[k] in extra && InsertAll(jobs, extra)[k].id == k
    decreases |extra|
  {
    if extra != [] {
      var init, last := extra[..|extra| - 1], extra[|extra| - 1];
      InsertAllAdds(jobs, init, k);
      assert extra[|extra| - 1].id == last.id;
      assert HasId(extra, k) <==> HasId(init, k) || last.id == k by {
        if HasId(init, k) {
          var i :| 0 <= i < |init| && init[i].id == k;
          assert extra[i].id == k;
        }
        if HasId(extra, k) && last.id != k {
          var i :| 0 <= i < |extra| && extra[i].id == k;
          assert init[i].id == k;
        }
      }
    }
  }

  lemma {:induction false} PartitionIsExact(jobs: seq<Job>, job: Job)
    ensures job in TerminalOf(jobs) <==> job in jobs && job.status.IsTerminal()
    ensures job in OrphansOf(jobs) <==> job in jobs && !job.status.IsTerminal()
    decreases |jobs|
  {
    if jobs != [] {
      PartitionIsExact(jobs[..|jobs| - 1], job);
      assert jobs == jobs[..|jobs| - 1] + [jobs[|jobs| - 1]];
    }
  }

  // ---------------------------------------------------------------- recovery

  /**
   * What recovery makes of an unfinished job: it ends, and keeps its identity,
   * operation, packages and creation time.  It is Completed exactly for a
   * self-update or a job that waited for the reboot, Cancelled for bookkeeping,
   * and otherwise Failed with the code that tells a restart from a reboot.
   */
  ghost predicate IsResolved(job: Job, orphan: Job, boot: Option<string>) {
    && job.id == orphan.id && job.operation == orphan.operation
    && job.packages == orphan.packages && job.createdAt == orphan.createdAt && job.bootId == orphan.bootId
    && job.status in {Completed, Cancelled, Failed} && job.completedAt.Some?
    && (job.status == Completed <==> orphan.operation == SelfUpdate || orphan.status == Rebooting)
    && (job.status == Cancelled ==> orphan.IsInternal())
    && (job.status == Failed ==>
          && !orphan.IsInternal()
          && (job.errorCode == Some(AGENT_RESTARTED) <==> orphan.bootId.Some? && orphan.bootId == boot)
          && (job.errorCode == Some(AGENT_REBOOTED) <==> orphan.bootId.None? || orphan.bootId != boot))
  }

  lemma RecoveryResolves(orphan: Job, now: Time, boot: Option<string>)
    requires !orphan.status.IsTerminal()
    ensures IsResolved(Recovered(orphan, now, boot), orphan, boot)
    ensures
      var job := Recovered(orphan, now, boot);
      && job.completedAt == Some(now) && job.progress == (if job.status == Completed then 100 else 0)
      && (job.error.Some? <==> job.status == Failed)
      && (if job.status != Failed then job.errorCode == None
          else job.errorCode == Some(if orphan.bootId == boot && boot.Some? then "AGENT_RESTARTED" else "AGENT_REBOOTED"))
      && (if orphan.status == Rebooting && orphan.operation != SelfUpdate
          then job.rollbackOf == orphan.rollbackOf && job.exclusive == orphan.exclusive
          else job.rollbackOf == None && !job.exclusive)
  {
  }

  /** What startup makes of one record of the history file. */
  ghost predicate IsOutcomeOf(job: Job, persisted: Job, boot: Option<string>) {
    if persisted.status.IsTerminal() then job == persisted else IsResolved(job, persisted, boot)
  }

  lemma RecoveredIds(orphans: seq<Job>, clock: nat -> Time, boot: Option<string>, k: Id)
    ensures HasId(RecoverAll(orphans, clock, boot), k) <==> HasId(orphans, k)
  {
    var recovered := RecoverAll(orphans, clock, boot);
    assert forall i :: 0 <= i < |orphans| ==> recovered[i].id == orphans[i].id;
    hide RecoverAll, Recovered;
    if HasId(recovered, k) {
      var i :| 0 <= i < |recovered| && recovered[i].id == k;
      assert orphans[i].id == k;
    }
    if HasId(orphans, k) {
      var i :| 0 <= i < |orphans| && orphans[i].id == k;
      assert recovered[i].id == k;
    }
  }

  lemma HasIdMeansListed(jobs: seq<Job>, k: Id)
    ensures HasId(jobs, k) <==> exists job :: job in jobs && job.id == k
  {
    if job :| job in jobs && job.id == k {
      var i :| 0 <= i < |jobs| && jobs[i] == job;
      assert jobs[i].id == k;
    }
  }

  /**
   * Startup is total on every history file, even one with repeated ids: the
   * job map holds exactly the persisted ids, all finished, each the outcome of
   * a record persisted under its id.
   */
  lemma BootIsTotal(history: seq<Job>, clock: nat -> Time, boot: Option<string>, k: Id)
    ensures k in BootJobs(history, clock, boot) <==> HasId(history, k)
    ensures HasId(history, k) ==>
              var job := BootJobs(history, clock, boot)[k];
              && job.id == k && job.status.IsTerminal()
              && exists persisted :: persisted in history && persisted.id == k && IsOutcomeOf(job, persisted, boot)
  {
    var (terminal, orphans) := (TerminalOf(history), OrphansOf(history));
    var recovered := RecoverAll(orphans, clock, boot);
    InsertAllAdds(map[], terminal, k);
    InsertAllAdds(InsertAll(map[], terminal), recovered, k);
    RecoveredIds(orphans, clock, boot, k);
    HasIdMeansListed(history, k);
    HasIdMeansListed(terminal, k);
    HasIdMeansListed(orphans, k);
    forall job
      ensures job in terminal <==> job in history && job.status.IsTerminal()
      ensures job in orphans <==> job in history && !job.status.IsTerminal()
    {
      PartitionIsExact(history, job);
    }
    if HasId(orphans, k) {
      var job := BootJobs(history, clock, boot)[k];
      var i :| 0 <= i < |recovered| && recovered[i] == job;
      assert orphans[i] in orphans;
      RecoveryResolves(orphans[i], clock(i), boot);
      assert IsOutcomeOf(job, orphans[i], boot);
    } else if HasId(history, k) {
      var job := BootJobs(history, clock, boot)[k];
      assert job in terminal && IsOutcomeOf(job, job, boot);
    }
  }

  /**
   * With distinct ids every persisted record has its own outcome: finished
   * jobs come back unchanged, unfinished ones resolved.
   */
  lemma BootPreserves(history: seq<Job>, clock: nat -> Time, boot: Option<string>, job: Job)
    requires DistinctIds(history) && job in history
    ensures job.id in BootJobs(history, clock, boot)
    ensures IsOutcomeOf(BootJobs(history, clock, boot)[job.id], job, boot)
  {
    HasIdMeansListed(history, job.id);
    BootIsTotal(history, clock, boot, job.id);
    var persisted :| persisted in history && persisted.id == job.id
      && IsOutcomeOf(BootJobs(history, clock, boot)[job.id], persisted, boot);
    assert persisted == job;
  }

  /** Of several records with one id the last one is loaded. */
  lemma {:induction false} LastRecordWins(jobs: map<Id, Job>, extra: seq<Job>, i: nat)
    requires i < |extra| && forall j :: i < j < |extra| ==> extra[j].id != extra[i].id
    ensures extra[i].id in InsertAll(jobs, extra) && InsertAll(jobs, extra)[extra[i].id] == extra[i]
    decreases |extra|
  {
    if i < |extra| - 1 {
      LastRecordWins(jobs, extra[..|extra| - 1], i);
    }
  }

  /** An unfinished record is recovered even if a finished one has the same id. */
  lemma UnfinishedRecordsWin(history: seq<Job>, clock: nat -> Time, boot: Option<string>, k: Id)
    requires HasId(OrphansOf(history), k)
    ensures k in BootJobs(history, clock, boot)
    ensures BootJobs(history, clock, boot)[k] in RecoverAll(OrphansOf(history), clock, boot)
  {
    RecoveredIds(OrphansOf(history), clock, boot, k);
    InsertAllAdds(InsertAll(map[], TerminalOf(history)), RecoverAll(OrphansOf(history), clock, boot), k);
  }

  // ------------------------------------------------------------- idempotence

  /** `get_all_jobs`: the values of the job map in some order. */
  ghost predicate IsListing(list: seq<Job>, jobs: map<Id, Job>) {
    && DistinctIds(list)
    && (forall i :: 0 <= i < |list| ==> list[i].id in jobs && jobs[list[i].id] == list[i])
    && (forall k :: k in jobs ==> HasId(list, k))
  }

  function IdsOf(jobs: seq<Job>): set<Id> {
    set job | job in jobs :: job.id
  }

  lemma {:induction false} IdsAreFew(jobs: seq<Job>)
    ensures |IdsOf(jobs)| <= |jobs|
    ensures DistinctIds(jobs) ==> |IdsOf(jobs)| == |jobs|
    decreases |jobs|
  {
    if jobs != [] {
      var init, last := jobs[..|jobs| - 1], jobs[|jobs| - 1];
      IdsAreFew(init);
      assert jobs == init + [last];
      assert IdsOf(jobs) == IdsOf(init) + {last.id};
      if DistinctIds(jobs) {
        assert last.id !in IdsOf(init);
      }
    }
  }

  lemma {:induction false} NothingToRecover(jobs: seq<Job>)
    requires forall job :: job in jobs ==> job.status.IsTerminal()
    ensures TerminalOf(jobs) == jobs && OrphansOf(jobs) == []
    decreases |jobs|
  {
    if jobs != [] {
      var init := jobs[..|jobs| - 1];
      assert jobs == init + [jobs[|jobs| - 1]];
      NothingToRecover(init);
    }
  }

  lemma ListedValue(list: seq<Job>, jobs: map<Id, Job>, k: Id)
    requires IsListing(list, jobs)
    ensures k in InsertAll(map[], list) <==> k in jobs
    ensures k in jobs ==> InsertAll(map[], list)[k] == jobs[k]
  {
    InsertAllAdds(map[], list, k);
    if k in jobs {
      assert HasId(list, k);
      var i :| 0 <= i < |list| && list[i] == InsertAll(map[], list)[k];
      assert jobs[list[i].id] == list[i];
    }
  }

  lemma InsertingListing(list: seq<Job>, jobs: map<Id, Job>)
    requires IsListing(list, jobs)
    ensures InsertAll(map[], list) == jobs
  {
    forall k
      ensures k in InsertAll(map[], list) <==> k in jobs
      ensures k in jobs ==> InsertAll(map[], list)[k] == jobs[k]
    {
      ListedValue(list, jobs, k);
    }
  }

  /** Starting from a list of finished jobs restores the map it was taken from, whatever the clock. */
  lemma BootRestoresListing(list: seq<Job>, jobs: map<Id, Job>, clock: nat -> Time, boot: Option<string>)
    requires IsListing(list, jobs) && forall job :: job in list ==> job.status.IsTerminal()
    ensures BootJobs(list, clock, boot) == jobs
  {
    hide IsListing;
    NothingToRecover(list);
    assert RecoverAll([], clock, boot) == [];
    InsertingListing(list, jobs);
  }

  /** The job map after startup has at most as many jobs as the file, all of them finished. */
  lemma ListingOfBoot(history: seq<Job>, clock: nat -> Time, boot: Option<string>, list: seq<Job>)
    requires IsListing(list, BootJobs(history, clock, boot))
    ensures |list| <= |history|
    ensures forall job :: job in list ==> job.status.IsTerminal()
  {
    forall job | job in list
      ensures job.status.IsTerminal() && job.id in IdsOf(history)
    {
      BootIsTotal(history, clock, boot, job.id);
      HasIdMeansListed(history, job.id);
    }
    IdsAreFew(list);
    IdsAreFew(history);
    SubsetSize(IdsOf(list), IdsOf(history));
  }

  /** Writing back what startup produced, and starting again, changes nothing. */
  lemma WriteBackIsStable(history: seq<Job>, clock: nat -> Time, boot: Option<string>, list: seq<Job>,
                          clock': nat -> Time, boot': Option<string>)
    requires |history| <= RETENTION && IsListing(list, BootJobs(history, clock, boot))
    ensures Persisted(list) == list
    ensures BootJobs(Persisted(list), clock', boot') == BootJobs(history, clock, boot)
  {
    ListingOfBoot(history, clock, boot, list);
    AllEligible(list);
    BootRestoresListing(list, BootJobs(history, clock, boot), clock', boot');
  }

  /**
   * boot after persist after boot after persist equals boot after persist, for
   * every job map, every order in which the map is listed, and all clocks and
   * boot ids.
   */
  lemma PersistBootIsIdempotent(list: seq<Job>, clock: nat -> Time, boot: Option<string>, list': seq<Job>,
                                clock': nat -> Time, boot': Option<string>)
    requires IsListing(list', BootJobs(Persisted(list), clock, boot))
    ensures BootJobs(Persisted(list'), clock', boot') == BootJobs(Persisted(list), clock, boot)
  {
    RetentionIsExact(list);
    WriteBackIsStable(Persisted(list), clock, boot, list', clock', boot');
  }

  // ---------------------------------------------------------------- restarts

  /** One startup: its clock, its boot id, and the order in which it lists the job map. */
  datatype Relaunch = Relaunch(clock: nat -> Time, boot: Option<string>, list: seq<Job>)

  /** The history file after a startup: rewritten only if something was recovered. */
  function FileAfter(history: seq<Job>, relaunch: Relaunch): seq<Job> {
    if OrphansOf(history) == [] then history else Persisted(relaunch.list)
  }

  function FileAfterAll(history: seq<Job>, restarts: seq<Relaunch>): seq<Job>
    decreases |restarts|
  {
    if restarts == [] then history
    else FileAfter(FileAfterAll(history, restarts[..|restarts| - 1]), restarts[|restarts| - 1])
  }

  /** Each startup lists the job map that it has just built. */
  ghost predicate AreRestarts(history: seq<Job>, restarts: seq<Relaunch>) {
    forall i :: 0 <= i < |restarts| ==>
      IsListing(restarts[i].list, BootJobs(FileAfterAll(history, restarts[..i]), restarts[i].clock, restarts[i].boot))
  }

  /** Without orphans neither clock nor boot id matters. */
  lemma FinishedBoot(history: seq<Job>, clock: nat -> Time, boot: Option<string>, clock': nat -> Time, boot': Option<string>)
    requires OrphansOf(history) == []
    ensures BootJobs(history, clock, boot) == BootJobs(history, clock', boot')
  {
    assert RecoverAll([], clock, boot) == RecoverAll([], clock', boot');
  }

  lemma OneRestart(history: seq<Job>, relaunch: Relaunch, clock: nat -> Time, boot: Option<string>)
    requires |history| <= RETENTION && IsListing(relaunch.list, BootJobs(history, relaunch.clock, relaunch.boot))
    ensures |FileAfter(history, relaunch)| <= RETENTION
    ensures BootJobs(FileAfter(history, relaunch), clock, boot) == BootJobs(history, relaunch.clock, relaunch.boot)
  {
    if OrphansOf(history) == [] {
      FinishedBoot(history, clock, boot, relaunch.clock, relaunch.boot);
    } else {
      RetentionIsExact(relaunch.list);
      WriteBackIsStable(history, relaunch.clock, relaunch.boot, relaunch.list, clock, boot);
    }
  }

  /**
   * After the first startup any number of further restarts, before any new
   * job, finds the same job map: outcomes never change once assigned.
   */
  lemma {:induction false} RestartsAreStable(history: seq<Job>, restarts: seq<Relaunch>, clock: nat -> Time,
                                             boot: Option<string>)
    requires |history| <= RETENTION && |restarts| > 0 && AreRestarts(history, restarts)
    ensures |FileAfterAll(history, restarts)| <= RETENTION
    ensures BootJobs(FileAfterAll(history, restarts), clock, boot)
            == BootJobs(history, restarts[0].clock, restarts[0].boot)
    decreases |restarts|
  {
    hide BootJobs, IsListing, FileAfter;
    var init, last := restarts[..|restarts| - 1], restarts[|restarts| - 1];
    if init == [] {
      assert FileAfterAll(history, init) == history;
      assert restarts[..0] == init;
    } else {
      assert forall i :: 0 <= i < |init| ==> init[..i] == restarts[..i];
      assert AreRestarts(history, init);
      RestartsAreStable(history, init, last.clock, last.boot);
    }
    OneRestart(FileAfterAll(history, init), last, clock, boot);
  }

  /** The remaining restarts start from the file the first one leaves. */
  lemma {:induction false} FileAfterFirst(history: seq<Job>, restarts: seq<Relaunch>)
    requires |restarts| > 0
    ensures FileAfterAll(history, restarts) == FileAfterAll(FileAfter(history, restarts[0]), restarts[1..])
    decreases |restarts|
  {
    if |restarts| == 1 {
      assert restarts[..0] == [] == restarts[1..];
    } else {
      var init := restarts[..|restarts| - 1];
      FileAfterFirst(history, init);
      assert restarts[1..][..|restarts| - 2] == init[1..];
    }
  }

  /** Without anything to recover the file and the job map never change, however long the file is. */
  lemma {:induction false} FinishedFileStays(history: seq<Job>, restarts: seq<Relaunch>)
    requires OrphansOf(history) == []
    ensures FileAfterAll(history, restarts) == history
    decreases |restarts|
  {
    if restarts != [] {
      FinishedFileStays(history, restarts[..|restarts| - 1]);
    }
  }

  lemma LaterRestarts(history: seq<Job>, restarts: seq<Relaunch>)
    requires |restarts| > 0 && AreRestarts(history, restarts)
    ensures AreRestarts(FileAfter(history, restarts[0]), restarts[1..])
  {
    hide BootJobs, IsListing, FileAfterAll, FileAfter;
    var file, rest := FileAfter(history, restarts[0]), restarts[1..];
    forall i | 0 <= i < |rest|
      ensures IsListing(rest[i].list, BootJobs(FileAfterAll(file, rest[..i]), rest[i].clock, rest[i].boot))
    {
      assert rest[i] == restarts[i + 1];
      FileAfterFirst(history, restarts[..i + 1]);
      assert restarts[..i + 1][1..] == rest[..i];
    }
  }

  /**
   * From the second startup on the job map is stable for every history file,
   * even one with more jobs than are kept.
   */
  lemma RestartsStabilize(history: seq<Job>, restarts: seq<Relaunch>, clock: nat -> Time, boot: Option<string>)
    requires |restarts| > 1 && AreRestarts(history, restarts)
    ensures BootJobs(FileAfterAll(history, restarts), clock, boot)
            == BootJobs(FileAfter(history, restarts[0]), restarts[1].clock, restarts[1].boot)
  {
    hide AreRestarts, BootJobs, FileAfterAll, Persisted;
    if OrphansOf(history) == [] {
      FinishedFileStays(history, restarts);
      FinishedBoot(history, clock, boot, restarts[1].clock, restarts[1].boot);
    } else {
      RetentionIsExact(restarts[0].list);
      FileAfterFirst(history, restarts);
      LaterRestarts(history, restarts);
      RestartsAreStable(FileAfter(history, restarts[0]), restarts[1..], clock, boot);
    }
  }
}
