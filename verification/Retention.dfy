/**
 * Which jobs come back after a restart, in terms of names, statuses and numbers:
 * nothing here rests on the test the writer uses.  In particular jobs that wait
 * for a reboot are written, and come back completed.
 */
module Retention {
  import opened Wrappers
  import opened Jobs
  import SchedulerLaws
  import opened SchedulerAnswers
  import opened Persistence
  import opened Boot
  import opened CrashSafety
  import opened Tasks
  import opened TaskInvariant
  import opened TaskTheorems
  import opened Causes

  /** Only unfinished bookkeeping jobs are left out of the file. */
  ghost predicate IsLeftOut(job: Job) {
    NamesBookkeeping(job.packages) && (job.status == Pending || job.status == Running || job.status == Rebooting)
  }

  lemma EligibleIsLiteral(job: Job)
    ensures Eligible(job) <==> !IsLeftOut(job)
  {
    SentinelIsLiteral(job.packages);
  }

  /** Of at most 500 jobs exactly those that are not left out are written. */
  lemma ShortListsAreExact(jobs: seq<Job>, job: Job)
    requires |jobs| <= 500
    ensures job in Persisted(jobs) <==> job in jobs && !IsLeftOut(job)
  {
    EligibleIsLiteral(job);
    EligibleOfIsExact(jobs, job);
    EligibleOfIsShort(jobs);
    hide Eligible, IsLeftOut;
    assert Persisted(jobs) == EligibleOf(jobs);
    assert job in EligibleOf(jobs) <==> multiset(EligibleOf(jobs))[job] > 0;
    assert job in jobs <==> multiset(jobs)[job] > 0;
  }

  lemma {:induction false} EligibleOfIsShort(jobs: seq<Job>)
    ensures |EligibleOf(jobs)| <= |jobs|
    decreases |jobs|
  {
    if jobs != [] {
      EligibleOfIsShort(jobs[..|jobs| - 1]);
    }
  }

  ghost function WrittenIds(jobs: map<Id, Job>): set<Id> {
    set k | k in jobs && !IsLeftOut(jobs[k])
  }

  /**
   * Persisting a job map of any size and starting again finds min(500, written)
   * jobs, none of them left out, and none older than one that is missing.
   */
  lemma RestartFindsExactly(list: seq<Job>, jobs: map<Id, Job>, clock: nat -> Time, boot: Option<string>)
    requires IsListing(list, jobs)
    ensures
      var found := BootJobs(Persisted(list), clock, boot);
      && |found| == (if |WrittenIds(jobs)| <= 500 then |WrittenIds(jobs)| else 500)
      && (forall k :: k in found ==> k in WrittenIds(jobs) && IsOutcomeOf(found[k], jobs[k], boot))
      && (forall k, f :: k in WrittenIds(jobs) && k !in found && f in found ==>
            found[f].createdAt >= jobs[k].createdAt)
  {
    PersistThenBoot(list, jobs, clock, boot);
    forall k | k in jobs
      ensures Eligible(jobs[k]) <==> !IsLeftOut(jobs[k])
    {
      EligibleIsLiteral(jobs[k]);
    }
    assert EligibleIds(jobs) == WrittenIds(jobs);
    hide BootJobs, Persisted, IsListing, IsOutcomeOf, Eligible, IsLeftOut;
  }

  /** The job comes back completed, unless 500 jobs at least as new take its place. */
  ghost predicate ComesBackCompleted(found: map<Id, Job>, job: Job) {
    if job.id in found then found[job.id].status == Completed && found[job.id].completedAt.Some?
    else |found| == 500 && forall f :: f in found ==> found[f].createdAt >= job.createdAt
  }

  /** A Rebooting job that is no bookkeeping has completed when the agent is back. */
  lemma RebootingJobsComplete(list: seq<Job>, jobs: map<Id, Job>, clock: nat -> Time, boot: Option<string>, k: Id)
    requires IsListing(list, jobs)
    requires k in jobs && jobs[k].id == k && jobs[k].status == Rebooting && !NamesBookkeeping(jobs[k].packages)
    ensures ComesBackCompleted(BootJobs(Persisted(list), clock, boot), jobs[k])
  {
    hide BootJobs, Persisted, IsListing;
    var found := BootJobs(Persisted(list), clock, boot);
    RestartFindsExactly(list, jobs, clock, boot);
    assert k in WrittenIds(jobs);
    hide WrittenIds, NamesBookkeeping;
    if k !in found {
      MissingMeansFull(found.Keys, WrittenIds(jobs), k);
    }
  }

  lemma MissingMeansFull(found: set<Id>, written: set<Id>, k: Id)
    requires found <= written && k in written && k !in found
    ensures |found| < |written|
  {
    SchedulerLaws.SubsetSize(found, written - {k});
  }

  lemma WaitingRebootIsReal(s: Sys, t: Id)
    requires Inv(s) && t in s.tasks && s.tasks[t].pc.AwaitingReboot?
    ensures
      var r := s.tasks[t].pc.r;
      && s.sch.rebootPending == Some(r) && r in s.sch.jobs && s.sch.jobs[r].id == r
      && s.sch.jobs[r].status == Rebooting && !s.sch.jobs[r].IsInternal()
    ensures t in s.sch.jobs ==>
              s.sch.jobs[t].id == t && s.sch.jobs[t].status == Rebooting && !s.sch.jobs[t].IsInternal()
  {
    ReservationIsLive(s, t);
    TaskFacts(s, t);
  }

  /**
   * After a successful reboot command, whenever the agent persists and the
   * machine restarts, the reboot's job and the patch job that asked for it (if
   * no user has deleted it) have completed.
   */
  lemma RebootedJobsComplete(states: seq<Sys>, steps: seq<Step>, m: nat, i: nat, t: Id, list: seq<Job>,
                             clock: nat -> Time, boot: Option<string>)
    requires IsRun(states, steps) && m < i < |states| && steps[m].action == Command(t, true)
    requires IsListing(list, states[i].sch.jobs)
    ensures states[i].sch.rebootPending.Some? && states[i].sch.rebootPending.value in states[i].sch.jobs
    ensures
      var found := BootJobs(Persisted(list), clock, boot);
      && ComesBackCompleted(found, states[i].sch.jobs[states[i].sch.rebootPending.value])
      && (t in states[i].sch.jobs ==> ComesBackCompleted(found, states[i].sch.jobs[t]))
  {
    hide IsRun, Inv, Apply, Permissible, BootJobs, Persisted, IsListing, ComesBackCompleted;
    RunLength(states, steps);
    RunKeeps(states, steps, m);
    RunKeeps(states, steps, i);
    RunStep(states, steps, m);
    CommandEffect(states[m], steps[m], t, true);
    AwaitingRebootLasts(states, steps, m + 1, i, t);
    var s := states[i];
    WaitingRebootIsReal(s, t);
    var r := s.tasks[t].pc.r;
    SentinelIsLiteral(s.sch.jobs[r].packages);
    RebootingJobsComplete(list, s.sch.jobs, clock, boot, r);
    if t in s.sch.jobs {
      SentinelIsLiteral(s.sch.jobs[t].packages);
      RebootingJobsComplete(list, s.sch.jobs, clock, boot, t);
    }
  }
}
