/**
 * What `persist_all_jobs` writes (`src/jobs/persistence.rs`): which jobs the
 * history file keeps, and the names of its temporary files.  Serialization is
 * the identity here.
 */
module Persistence {
  import opened Jobs

  const RETENTION := 500

  /** Unfinished bookkeeping jobs are never written. */
  predicate Eligible(job: Job) {
    !job.IsInternal() || job.status.IsTerminal()
  }

  function EligibleOf(jobs: seq<Job>): seq<Job>
    decreases |jobs|
  {
    if jobs == [] then []
    else
      var last := jobs[|jobs| - 1];
      EligibleOf(jobs[..|jobs| - 1]) + if Eligible(last) then [last] else []
  }

  /** Insertion behind every job that is at least as new. */
  function InsertByAge(job: Job, sorted: seq<Job>): seq<Job>
    decreases |sorted|
  {
    if sorted == [] || sorted[0].createdAt < job.createdAt then [job] + sorted
    else [sorted[0]] + InsertByAge(job, sorted[1..])
  }

  /** The stable sort by descending creation time. */
  function NewestFirst(jobs: seq<Job>): seq<Job>
    decreases |jobs|
  {
    if jobs == [] then [] else InsertByAge(jobs[|jobs| - 1], NewestFirst(jobs[..|jobs| - 1]))
  }

  predicate SortedByAge(jobs: seq<Job>) {
    forall i, j :: 0 <= i < j < |jobs| ==> jobs[i].createdAt >= jobs[j].createdAt
  }

  lemma {:induction false} InsertByAgeSorts(job: Job, sorted: seq<Job>)
    requires SortedByAge(sorted)
    ensures SortedByAge(InsertByAge(job, sorted))
    ensures multiset(InsertByAge(job, sorted)) == multiset(sorted) + multiset{job}
    decreases |sorted|
  {
    if sorted != [] {
      assert sorted == [sorted[0]] + sorted[1..];
      if sorted[0].createdAt >= job.createdAt {
        InsertByAgeSorts(job, sorted[1..]);
        InsertedIsOlder(job, sorted);
      }
    }
  }

  lemma InsertedIsOlder(job: Job, sorted: seq<Job>)
    requires sorted != [] && SortedByAge(sorted) && sorted[0].createdAt >= job.createdAt
    requires multiset(InsertByAge(job, sorted[1..])) == multiset(sorted[1..]) + multiset{job}
    ensures forall x :: x in InsertByAge(job, sorted[1..]) ==> x.createdAt <= sorted[0].createdAt
  {
    var rest := InsertByAge(job, sorted[1..]);
    hide InsertByAge;
    forall x | x in rest
      ensures x.createdAt <= sorted[0].createdAt
    {
      assert x in multiset(rest);
      assert x in sorted[1..] || x == job;
    }
  }

  lemma {:induction false} NewestFirstSorts(jobs: seq<Job>)
    ensures SortedByAge(NewestFirst(jobs))
    ensures multiset(NewestFirst(jobs)) == multiset(jobs)
    decreases |jobs|
  {
    if jobs != [] {
      var init := jobs[..|jobs| - 1];
      NewestFirstSorts(init);
      InsertByAgeSorts(jobs[|jobs| - 1], NewestFirst(init));
      assert jobs == init + [jobs[|jobs| - 1]];
    }
  }

  /** The jobs created at one time, in order. */
  function CreatedAt(jobs: seq<Job>, time: Time): seq<Job>
    decreases |jobs|
  {
    if jobs == [] then []
    else (if jobs[0].createdAt == time then [jobs[0]] else []) + CreatedAt(jobs[1..], time)
  }

  lemma {:induction false} CreatedAtConcat(a: seq<Job>, b: seq<Job>, time: Time)
    ensures CreatedAt(a + b, time) == CreatedAt(a, time) + CreatedAt(b, time)
    decreases |a|
  {
    if a == [] {
      assert a + b == b;
    } else {
      assert (a + b)[1..] == a[1..] + b;
      CreatedAtConcat(a[1..], b, time);
    }
  }

  lemma {:induction false} NoneOlder(jobs: seq<Job>, time: Time)
    requires SortedByAge(jobs) && (jobs != [] ==> jobs[0].createdAt < time)
    ensures CreatedAt(jobs, time) == []
    decreases |jobs|
  {
    if jobs != [] {
      NoneOlder(jobs[1..], time);
    }
  }

  lemma {:induction false} InsertByAgeIsStable(job: Job, sorted: seq<Job>, time: Time)
    requires SortedByAge(sorted)
    ensures CreatedAt(InsertByAge(job, sorted), time) == CreatedAt(sorted + [job], time)
    decreases |sorted|
  {
    CreatedAtConcat(sorted, [job], time);
    if sorted == [] || sorted[0].createdAt < job.createdAt {
      CreatedAtConcat([job], sorted, time);
      if job.createdAt == time {
        NoneOlder(sorted, time);
      }
    } else {
      InsertByAgeIsStable(job, sorted[1..], time);
      CreatedAtConcat(sorted[1..], [job], time);
      CreatedAtConcat([sorted[0]], InsertByAge(job, sorted[1..]), time);
      CreatedAtConcat([sorted[0]], sorted[1..], time);
      assert sorted == [sorted[0]] + sorted[1..];
    }
  }

  /** The sort is stable: jobs created at the same time keep their order. */
  lemma {:induction false} NewestFirstIsStable(jobs: seq<Job>, time: Time)
    ensures CreatedAt(NewestFirst(jobs), time) == CreatedAt(jobs, time)
    decreases |jobs|
  {
    if jobs != [] {
      var init, last := jobs[..|jobs| - 1], jobs[|jobs| - 1];
      NewestFirstIsStable(init, time);
      NewestFirstSorts(init);
      InsertByAgeIsStable(last, NewestFirst(init), time);
      CreatedAtConcat(NewestFirst(init), [last], time);
      CreatedAtConcat(init, [last], time);
      assert jobs == init + [last];
    }
  }

  /** The jobs written for a snapshot listed in some order. */
  function Persisted(jobs: seq<Job>): seq<Job> {
    var kept := EligibleOf(jobs);
    if |kept| > RETENTION then
      SortKeepsLength(kept);
      NewestFirst(kept)[..RETENTION]
    else kept
  }

  lemma SortKeepsLength(jobs: seq<Job>)
    ensures |NewestFirst(jobs)| == |jobs|
  {
    NewestFirstSorts(jobs);
    assert |multiset(NewestFirst(jobs))| == |multiset(jobs)|;
  }

  /** `persist_all_jobs` up to serialization: retain, then sort and truncate. */
  method SelectForHistory(jobs: seq<Job>) returns (kept: seq<Job>)
    ensures kept == Persisted(jobs)
  {
    kept := [];
    for i := 0 to |jobs|
      invariant kept == EligibleOf(jobs[..i])
    {
      assert jobs[..i + 1][..i] == jobs[..i];
      if !jobs[i].IsInternal() || jobs[i].status.IsTerminal() {
        kept := kept + [jobs[i]];
      }
    }
    assert jobs[..|jobs|] == jobs;
    if |kept| > RETENTION {
      SortKeepsLength(kept);
      kept := NewestFirst(kept);
      kept := kept[..RETENTION];
    }
  }

  lemma {:induction false} EligibleOfIsExact(jobs: seq<Job>, job: Job)
    ensures multiset(EligibleOf(jobs))[job] == if Eligible(job) then multiset(jobs)[job] else 0
    decreases |jobs|
  {
    if jobs != [] {
      var init := jobs[..|jobs| - 1];
      EligibleOfIsExact(init, job);
      assert jobs == init + [jobs[|jobs| - 1]];
    }
  }

  /** How many entries of a list are eligible. */
  function EligibleCount(jobs: seq<Job>): nat
    decreases |jobs|
  {
    if jobs == [] then 0 else (if Eligible(jobs[0]) then 1 else 0) + EligibleCount(jobs[1..])
  }

  lemma {:induction false} CountAtTheEnd(jobs: seq<Job>, last: Job)
    ensures EligibleCount(jobs + [last]) == EligibleCount(jobs) + if Eligible(last) then 1 else 0
    decreases |jobs|
  {
    if jobs == [] {
      assert jobs + [last] == [last];
    } else {
      assert (jobs + [last])[1..] == jobs[1..] + [last];
      CountAtTheEnd(jobs[1..], last);
    }
  }

  lemma {:induction false} EligibleOfCounts(jobs: seq<Job>)
    ensures |EligibleOf(jobs)| == EligibleCount(jobs)
    decreases |jobs|
  {
    if jobs != [] {
      var init := jobs[..|jobs| - 1];
      EligibleOfCounts(init);
      CountAtTheEnd(init, jobs[|jobs| - 1]);
      assert jobs == init + [jobs[|jobs| - 1]];
    }
  }

  /**
   * Retention: exactly min(500, eligible) jobs are written, each an eligible
   * job of the snapshot as often as it occurs there at most, and each at least
   * as new as every eligible job that is dropped.
   */
  lemma RetentionIsExact(jobs: seq<Job>)
    ensures |Persisted(jobs)| == if EligibleCount(jobs) <= RETENTION then EligibleCount(jobs) else RETENTION
    ensures multiset(Persisted(jobs)) <= multiset(jobs)
    ensures forall kept :: kept in Persisted(jobs) ==> Eligible(kept)
    ensures forall kept, dropped :: kept in Persisted(jobs) && Eligible(dropped)
                                    && multiset(Persisted(jobs))[dropped] < multiset(jobs)[dropped] ==>
              kept.createdAt >= dropped.createdAt
  {
    var all := EligibleOf(jobs);
    EligibleOfCounts(jobs);
    forall job
      ensures multiset(all)[job] == if Eligible(job) then multiset(jobs)[job] else 0
    {
      EligibleOfIsExact(jobs, job);
    }
    if |all| > RETENTION {
      SplitIsByAge(all);
    }
    forall kept | kept in Persisted(jobs)
      ensures Eligible(kept)
    {
      assert multiset(Persisted(jobs))[kept] <= multiset(all)[kept];
    }
  }

  lemma SplitIsByAge(all: seq<Job>)
    requires |all| > RETENTION
    ensures |NewestFirst(all)| == |all|
    ensures
      var head := NewestFirst(all)[..RETENTION];
      && multiset(head) <= multiset(all)
      && forall kept, dropped :: kept in head && multiset(head)[dropped] < multiset(all)[dropped] ==>
           kept.createdAt >= dropped.createdAt
  {
    SortKeepsLength(all);
    NewestFirstSorts(all);
    var sorted := NewestFirst(all);
    var head, tail := sorted[..RETENTION], sorted[RETENTION..];
    assert sorted == head + tail;
    forall kept, dropped | kept in head && multiset(head)[dropped] < multiset(all)[dropped]
      ensures kept.createdAt >= dropped.createdAt
    {
      assert multiset(tail)[dropped] > 0;
      assert dropped in tail;
      var i :| 0 <= i < |tail| && tail[i] == dropped;
      assert sorted[RETENTION + i] == dropped;
    }
  }

  /** No unfinished bookkeeping job reaches the history file. */
  lemma NoActiveInternalJobs(jobs: seq<Job>)
    ensures forall job :: job in Persisted(jobs) && job.IsInternal() ==> !job.status.IsActive()
  {
    RetentionIsExact(jobs);
  }

  /** Short lists of finished jobs are written as they are. */
  lemma {:induction false} AllEligible(jobs: seq<Job>)
    requires forall job :: job in jobs ==> Eligible(job)
    ensures EligibleOf(jobs) == jobs
    decreases |jobs|
  {
    if jobs != [] {
      var init := jobs[..|jobs| - 1];
      assert jobs == init + [jobs[|jobs| - 1]];
      AllEligible(init);
    }
  }

  // --------------------------------------------------------- temporary names

  function Decimal(n: nat): (s: string)
    ensures |s| > 0 && forall i :: 0 <= i < |s| ==> '0' <= s[i] <= '9'
    ensures |s| == 1 <==> n < 10
  {
    var digit := [('0' as int + n % 10) as char];
    if n < 10 then digit else Decimal(n / 10) + digit
  }

  lemma {:induction false} DecimalIsInjective(m: nat, n: nat)
    requires Decimal(m) == Decimal(n)
    ensures m == n
    decreases m
  {
    var s, t := Decimal(m), Decimal(n);
    assert s[|s| - 1] == ('0' as int + m % 10) as char;
    assert t[|t| - 1] == ('0' as int + n % 10) as char;
    assert m % 10 == n % 10;
    if m >= 10 && n >= 10 {
      assert s[..|s| - 1] == Decimal(m / 10);
      assert t[..|t| - 1] == Decimal(n / 10);
      DecimalIsInjective(m / 10, n / 10);
    }
  }

  const HISTORY_FILE := "jobs_history.json"

  /** `unique_temp_path`: stem, thread hash, counter value, extension. */
  function TempName(thread: nat, counter: nat): string {
    "jobs_history." + Decimal(thread) + "." + Decimal(counter) + ".json.tmp"
  }

  /** Two runs of digits separated by a dot determine both runs. */
  lemma SplitAtDot(a: string, b: string, c: string, d: string)
    requires forall i :: 0 <= i < |a| ==> a[i] != '.'
    requires forall i :: 0 <= i < |c| ==> c[i] != '.'
    requires a + "." + b == c + "." + d
    ensures a == c && b == d
  {
    var s, t := a + "." + b, c + "." + d;
    assert s[|a|] == '.' && t[|c|] == '.';
    assert forall i :: 0 <= i < |a| ==> s[i] != '.';
    assert forall i :: 0 <= i < |c| ==> t[i] != '.';
    assert |a| == |c|;
    assert a == s[..|a|] && c == t[..|c|];
    assert b == s[|a| + 1..] && d == t[|c| + 1..];
  }

  /**
   * Writers with different counter values use different temporary files,
   * whatever their threads, and none of them is the history file.
   */
  lemma TempNamesAreUnique(thread: nat, counter: nat, thread': nat, counter': nat)
    ensures TempName(thread, counter) == TempName(thread', counter') <==> thread == thread' && counter == counter'
    ensures TempName(thread, counter) != HISTORY_FILE
  {
    var name, name' := TempName(thread, counter), TempName(thread', counter');
    assert name[|name| - 1] == 'p' && HISTORY_FILE[|HISTORY_FILE| - 1] == 'n';
    if name == name' {
      var (a, b, c, d) := (Decimal(thread), Decimal(counter), Decimal(thread'), Decimal(counter'));
      assert name == "jobs_history." + (a + "." + b) + ".json.tmp";
      assert name' == "jobs_history." + (c + "." + d) + ".json.tmp";
      assert a + "." + b == name[13..|name| - 9];
      assert c + "." + d == name'[13..|name'| - 9];
      SplitAtDot(a, b, c, d);
      DecimalIsInjective(thread, thread');
      DecimalIsInjective(counter, counter');
    }
  }
}
