/**
 * Overlapping `persist_jobs` calls on a file system, and crashes.
 *
 * A writer copies the job map under the scheduler's lock, writes the selection
 * to a temporary file of its own and renames that file over the history file.
 * Writers overlap freely, also with changes of the job map.  Writing a file
 * truncates it first; only the rename is atomic.  A crash may happen in any
 * state of a run, so statements about every state are statements about crashes.
 */
module CrashSafety {
  import opened Wrappers
  import opened Jobs
  import opened SchedulerState
  import opened Persistence
  import opened Boot

  /**
   * A file is torn while it is being written.  `at` says which job map of this
   * process it is the image of; `Older` files come from earlier processes.
   */
  datatype Content = Torn | Older(history: seq<Job>) | Whole(at: nat, image: seq<Job>)

  datatype Phase =
    | Snapped                                 // has its copy of the job map
    | Named(thread: nat, ticket: nat)         // has a temporary name
    | Opened(thread: nat, ticket: nat)        // truncated the temporary file
    | Written(thread: nat, ticket: nat)       // finished the temporary file

  datatype Writer = Writer(at: nat, image: seq<Job>, phase: Phase)

  datatype Disk = Disk(
    past: seq<map<Id, Job>>,                  // every job map so far, the current one last
    files: map<string, Content>,
    started: nat,                             // temporary names given out so far
    writers: map<nat, Writer>)

  /** The name a writer derives from its ticket of the 64-bit counter. */
  function NameOf(phase: Phase): string
    requires !phase.Snapped?
  {
    TempName(phase.thread, phase.ticket % GENERATIONS)
  }

  datatype Event =
    | Change(jobs: map<Id, Job>)
    | Snap(w: nat, list: seq<Job>)
    | Name(w: nat, thread: nat)
    | OpenTemp(w: nat)
    | Finish(w: nat)
    | GiveUp(w: nat)                          // writing failed: the temporary file stays as it is
    | Rename(w: nat)
    | RenameFails(w: nat)

  ghost predicate Possible(d: Disk, e: Event) {
    match e
    case Change(_) => true
    case Snap(w, list) => w !in d.writers && |d.past| > 0 && IsListing(list, d.past[|d.past| - 1])
    case Name(w, _) => w in d.writers && d.writers[w].phase.Snapped?
    case OpenTemp(w) => w in d.writers && d.writers[w].phase.Named?
    case Finish(w) => w in d.writers && d.writers[w].phase.Opened?
    case GiveUp(w) => w in d.writers && (d.writers[w].phase.Named? || d.writers[w].phase.Opened?)
    case Rename(w) => w in d.writers && d.writers[w].phase.Written? && NameOf(d.writers[w].phase) in d.files
    case RenameFails(w) => w in d.writers && d.writers[w].phase.Written?
  }

  function To(d: Disk, w: nat, phase: Phase): Disk
    requires w in d.writers
  {
    d.(writers := d.writers[w := d.writers[w].(phase := phase)])
  }

  function Next(d: Disk, e: Event): Disk
    requires Possible(d, e)
  {
    match e
    case Change(jobs) => d.(past := d.past + [jobs])
    case Snap(w, list) => d.(writers := d.writers[w := Writer(|d.past| - 1, Persisted(list), Snapped)])
    case Name(w, thread) => To(d, w, Named(thread, d.started)).(started := d.started + 1)
    case OpenTemp(w) =>
      var p := d.writers[w].phase;
      To(d, w, Opened(p.thread, p.ticket)).(files := d.files[NameOf(p) := Torn])
    case Finish(w) =>
      var p := d.writers[w].phase;
      To(d, w, Written(p.thread, p.ticket)).(files := d.files[NameOf(p) := Whole(d.writers[w].at, d.writers[w].image)])
    case GiveUp(w) => d.(writers := d.writers - {w})
    case Rename(w) =>
      var tmp := NameOf(d.writers[w].phase);
      d.(writers := d.writers - {w}, files := (d.files - {tmp})[HISTORY_FILE := d.files[tmp]])
    case RenameFails(w) =>
      d.(writers := d.writers - {w}, files := d.files - {NameOf(d.writers[w].phase)})
  }

  /** A process starts with one job map, no writer, and whatever files its predecessors left. */
  predicate AtStart(d: Disk) {
    && |d.past| == 1 && d.started == 0 && d.writers == map[]
    && forall name :: name in d.files ==> !d.files[name].Whole?
  }

  ghost predicate IsDiskRun(disks: seq<Disk>, events: seq<Event>) {
    && |disks| == |events| + 1
    && AtStart(disks[0])
    && forall i {:trigger events[i]} :: 0 <= i < |events| ==>
         Possible(disks[i], events[i]) && disks[i + 1] == Next(disks[i], events[i])
  }

  lemma DiskStep(disks: seq<Disk>, events: seq<Event>, i: nat)
    requires IsDiskRun(disks, events) && i < |events|
    ensures Possible(disks[i], events[i]) && disks[i + 1] == Next(disks[i], events[i])
  {
  }

  /** The image that persisting the job map number `at` produces, for some listing of that map. */
  ghost predicate IsImage(past: seq<map<Id, Job>>, at: nat, image: seq<Job>) {
    at < |past| && exists list :: IsListing(list, past[at]) && image == Persisted(list)
  }

  function HistoryOf(d: Disk): Option<Content> {
    if HISTORY_FILE in d.files then Some(d.files[HISTORY_FILE]) else None
  }

  ghost predicate WriterOk(d: Disk, w: Writer) {
    && IsImage(d.past, w.at, w.image)
    && (!w.phase.Snapped? ==> w.phase.ticket < d.started)
    && (w.phase.Written? ==> NameOf(w.phase) in d.files && d.files[NameOf(w.phase)] == Whole(w.at, w.image))
  }

  ghost predicate TicketsDiffer(writers: map<nat, Writer>) {
    forall v, w :: v in writers && w in writers && v != w
                   && !writers[v].phase.Snapped? && !writers[w].phase.Snapped? ==>
      writers[v].phase.ticket != writers[w].phase.ticket
  }

  ghost predicate HistoryOk(d: Disk, preboot: Option<Content>) {
    || HistoryOf(d) == preboot
    || (HistoryOf(d).Some? && HistoryOf(d).value.Whole?
        && IsImage(d.past, HistoryOf(d).value.at, HistoryOf(d).value.image))
  }

  ghost predicate DiskInv(d: Disk, preboot: Option<Content>) {
    && (forall w :: w in d.writers ==> WriterOk(d, d.writers[w]))
    && TicketsDiffer(d.writers)
    && HistoryOk(d, preboot)
  }

  /** As long as the counter has not wrapped, different tickets make different names. */
  lemma NamesDiffer(p: Phase, q: Phase)
    requires !p.Snapped? && !q.Snapped?
    requires p.ticket < GENERATIONS && q.ticket < GENERATIONS && p.ticket != q.ticket
    ensures NameOf(p) != NameOf(q)
  {
    hide TempName;
    assert p.ticket % GENERATIONS == p.ticket && q.ticket % GENERATIONS == q.ticket;
    TempNamesAreUnique(p.thread, p.ticket, q.thread, q.ticket);
  }

  lemma NotTheHistory(phase: Phase)
    requires !phase.Snapped?
    ensures NameOf(phase) != HISTORY_FILE
  {
    TempNamesAreUnique(phase.thread, phase.ticket % GENERATIONS, 0, 0);
  }

  lemma GrowsPast(d: Disk, jobs: map<Id, Job>, preboot: Option<Content>)
    requires DiskInv(d, preboot)
    ensures DiskInv(Next(d, Change(jobs)), preboot)
  {
    var past' := d.past + [jobs];
    forall at: nat, image | IsImage(d.past, at, image)
      ensures IsImage(past', at, image)
    {
      assert past'[at] == d.past[at];
    }
  }

  /** Writing or removing one writer's temporary file leaves every other writer's file alone. */
  lemma OthersKeepTheirFiles(d: Disk, e: Event, w: nat, v: nat)
    requires Possible(d, e) && (e == OpenTemp(w) || e == Finish(w) || e == Rename(w) || e == RenameFails(w))
    requires d.started <= GENERATIONS && TicketsDiffer(d.writers)
    requires v in d.writers && v != w && WriterOk(d, d.writers[v]) && WriterOk(d, d.writers[w])
    ensures v in Next(d, e).writers && WriterOk(Next(d, e), d.writers[v])
  {
    NotTheHistory(d.writers[w].phase);
    if d.writers[v].phase.Written? {
      NamesDiffer(d.writers[v].phase, d.writers[w].phase);
      NotTheHistory(d.writers[v].phase);
    }
  }

  lemma FileEventKeepsHistory(d: Disk, e: Event, preboot: Option<Content>, w: nat)
    requires Possible(d, e) && (e == OpenTemp(w) || e == Finish(w) || e == Rename(w) || e == RenameFails(w))
    requires WriterOk(d, d.writers[w]) && HistoryOk(d, preboot)
    ensures HistoryOk(Next(d, e), preboot)
    ensures w in Next(d, e).writers ==> WriterOk(Next(d, e), Next(d, e).writers[w])
  {
    NotTheHistory(d.writers[w].phase);
  }

  lemma FileEventKeepsTickets(d: Disk, e: Event, w: nat)
    requires TicketsDiffer(d.writers) && Possible(d, e)
    requires e == OpenTemp(w) || e == Finish(w) || e == Rename(w) || e == RenameFails(w)
    ensures TicketsDiffer(Next(d, e).writers)
    ensures forall v :: v in Next(d, e).writers && v != w ==> v in d.writers && Next(d, e).writers[v] == d.writers[v]
  {
  }

  lemma FileEventKeeps(d: Disk, e: Event, preboot: Option<Content>, w: nat)
    requires DiskInv(d, preboot) && d.started <= GENERATIONS && Possible(d, e)
    requires e == OpenTemp(w) || e == Finish(w) || e == Rename(w) || e == RenameFails(w)
    ensures DiskInv(Next(d, e), preboot)
  {
    hide Next, WriterOk, HistoryOk, TicketsDiffer, NameOf;
    forall v | v in d.writers && v != w
      ensures v in Next(d, e).writers && WriterOk(Next(d, e), d.writers[v])
    {
      OthersKeepTheirFiles(d, e, w, v);
    }
    FileEventKeepsHistory(d, e, preboot, w);
    FileEventKeepsTickets(d, e, w);
  }

  lemma SnapKeeps(d: Disk, w: nat, list: seq<Job>, preboot: Option<Content>)
    requires DiskInv(d, preboot) && Possible(d, Snap(w, list))
    ensures DiskInv(Next(d, Snap(w, list)), preboot)
  {
    assert IsImage(d.past, |d.past| - 1, Persisted(list));
  }

  lemma NameKeeps(d: Disk, w: nat, thread: nat, preboot: Option<Content>)
    requires DiskInv(d, preboot) && Possible(d, Name(w, thread))
    ensures DiskInv(Next(d, Name(w, thread)), preboot)
  {
  }

  lemma EventKeeps(d: Disk, e: Event, preboot: Option<Content>)
    requires DiskInv(d, preboot) && d.started <= GENERATIONS && Possible(d, e)
    ensures DiskInv(Next(d, e), preboot)
  {
    hide Next;
    match e
    case Change(jobs) => GrowsPast(d, jobs, preboot);
    case Snap(w, list) => SnapKeeps(d, w, list, preboot);
    case Name(w, thread) => NameKeeps(d, w, thread, preboot);
    case GiveUp(w) => GiveUpKeeps(d, w, preboot);
    case OpenTemp(w) => FileEventKeeps(d, e, preboot, w);
    case Finish(w) => FileEventKeeps(d, e, preboot, w);
    case Rename(w) => FileEventKeeps(d, e, preboot, w);
    case RenameFails(w) => FileEventKeeps(d, e, preboot, w);
  }

  lemma GiveUpKeeps(d: Disk, w: nat, preboot: Option<Content>)
    requires DiskInv(d, preboot) && Possible(d, GiveUp(w))
    ensures DiskInv(Next(d, GiveUp(w)), preboot)
  {
  }

  lemma CounterGrows(d: Disk, e: Event)
    requires Possible(d, e)
    ensures d.started <= Next(d, e).started
  {
  }

  lemma {:induction false} DiskInvAlongRun(disks: seq<Disk>, events: seq<Event>, i: nat)
    requires IsDiskRun(disks, events) && i < |disks| && disks[i].started <= GENERATIONS
    ensures DiskInv(disks[i], HistoryOf(disks[0]))
    decreases i
  {
    if i > 0 {
      DiskStep(disks, events, i - 1);
      CounterGrows(disks[i - 1], events[i - 1]);
      DiskInvAlongRun(disks, events, i - 1);
      EventKeeps(disks[i - 1], events[i - 1], HistoryOf(disks[0]));
    }
  }

  /**
   * At every crash point the history file is the pre-boot file or the complete
   * image of a job map the scheduler really had, never a torn file of its own:
   * for any number of overlapping writers, until the 64-bit counter of
   * temporary names wraps.
   */
  lemma CrashLeavesAnImage(disks: seq<Disk>, events: seq<Event>, i: nat)
    requires IsDiskRun(disks, events) && i < |disks| && disks[i].started <= GENERATIONS
    ensures
      || HistoryOf(disks[i]) == HistoryOf(disks[0])
      || (HistoryOf(disks[i]).Some? && HistoryOf(disks[i]).value.Whole?
          && IsImage(disks[i].past, HistoryOf(disks[i]).value.at, HistoryOf(disks[i]).value.image))
  {
    DiskInvAlongRun(disks, events, i);
  }

  /** The jobs of a map that are written, if there is room. */
  function EligibleIds(jobs: map<Id, Job>): set<Id> {
    set k | k in jobs && Eligible(jobs[k])
  }

  /** What starting again finds of a job map: as many of its eligible jobs as are kept, and the newest of them. */
  ghost predicate FindsTheNewest(found: map<Id, Job>, jobs: map<Id, Job>, boot: Option<string>) {
    && (forall k :: k in found ==> k in jobs && Eligible(jobs[k]) && IsOutcomeOf(found[k], jobs[k], boot))
    && |found| == (if |EligibleIds(jobs)| <= RETENTION then |EligibleIds(jobs)| else RETENTION)
    && (forall k, f :: k in EligibleIds(jobs) && k !in found && f in found ==>
          found[f].createdAt >= jobs[k].createdAt)
  }

  lemma {:induction false} SingleOccurrence(jobs: seq<Job>, job: Job)
    requires DistinctIds(jobs)
    ensures multiset(jobs)[job] <= 1
    decreases |jobs|
  {
    if jobs != [] {
      var init := jobs[..|jobs| - 1];
      assert jobs == init + [jobs[|jobs| - 1]];
      SingleOccurrence(init, job);
    }
  }

  lemma DistinctPart(part: seq<Job>, jobs: seq<Job>)
    requires DistinctIds(jobs) && multiset(part) <= multiset(jobs)
    ensures DistinctIds(part)
  {
    forall i, j | 0 <= i < j < |part|
      ensures part[i].id != part[j].id
    {
      assert multiset(jobs)[part[i]] >= multiset(part)[part[i]] >= 1;
      assert multiset(jobs)[part[j]] >= multiset(part)[part[j]] >= 1;
      assert part[i] in jobs && part[j] in jobs;
      if part[i] == part[j] {
        TwiceThere(part, i, j);
        SingleOccurrence(jobs, part[i]);
      }
    }
  }

  lemma TwiceThere(part: seq<Job>, i: nat, j: nat)
    requires i < j < |part| && part[i] == part[j]
    ensures multiset(part)[part[i]] >= 2
  {
    assert part == part[..j] + part[j..];
    assert part[..j][i] == part[i] && part[j..][0] == part[j];
  }

  /** The list of eligible jobs has exactly the eligible ids. */
  lemma EligibleListing(list: seq<Job>, jobs: map<Id, Job>)
    requires IsListing(list, jobs)
    ensures EligibleCount(list) == |EligibleIds(jobs)|
  {
    var all := EligibleOf(list);
    EligibleOfCounts(list);
    forall job
      ensures multiset(all)[job] == if Eligible(job) then multiset(list)[job] else 0
    {
      EligibleOfIsExact(list, job);
    }
    DistinctPart(all, list);
    IdsAreFew(all);
    forall k
      ensures k in IdsOf(all) <==> k in EligibleIds(jobs)
    {
      HasIdMeansListed(list, k);
      if k in EligibleIds(jobs) {
        assert multiset(all)[jobs[k]] == multiset(list)[jobs[k]] > 0 by {
          var i :| 0 <= i < |list| && list[i].id == k;
        }
        assert jobs[k] in all;
      }
      if job :| job in all && job.id == k {
        assert multiset(list)[job] > 0 && Eligible(job);
      }
    }
    assert IdsOf(all) == EligibleIds(jobs);
  }

  lemma FoundWasPersisted(list: seq<Job>, jobs: map<Id, Job>, clock: nat -> Time, boot: Option<string>, k: Id)
    requires IsListing(list, jobs)
    ensures
      var found := BootJobs(Persisted(list), clock, boot);
      k in found ==>
        k in jobs && jobs[k] in Persisted(list) && Eligible(jobs[k]) && IsOutcomeOf(found[k], jobs[k], boot)
  {
    BootIsTotal(Persisted(list), clock, boot, k);
    if k in BootJobs(Persisted(list), clock, boot) {
      var persisted :| persisted in Persisted(list) && persisted.id == k
        && IsOutcomeOf(BootJobs(Persisted(list), clock, boot)[k], persisted, boot);
      RetentionIsExact(list);
      assert multiset(Persisted(list))[persisted] <= multiset(list)[persisted];
      assert persisted in list;
    }
  }

  lemma FoundCount(list: seq<Job>, jobs: map<Id, Job>, clock: nat -> Time, boot: Option<string>)
    requires IsListing(list, jobs)
    ensures |BootJobs(Persisted(list), clock, boot)| == |Persisted(list)|
  {
    var found := BootJobs(Persisted(list), clock, boot);
    RetentionIsExact(list);
    DistinctPart(Persisted(list), list);
    IdsAreFew(Persisted(list));
    forall k
      ensures k in found.Keys <==> k in IdsOf(Persisted(list))
    {
      BootIsTotal(Persisted(list), clock, boot, k);
      HasIdMeansListed(Persisted(list), k);
    }
    assert found.Keys == IdsOf(Persisted(list));
  }

  lemma MissingIsNoNewer(list: seq<Job>, jobs: map<Id, Job>, clock: nat -> Time, boot: Option<string>, k: Id, f: Id)
    requires IsListing(list, jobs) && k in EligibleIds(jobs)
    ensures
      var found := BootJobs(Persisted(list), clock, boot);
      k !in found && f in found ==> found[f].createdAt >= jobs[k].createdAt
  {
    var found := BootJobs(Persisted(list), clock, boot);
    BootIsTotal(Persisted(list), clock, boot, k);
    HasIdMeansListed(Persisted(list), k);
    FoundWasPersisted(list, jobs, clock, boot, f);
    RetentionIsExact(list);
    if k !in found && f in found {
      assert jobs[k] in list by {
        var i :| 0 <= i < |list| && list[i].id == k;
      }
      assert jobs[k].id == k;
      assert jobs[k] !in Persisted(list);
      assert multiset(Persisted(list))[jobs[k]] == 0 < multiset(list)[jobs[k]];
      assert jobs[f] in Persisted(list) && found[f].createdAt == jobs[f].createdAt;
    }
  }

  /** Persisting a job map and starting again finds its newest eligible jobs. */
  lemma PersistThenBoot(list: seq<Job>, jobs: map<Id, Job>, clock: nat -> Time, boot: Option<string>)
    requires IsListing(list, jobs)
    ensures FindsTheNewest(BootJobs(Persisted(list), clock, boot), jobs, boot)
  {
    RetentionIsExact(list);
    EligibleListing(list, jobs);
    FoundCount(list, jobs, clock, boot);
    hide BootJobs, Persisted, IsListing;
    var found := BootJobs(Persisted(list), clock, boot);
    forall k | k in found
      ensures k in jobs && Eligible(jobs[k]) && IsOutcomeOf(found[k], jobs[k], boot)
    {
      FoundWasPersisted(list, jobs, clock, boot, k);
    }
    forall k, f | k in EligibleIds(jobs) && k !in found && f in found
      ensures found[f].createdAt >= jobs[k].createdAt
    {
      MissingIsNoNewer(list, jobs, clock, boot, k, f);
    }
  }

  /**
   * Crash, then start again: what is found are the outcomes of the newest
   * eligible jobs of one single earlier job map, and of all of them unless
   * there are more than are kept.
   */
  lemma CrashThenBoot(disks: seq<Disk>, events: seq<Event>, i: nat, clock: nat -> Time, boot: Option<string>)
    returns (at: nat)
    requires IsDiskRun(disks, events) && i < |disks| && disks[i].started <= GENERATIONS
    requires HistoryOf(disks[i]) != HistoryOf(disks[0])
    ensures at < |disks[i].past| && HistoryOf(disks[i]).Some? && HistoryOf(disks[i]).value.Whole?
    ensures FindsTheNewest(BootJobs(HistoryOf(disks[i]).value.image, clock, boot), disks[i].past[at], boot)
  {
    CrashLeavesAnImage(disks, events, i);
    at := HistoryOf(disks[i]).value.at;
    var list :| IsListing(list, disks[i].past[at]) && HistoryOf(disks[i]).value.image == Persisted(list);
    PersistThenBoot(list, disks[i].past[at], clock, boot);
  }
}
