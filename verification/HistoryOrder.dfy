/**
 * Whether the history file on disk can go back to an older job map: each writer
 * writes the newest job map it saw, but a slower one may rename last.
 */
module HistoryOrder {
  import opened Wrappers
  import opened SchedulerState
  import opened Persistence
  import opened Boot
  import opened CrashSafety

  /** The number of the job map on disk; -1 for a file of an earlier process. */
  function Version(d: Disk): int {
    if HistoryOf(d).Some? && HistoryOf(d).value.Whole? then HistoryOf(d).value.at else -1
  }

  lemma RenameInstalls(d: Disk, w: nat)
    requires Possible(d, Rename(w)) && WriterOk(d, d.writers[w])
    ensures Version(Next(d, Rename(w))) == d.writers[w].at
  {
  }

  lemma OthersKeepVersion(d: Disk, e: Event)
    requires Possible(d, e) && !e.Rename?
    ensures Version(Next(d, e)) == Version(d)
  {
    hide NameOf, IsListing, Persisted;
    if e.OpenTemp? || e.Finish? || e.RenameFails? {
      NotTheHistory(d.writers[e.w].phase);
    }
  }

  lemma VersionChanges(d: Disk, e: Event, preboot: Option<Content>)
    requires DiskInv(d, preboot) && Possible(d, e)
    ensures Version(Next(d, e)) == if e.Rename? then d.writers[e.w].at else Version(d)
  {
    hide Version, Next, WriterOk;
    if e.Rename? {
      RenameInstalls(d, e.w);
    } else {
      OthersKeepVersion(d, e);
    }
  }

  lemma RunLength(disks: seq<Disk>, events: seq<Event>)
    requires IsDiskRun(disks, events)
    ensures |disks| == |events| + 1
  {
  }

  lemma {:induction false} CounterAlongRun(disks: seq<Disk>, events: seq<Event>, i: nat, j: nat)
    requires IsDiskRun(disks, events) && i <= j < |disks|
    ensures disks[i].started <= disks[j].started
    decreases j
  {
    if i < j {
      DiskStep(disks, events, j - 1);
      CounterGrows(disks[j - 1], events[j - 1]);
      CounterAlongRun(disks, events, i, j - 1);
    }
  }

  lemma DiskInvBefore(disks: seq<Disk>, events: seq<Event>, i: nat)
    requires IsDiskRun(disks, events) && i < |disks| && disks[|events|].started <= GENERATIONS
    ensures DiskInv(disks[i], HistoryOf(disks[0]))
  {
    CounterAlongRun(disks, events, i, |events|);
    DiskInvAlongRun(disks, events, i);
  }

  /** The event is no rename, or its writer's copy is at least as new as the file it replaces. */
  predicate RenamesForward(d: Disk, e: Event) {
    e.Rename? ==> e.w in d.writers && d.writers[e.w].at >= Version(d)
  }

  lemma ForwardStep(disks: seq<Disk>, events: seq<Event>, i: nat)
    requires IsDiskRun(disks, events) && i < |events| && disks[|events|].started <= GENERATIONS
    ensures Version(disks[i]) <= Version(disks[i + 1]) <==> RenamesForward(disks[i], events[i])
  {
    DiskInvBefore(disks, events, i);
    DiskStep(disks, events, i);
    VersionChanges(disks[i], events[i], HistoryOf(disks[0]));
  }

  lemma {:induction false} ForwardAlongRun(disks: seq<Disk>, events: seq<Event>, i: nat, j: nat)
    requires IsDiskRun(disks, events) && i <= j < |disks| && disks[|events|].started <= GENERATIONS
    requires forall m :: 0 <= m < |events| ==> RenamesForward(disks[m], events[m])
    ensures Version(disks[i]) <= Version(disks[j])
    decreases j
  {
    hide IsDiskRun, Version, RenamesForward;
    RunLength(disks, events);
    if i < j {
      ForwardAlongRun(disks, events, i, j - 1);
      ForwardStep(disks, events, j - 1);
    }
  }

  /**
   * The file on disk never goes back to an older job map if and only if every
   * writer, when it renames, holds a copy at least as new as the file.
   */
  lemma NeverGoesBack(disks: seq<Disk>, events: seq<Event>)
    requires IsDiskRun(disks, events) && disks[|events|].started <= GENERATIONS
    ensures (forall i, j :: 0 <= i <= j < |disks| ==> Version(disks[i]) <= Version(disks[j]))
            <==> (forall m :: 0 <= m < |events| ==> RenamesForward(disks[m], events[m]))
  {
    if forall m :: 0 <= m < |events| ==> RenamesForward(disks[m], events[m]) {
      forall i, j | 0 <= i <= j < |disks|
        ensures Version(disks[i]) <= Version(disks[j])
      {
        ForwardAlongRun(disks, events, i, j);
      }
    } else {
      var m :| 0 <= m < |events| && !RenamesForward(disks[m], events[m]);
      ForwardStep(disks, events, m);
      assert Version(disks[m]) > Version(disks[m + 1]);
    }
  }

  // ------------------------------------------------------------ one at a time

  /** A writer copies the job map only when no other is at work, as a lock around the calls would ensure. */
  predicate OneAtATime(d: Disk, e: Event) {
    e.Snap? ==> d.writers == map[]
  }

  /** The only writer, if any, holds a copy at least as new as the file. */
  ghost predicate SerialInv(d: Disk) {
    && Version(d) < |d.past|
    && (forall v, w :: v in d.writers && w in d.writers ==> v == w)
    && (forall w :: w in d.writers ==> d.writers[w].at >= Version(d))
  }

  lemma SerialStep(d: Disk, e: Event, preboot: Option<Content>)
    requires DiskInv(d, preboot) && SerialInv(d) && Possible(d, e) && OneAtATime(d, e)
    ensures SerialInv(Next(d, e))
  {
    VersionChanges(d, e, preboot);
    if e.Rename? {
      assert WriterOk(d, d.writers[e.w]);
      assert Next(d, e).writers == map[];
    }
    hide DiskInv, WriterOk, NameOf, IsListing, HistoryOf;
  }

  lemma {:induction false} SerialAlongRun(disks: seq<Disk>, events: seq<Event>, i: nat)
    requires IsDiskRun(disks, events) && i < |disks| && disks[|events|].started <= GENERATIONS
    requires forall m :: 0 <= m < |events| ==> OneAtATime(disks[m], events[m])
    ensures SerialInv(disks[i])
    decreases i
  {
    if i > 0 {
      SerialAlongRun(disks, events, i - 1);
      DiskInvBefore(disks, events, i - 1);
      DiskStep(disks, events, i - 1);
      SerialStep(disks[i - 1], events[i - 1], HistoryOf(disks[0]));
    }
  }

  /** With one writer at a time the file never goes back. */
  lemma SerialWritersNeverGoBack(disks: seq<Disk>, events: seq<Event>)
    requires IsDiskRun(disks, events) && disks[|events|].started <= GENERATIONS
    requires forall m :: 0 <= m < |events| ==> OneAtATime(disks[m], events[m])
    ensures forall i, j :: 0 <= i <= j < |disks| ==> Version(disks[i]) <= Version(disks[j])
  {
    forall m | 0 <= m < |events|
      ensures RenamesForward(disks[m], events[m])
    {
      SerialAlongRun(disks, events, m);
      DiskStep(disks, events, m);
    }
    NeverGoesBack(disks, events);
  }
}
