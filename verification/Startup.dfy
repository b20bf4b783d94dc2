/** The startup sequence (`src/main.rs:282-307`) on the scheduler object. */
module Startup {
  import opened Wrappers
  import opened Jobs
  import opened SchedulerState
  import opened SchedulerObject
  import opened Boot

  /**
   * Startup up to the write-back.  `writeBack` tells whether the recovered
   * state has to be flushed to the history file.
   */
  method LoadAndRecover(history: seq<Job>, concurrent: nat, depth: nat, clock: nat -> Time, boot: Option<string>)
    returns (scheduler: Scheduler, writeBack: bool)
    ensures fresh(scheduler) && scheduler.Valid()
    ensures scheduler.State() == NewScheduler(concurrent, depth).(jobs := BootJobs(history, clock, boot))
    ensures writeBack <==> exists job :: job in history && !job.status.IsTerminal()
  {
    scheduler := new Scheduler(concurrent, depth);
    var terminal, orphans := [], [];
    for i := 0 to |history|
      invariant terminal == TerminalOf(history[..i]) && orphans == OrphansOf(history[..i])
      invariant orphans != [] <==> exists job :: job in history[..i] && !job.status.IsTerminal()
    {
      assert history[..i + 1] == history[..i] + [history[i]];
      if history[i].status.IsTerminal() {
        terminal := terminal + [history[i]];
      } else {
        orphans := orphans + [history[i]];
      }
    }
    assert history[..|history|] == history;
    scheduler.LoadHistory(terminal);
    scheduler.RecoverOrphanedJobs(orphans, clock, boot);
    writeBack := orphans != [];
  }
}
