/** Runners that show both sides of the retry condition for a request to apply everything. */
module RetryWitnesses {
  import opened Wrappers
  import opened Text
  import opened Apt
  import opened AptLaws
  import opened FetchTexts
  import opened AptRetries

  const HELD_PACKAGE := "linux-image-404"
  const CHANGED := "held packages were changed"
  const OPTION := "--allow-change-held-packages"

  /** Only `dist-upgrade` fails: the runner reports an error, because of a held kernel. */
  function HeldRunner(t: Trace, c: Command): Answer {
    if c == SHOWHOLD then Ran(Some(0), HELD_PACKAGE, "", "")
    else if c == AptGet(DIST_UPGRADE) then Broke(Failure("", Some(CHANGED + OPTION)))
    else Ran(Some(0), "", "", "")
  }

  const NOT_FOUND := "404 not found"

  /** Only `dist-upgrade` fails: the runner reports an error, because a package was not found. */
  function MissingRunner(t: Trace, c: Command): Answer {
    if c == AptGet(DIST_UPGRADE) then Broke(Failure(NOT_FOUND, Some(NOT_FOUND)))
    else Ran(Some(0), "", "", "")
  }

  lemma ProgramsDiffer(args: seq<string>)
    ensures CONFIGURE != SHOWHOLD && AUDIT != SHOWHOLD && AptGet(args) != SHOWHOLD
    ensures CONFIGURE != AptGet(args) && AUDIT != AptGet(args)
    ensures AptGet(REFRESH) != AptGet(DIST_UPGRADE)
  {
    assert CONFIGURE.program[0] == 'd' && AUDIT.program[0] == 'd' && SHOWHOLD.program[0] == 'a';
    assert AptGet(args).program[4] == 'g' && SHOWHOLD.program[4] == 'm';
    assert REFRESH[0][0] == 'u' && DIST_UPGRADE[0][0] == 'd';
  }

  /** The answers to everything but the failing command are clean. */
  ghost predicate IsQuietRunner(runner: Runner) {
    && (forall t :: runner(t, CONFIGURE) == Ran(Some(0), "", "", ""))
    && (forall t :: runner(t, AUDIT) == Ran(Some(0), "", "", ""))
  }

  lemma QuietRunSucceeds(runner: Runner, t: Trace, args: seq<string>)
    requires IsQuietRunner(runner) && forall u :: runner(u, AptGet(args)) == Ran(Some(0), "", "", "")
    ensures RunApt(runner, t, args).1.Ok?
  {
    assert IsBlank("");
  }

  lemma QuietRunBreaks(runner: Runner, t: Trace, args: seq<string>, failure: Failure)
    requires IsQuietRunner(runner) && forall u :: runner(u, AptGet(args)) == Broke(failure)
    ensures
      var (t', r) := RunApt(runner, t, args);
      && r == Err(failure.Context(APT_FAILED)) && |t'| >= 2
      && t'[|t'| - 1].command == CONFIGURE && t'[|t'| - 2] == Exchange(AptGet(args), Broke(failure))
  {
  }

  lemma HeldTextsAreLower()
    ensures Lower(CHANGED + OPTION) == CHANGED + OPTION
  {
    assert Lower("held packages were changed") == "held packages were changed";
    assert Lower("--allow-change-held-packages") == "--allow-change-held-packages";
    LowerConcat(CHANGED, OPTION);
  }

  lemma HoldsBlock(failure: Failure)
    requires failure.stderr == Some(CHANGED + OPTION)
    ensures BlockedByHolds(failure)
  {
    HeldTextsAreLower();
    var s := CHANGED + OPTION;
    assert s[0..0 + |CHANGED|] == CHANGED && OccursAt(s, CHANGED, 0);
    assert s[|CHANGED|..|CHANGED| + |OPTION|] == OPTION && OccursAt(s, OPTION, |CHANGED|);
  }

  lemma HeldPackageReadsLikeFetchError()
    ensures Trim(HELD_PACKAGE) == HELD_PACKAGE && IsFetchText(HELD_PACKAGE)
  {
    var s := Lower("linux-image-404");
    assert |"linux-image-404"| == 15;
    assert s[12] == '4' && s[13] == '0' && s[14] == '4';
    assert s[12..12 + 3] == "404";
    assert OccursAt(s, "404", 12);
  }

  lemma HeldRunnerAnswers()
    ensures IsQuietRunner(HeldRunner)
    ensures forall t :: HeldRunner(t, AptGet(REFRESH)) == Ran(Some(0), "", "", "")
    ensures forall t :: HeldRunner(t, AptGet(FIX_BROKEN)) == Ran(Some(0), "", "", "")
    ensures forall t :: HeldRunner(t, AptGet(UPGRADE)) == Ran(Some(0), "", "", "")
    ensures forall t :: HeldRunner(t, AptGet(DIST_UPGRADE)) == Broke(Failure("", Some(CHANGED + OPTION)))
    ensures forall t :: HeldRunner(t, SHOWHOLD) == Ran(Some(0), HELD_PACKAGE, "", "")
  {
    ProgramsDiffer(REFRESH);
    ProgramsDiffer(FIX_BROKEN);
    ProgramsDiffer(UPGRADE);
    ProgramsDiffer(DIST_UPGRADE);
    CommandsDiffer(None);
  }

  /** Under this runner applying everything fails with the list of holds in its message. */
  lemma HeldApplyFails(t: Trace)
    ensures ApplyPatches(HeldRunner, t, None).1 == Err(HeldFailure(HELD_PACKAGE))
  {
    HeldRunnerAnswers();
    HeldPackageReadsLikeFetchError();
    hide RunApt, BlockedByHolds, IsFetchText, Trim, HeldFailure, IsQuietRunner;
    QuietRunSucceeds(HeldRunner, t, FIX_BROKEN);
    var t1 := RunApt(HeldRunner, t, FIX_BROKEN).0;
    var failure := Failure("", Some(CHANGED + OPTION));
    QuietRunBreaks(HeldRunner, t1, DIST_UPGRADE, failure);
    HoldsBlock(failure.Context(APT_FAILED));
    var t2 := RunApt(HeldRunner, t1, DIST_UPGRADE).0;
    QuietRunSucceeds(HeldRunner, Issue(HeldRunner, t2, SHOWHOLD), UPGRADE);
  }

  /**
   * A `dist-upgrade` that the runner reports as an error is retried all the
   * same, because the name of a held package contains "404".
   */
  lemma HeldNameTriggersRetry(t: Trace)
    ensures RunApt(HeldRunner, t, REFRESH).1.Ok?
    ensures PatchTransaction(HeldRunner, t, None) != ApplyPatches(HeldRunner, RunApt(HeldRunner, t, REFRESH).0, None)
  {
    HeldRunnerAnswers();
    QuietRunSucceeds(HeldRunner, t, REFRESH);
    HeldApplyFails(RunApt(HeldRunner, t, REFRESH).0);
    HeldPackageReadsLikeFetchError();
    HeldMessage(HELD_PACKAGE);
    hide RunApt, ApplyPatches, IsFetchText, HeldFailure;
    RetryExtends(HeldRunner, t, None);
  }

  // ------------------------------------------------------- a missing package

  lemma MissingRunnerAnswers()
    ensures IsQuietRunner(MissingRunner)
    ensures forall t :: MissingRunner(t, AptGet(REFRESH)) == Ran(Some(0), "", "", "")
    ensures forall t :: MissingRunner(t, AptGet(FIX_BROKEN)) == Ran(Some(0), "", "", "")
    ensures forall t :: MissingRunner(t, AptGet(DIST_UPGRADE)) == Broke(Failure(NOT_FOUND, Some(NOT_FOUND)))
  {
    ProgramsDiffer(REFRESH);
    ProgramsDiffer(FIX_BROKEN);
    ProgramsDiffer(DIST_UPGRADE);
    CommandsDiffer(None);
  }

  /** A short text that contains none of the phrases: no 'h', 'b' or 'p'. */
  lemma NotFoundIsNoOtherTrouble(failure: Failure)
    requires failure.stderr == Some(NOT_FOUND)
    ensures !BlockedByHolds(failure) && !LooksLikeDependency(failure)
  {
    var s := Lower("404 not found");
    assert |"404 not found"| == 13;
    assert forall i :: 0 <= i < |s| ==> s[i] != 'h' && s[i] != 'b' && s[i] != 'p';
    forall i | 0 <= i <= |s|
      ensures !OccursAt(s, "held packages were changed", i) && !OccursAt(s, "unmet dependencies", i)
      ensures !OccursAt(s, "broken", i) && !OccursAt(s, "dependency", i)
    {
      if i + 6 <= |s| {
        assert s[i..i + 6][0] == s[i];
        assert "broken"[0] == 'b';
      }
      if i + 10 <= |s| {
        assert s[i..i + 10][2] == s[i + 2];
        assert "dependency"[2] == 'p';
      }
    }
  }

  /** Applying everything fails on "404 not found", and the transaction ends there. */
  lemma MissingPackageIsNotRetried(t: Trace)
    ensures IsFetchText(NOT_FOUND)
    ensures
      var (t1, refreshed) := RunApt(MissingRunner, t, REFRESH);
      && refreshed.Ok? && ApplyPatches(MissingRunner, t1, None).1.Err?
      && PatchTransaction(MissingRunner, t, None) == ApplyPatches(MissingRunner, t1, None)
  {
    assert OccursAt(Lower(NOT_FOUND), "404", 0) by {
      assert Lower("404 not found")[0..3] == "404";
    }
    MissingRunnerAnswers();
    QuietRunSucceeds(MissingRunner, t, REFRESH);
    var t1 := RunApt(MissingRunner, t, REFRESH).0;
    QuietRunSucceeds(MissingRunner, t1, FIX_BROKEN);
    var t2 := RunApt(MissingRunner, t1, FIX_BROKEN).0;
    var failure := Failure(NOT_FOUND, Some(NOT_FOUND));
    QuietRunBreaks(MissingRunner, t2, DIST_UPGRADE, failure);
    NotFoundIsNoOtherTrouble(failure.Context(APT_FAILED));
    hide RunApt, BlockedByHolds, LooksLikeDependency, IsFetchText, PatchTransaction;
    assert ApplyPatches(MissingRunner, t1, None) == RunApt(MissingRunner, t2, DIST_UPGRADE);
    BrokenCommandIsNotRetried(MissingRunner, t, None);
  }
}
