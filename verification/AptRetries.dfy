/**
 * When a patch transaction refreshes and tries again.  The source decides by a
 * text test on the outermost message of the failure; here the decision is read
 * off the commands that were issued and their answers.
 */
module AptRetries {
  import opened Wrappers
  import opened Text
  import opened Apt
  import opened AptLaws
  import opened FetchTexts

  /** The holds that the last `apt-mark showhold` listed; nothing if it broke. */
  function HoldList(t: Trace): string
    decreases |t|
  {
    if t == [] then ""
    else
      var last := t[|t| - 1];
      if last.command == SHOWHOLD then (if last.answer.Ran? then Trim(last.answer.stdout) else "")
      else HoldList(t[..|t| - 1])
  }

  /**
   * The text on which the retry of a failed apply depends, if any, read off the
   * end of the trace.  `own` are the arguments of the apply's own command.
   *
   * - Its own `apt-get` was completed without success: the summary of that.
   * - It succeeded, but the audit after it broke or stayed dirty: the audit's
   *   message or listing.
   * - The fallback for held packages succeeded: the list of holds.
   *
   * In all other cases (the runner reported an error for an `apt-get`, a
   * configuration broke, a repair or the fallback failed) there is none.
   */
  function DecidingText(t: Trace, own: seq<string>): Option<string> {
    if |t| < 2 then None
    else
      var (before, last) := (t[|t| - 2], t[|t| - 1]);
      if last.command == CONFIGURE then
        if before.command == AptGet(own) && before.answer.Ran? then Some(before.answer.summary) else None
      else if last.command == AUDIT && Gets(t) != [] then
        var get := Gets(t)[|Gets(t)| - 1];
        if get.command == AptGet(own) then
          Some(if last.answer.Broke? then last.answer.failure.message else Trim(last.answer.stdout))
        else if get.command == AptGet(UPGRADE) && EndsClean(t) then Some(HoldList(t))
        else None
      else None
  }

  /** The message of a failure is a fetch error exactly if the deciding text reads like one. */
  predicate Tells(t: Trace, own: seq<string>, message: string) {
    IsFetchText(message) <==> DecidingText(t, own).Some? && IsFetchText(DecidingText(t, own).value)
  }

  /** The last command was no `apt-get`. */
  predicate IsCalm(t: Trace) {
    t != [] ==> !IsAptGet(t[|t| - 1])
  }

  // --------------------------------------------------------- how a run ends

  /** A failed verification ends with a broken or dirty audit, or with a broken configuration after an audit. */
  predicate EndsUnverified(t: Trace, failure: Failure) {
    && |t| >= 2
    && var (before, last) := (t[|t| - 2], t[|t| - 1]);
       || (last.command == AUDIT && last.answer.Broke? && failure.message == last.answer.failure.message)
       || (last.command == AUDIT && last.answer.Ran? && !IsBlank(last.answer.stdout)
           && failure.message == STILL_DIRTY + ": " + Trim(last.answer.stdout))
       || (last.command == CONFIGURE && before.command == AUDIT && failure.message == CONFIGURE_FAILED)
  }

  lemma TimedEnds(runner: Runner, t: Trace, c: Command)
    requires c.program != "apt-get"
    ensures
      var (t', r) := Timed(runner, t, c);
      && Quiet(t, t') && |t'| == |t| + 1 && t' == t + [t'[|t|]] && t'[|t|].command == c
      && (r.Ok? <==> t'[|t|].answer.Ran?)
      && (r.Ok? ==> r.value == t'[|t|].answer.stdout)
      && (r.Err? ==> r.error == t'[|t|].answer.failure)
  {
    TimedShape(runner, t, c);
  }

  lemma VerifyEnds(runner: Runner, t: Trace)
    requires t != []
    ensures
      var (t', r) := VerifyClean(runner, t);
      r.Err? ==> EndsUnverified(t', r.error)
  {
    hide Quiet, Trim, IsBlank, Issue;
    TimedEnds(runner, t, AUDIT);
    var (t1, audit) := Timed(runner, t, AUDIT);
    if audit.Ok? && !IsBlank(audit.value) {
      TimedEnds(runner, t1, CONFIGURE);
      var (t2, cleaned) := EnsureClean(runner, t1);
      if cleaned.Ok? {
        TimedEnds(runner, t2, AUDIT);
      }
    }
  }

  /** A failed guarded command ends in one of three ways. */
  predicate EndsFailed(t: Trace, t': Trace, args: seq<string>, failure: Failure) {
    || (|t'| == |t| + 1 && t <= t' && Gets(t') == Gets(t)
        && t'[|t|].command == CONFIGURE && failure.message == CONFIGURE_FAILED)
    || (|t'| >= 2 && t'[|t'| - 1].command == CONFIGURE && t'[|t'| - 2].command == AptGet(args)
        && failure == AptFailure(t'[|t'| - 2].answer))
    || (Gets(t') != [] && Gets(t')[|Gets(t')| - 1].command == AptGet(args) && EndsUnverified(t', failure))
  }

  lemma RunAptEnds(runner: Runner, t: Trace, args: seq<string>)
    ensures
      var (t', r) := RunApt(runner, t, args);
      r.Err? ==> EndsFailed(t, t', args, r.error) && IsCalm(t')
  {
    EnsureCleanShape(runner, t);
    var (t1, clean) := EnsureClean(runner, t);
    if clean.Ok? {
      var t2 := Issue(runner, t1, AptGet(args));
      GetsOfIssue(runner, t1, AptGet(args));
      if runner(t1, AptGet(args)).Success() {
        VerifyCleanShape(runner, t2);
        VerifyEnds(runner, t2);
      } else {
        EnsureCleanShape(runner, t2);
      }
    }
  }

  // --------------------------------------------------------- what it tells

  lemma UnverifiedTells(t: Trace, own: seq<string>, failure: Failure)
    requires EndsUnverified(t, failure)
    requires Gets(t) != [] && Gets(t)[|Gets(t)| - 1].command == AptGet(own)
    ensures Tells(t, own, failure.message)
  {
    FixedMessagesAreHarmless();
    hide IsFetchText, Trim, Gets;
    var last := t[|t| - 1];
    if last.command == AUDIT && last.answer.Ran? {
      DirtyMessage(Trim(last.answer.stdout));
    }
  }

  lemma OwnTells(runner: Runner, t: Trace, own: seq<string>)
    requires IsCalm(t)
    ensures
      var (t', r) := RunApt(runner, t, own);
      r.Err? ==> Tells(t', own, r.error.message) && IsCalm(t')
  {
    RunAptEnds(runner, t, own);
    FixedMessagesAreHarmless();
    var (t', r) := RunApt(runner, t, own);
    hide RunApt, IsFetchText, Gets, EndsUnverified;
    if r.Err? {
      if Gets(t') != [] && Gets(t')[|Gets(t')| - 1].command == AptGet(own) && EndsUnverified(t', r.error) {
        UnverifiedTells(t', own, r.error);
      } else if |t'| == |t| + 1 && t <= t' && t'[|t|].command == CONFIGURE && r.error.message == CONFIGURE_FAILED {
        assert t != [] ==> t'[|t'| - 2] == t[|t| - 1];
        assert DecidingText(t', own) == None;
      } else {
        assert t'[|t'| - 2].command == AptGet(own) && r.error == AptFailure(t'[|t'| - 2].answer);
      }
    }
  }

  /** A failed repair or fallback decides nothing. */
  lemma OtherTellsNothing(runner: Runner, t: Trace, args: seq<string>, own: seq<string>)
    requires IsCalm(t) && AptGet(args) != AptGet(own)
    ensures
      var (t', r) := RunApt(runner, t, args);
      r.Err? ==> DecidingText(t', own) == None && IsCalm(t')
  {
    RunAptEnds(runner, t, args);
    hide RunApt, IsFetchText, Gets, Trim;
  }

  lemma RunAptIsCalm(runner: Runner, t: Trace, args: seq<string>)
    ensures RunApt(runner, t, args).1.Ok? ==> IsCalm(RunApt(runner, t, args).0)
  {
    RunAptShape(runner, t, args);
  }

  /** No `apt-mark showhold` was issued after `t`. */
  predicate NoHoldsSince(t: Trace, t': Trace) {
    t <= t' && forall i :: |t| <= i < |t'| ==> t'[i].command != SHOWHOLD
  }

  lemma {:induction false} HoldListStays(t: Trace, t': Trace)
    requires NoHoldsSince(t, t')
    ensures HoldList(t') == HoldList(t)
    decreases |t'|
  {
    if |t'| > |t| {
      HoldListStays(t, t'[..|t'| - 1]);
    } else {
      assert t' == t;
    }
  }

  lemma HoldsAreTransitive(t: Trace, t': Trace, t'': Trace)
    requires NoHoldsSince(t, t') && NoHoldsSince(t', t'')
    ensures NoHoldsSince(t, t'')
  {
  }

  lemma VerifyListsNoHolds(runner: Runner, t: Trace)
    ensures NoHoldsSince(t, VerifyClean(runner, t).0)
  {
    hide IsBlank, Trim;
    var (t1, audit) := Timed(runner, t, AUDIT);
    var t2 := EnsureClean(runner, t1).0;
    var t3 := Timed(runner, t2, AUDIT).0;
    assert NoHoldsSince(t, t1) && NoHoldsSince(t1, t2) && NoHoldsSince(t2, t3);
    HoldsAreTransitive(t, t1, t2);
    HoldsAreTransitive(t, t2, t3);
    assert VerifyClean(runner, t).0 in {t1, t2, t3};
  }

  lemma RunAptListsNoHolds(runner: Runner, t: Trace, args: seq<string>)
    ensures NoHoldsSince(t, RunApt(runner, t, args).0)
  {
    var (t1, clean) := EnsureClean(runner, t);
    var t2 := Issue(runner, t1, AptGet(args));
    var t3 := EnsureClean(runner, t2).0;
    var t4 := VerifyClean(runner, t2).0;
    assert NoHoldsSince(t, t1) && NoHoldsSince(t1, t2) && NoHoldsSince(t2, t3);
    VerifyListsNoHolds(runner, t2);
    HoldsAreTransitive(t, t1, t2);
    HoldsAreTransitive(t, t2, t3);
    HoldsAreTransitive(t, t2, t4);
    hide VerifyClean, EnsureClean, NoHoldsSince;
    assert RunApt(runner, t, args).0 in {t1, t3, t4};
  }

  lemma OwnIsNoUpgrade(packages: Option<seq<string>>)
    ensures AptGet(UPGRADE) != AptGet(ApplyArgs(packages)) && AptGet(FIX_BROKEN) != AptGet(ApplyArgs(packages))
  {
    CommandsDiffer(packages);
  }

  /** The fallback lists the holds, and a successful one ends with a clean audit after an `upgrade`. */
  lemma FallbackEnds(runner: Runner, t: Trace, own: seq<string>)
    requires AptGet(UPGRADE) != AptGet(own)
    ensures
      var (t', r) := Fallback(runner, t);
      && (r.Err? ==> DecidingText(t', own) == None && IsCalm(t'))
      && (r.Ok? ==> DecidingText(t', own) == Some(r.value) && IsCalm(t'))
  {
    TimedEnds(runner, t, SHOWHOLD);
    var (t1, shown) := Timed(runner, t, SHOWHOLD);
    var held := if shown.Ok? then Trim(shown.value) else "";
    assert t1[..|t1| - 1] == t;
    assert HoldList(t1) == held;
    var (t2, upgraded) := RunApt(runner, t1, UPGRADE);
    RunAptShape(runner, t1, UPGRADE);
    RunAptListsNoHolds(runner, t1, UPGRADE);
    HoldListStays(t1, t2);
    OtherTellsNothing(runner, t1, UPGRADE, own);
    hide RunApt, Timed, HoldList, Trim, Guarded, DecidingText, EndsClean;
    if upgraded.Ok? {
      UpgradeTellsHolds(t2, own);
    }
  }

  lemma UpgradeTellsHolds(t: Trace, own: seq<string>)
    requires EndsClean(t) && |t| >= 2 && AptGet(UPGRADE) != AptGet(own)
    requires Gets(t) != [] && Gets(t)[|Gets(t)| - 1].command == AptGet(UPGRADE)
    ensures DecidingText(t, own) == Some(HoldList(t)) && IsCalm(t)
  {
  }

  lemma HeldTells(runner: Runner, t: Trace, own: seq<string>, context: string)
    requires AptGet(UPGRADE) != AptGet(own) && !IsFetchText(context)
    ensures
      var (t', r) := HeldBranch(runner, t, context);
      r.Err? && Tells(t', own, r.error.message)
  {
    FallbackEnds(runner, t, own);
    var r := Fallback(runner, t).1;
    if r.Ok? {
      HeldMessage(r.value);
    }
    hide Fallback, IsFetchText, DecidingText, HeldFailure;
  }

  lemma RetryTells(runner: Runner, t: Trace, packages: Option<seq<string>>)
    requires IsCalm(t)
    ensures
      var own := ApplyArgs(packages);
      var (t', r) := RetryAfterFix(runner, t, own, packages.None?);
      r.Err? ==> Tells(t', own, r.error.message)
  {
    var own := ApplyArgs(packages);
    OwnIsNoUpgrade(packages);
    FixedMessagesAreHarmless();
    OtherTellsNothing(runner, t, FIX_BROKEN, own);
    RunAptIsCalm(runner, t, FIX_BROKEN);
    var (t1, fixed) := RunApt(runner, t, FIX_BROKEN);
    hide RunApt, HeldBranch, IsFetchText, DecidingText, BlockedByHolds;
    if fixed.Ok? {
      OwnTells(runner, t1, own);
      HeldTells(runner, RunApt(runner, t1, own).0, own, RETRY_FALLBACK_FAILED);
    }
  }

  lemma ApplyOnceTells(runner: Runner, t: Trace, packages: Option<seq<string>>)
    requires IsCalm(t)
    ensures
      var (t', r) := ApplyOnce(runner, t, packages);
      r.Err? ==> Tells(t', ApplyArgs(packages), r.error.message)
  {
    var own := ApplyArgs(packages);
    OwnIsNoUpgrade(packages);
    FixedMessagesAreHarmless();
    OwnTells(runner, t, own);
    hide RunApt, HeldBranch, RetryAfterFix, Tells, IsFetchText, BlockedByHolds, LooksLikeDependency;
    var (t1, r) := RunApt(runner, t, own);
    if r.Err? {
      HeldTells(runner, t1, own, FALLBACK_FAILED);
      RetryTells(runner, t1, packages);
    }
  }

  /** Whether a failed apply is a fetch error can be told from its commands and their answers. */
  lemma ApplyTells(runner: Runner, t: Trace, packages: Option<seq<string>>)
    requires IsCalm(t)
    ensures
      var (t', r) := ApplyPatches(runner, t, packages);
      r.Err? ==> Tells(t', ApplyArgs(packages), r.error.message)
  {
    OwnIsNoUpgrade(packages);
    FixedMessagesAreHarmless();
    OtherTellsNothing(runner, t, FIX_BROKEN, ApplyArgs(packages));
    RunAptIsCalm(runner, t, FIX_BROKEN);
    hide RunApt, ApplyOnce, IsFetchText, DecidingText;
    if packages.Some? {
      ApplyOnceTells(runner, t, packages);
    } else if RunApt(runner, t, FIX_BROKEN).1.Ok? {
      ApplyOnceTells(runner, RunApt(runner, t, FIX_BROKEN).0, packages);
    }
  }

  // ------------------------------------------------------------- the retries

  lemma RunAptRuns(runner: Runner, t: Trace, args: seq<string>)
    ensures |t| < |RunApt(runner, t, args).0|
  {
    RunAptShape(runner, t, args);
    EnsureCleanShape(runner, t);
    var (t1, clean) := EnsureClean(runner, t);
    if clean.Ok? {
      RunAptIssues(runner, t, t1, args);
      assert Gets(RunApt(runner, t, args).0) != Gets(t);
    }
  }

  /** A retry leaves more exchanges behind. */
  lemma RetryExtends(runner: Runner, t: Trace, packages: Option<seq<string>>)
    requires RunApt(runner, t, REFRESH).1.Ok?
    ensures
      var (t2, r) := ApplyPatches(runner, RunApt(runner, t, REFRESH).0, packages);
      r.Err? && IsFetchError(r.error) ==> |t2| < |PatchTransaction(runner, t, packages).0|
  {
    hide RunApt, ApplyPatches, IsFetchError, Orderly, EndsClean;
    var t2 := ApplyPatches(runner, RunApt(runner, t, REFRESH).0, packages).0;
    var (t3, again) := RunApt(runner, t2, REFRESH);
    RunAptRuns(runner, t2, REFRESH);
    if again.Ok? {
      var more := ApplyPatchesShape(runner, t3, packages);
    }
  }

  /**
   * A patch transaction whose first refresh succeeded goes on after its apply
   * if and only if the apply failed and left a deciding text that reads like a
   * fetch error.  This holds for targeted applies and for applying everything,
   * for every runner, whatever `apt-get` and `dpkg` print.
   */
  lemma RetryIsExact(runner: Runner, t: Trace, packages: Option<seq<string>>)
    requires RunApt(runner, t, REFRESH).1.Ok?
    ensures
      var (t2, applied) := ApplyPatches(runner, RunApt(runner, t, REFRESH).0, packages);
      var text := DecidingText(t2, ApplyArgs(packages));
      PatchTransaction(runner, t, packages) != (t2, applied)
      <==> applied.Err? && text.Some? && IsFetchText(text.value)
  {
    RunAptIsCalm(runner, t, REFRESH);
    hide RunApt, ApplyPatches, IsFetchText, DecidingText;
    var t1 := RunApt(runner, t, REFRESH).0;
    var (t2, applied) := ApplyPatches(runner, t1, packages);
    ApplyTells(runner, t1, packages);
    RetryExtends(runner, t, packages);
    if applied.Ok? || !IsFetchError(applied.error) {
      assert PatchTransaction(runner, t, packages) == (t2, applied);
    } else {
      assert |PatchTransaction(runner, t, packages).0| > |t2|;
    }
  }

  /**
   * In particular a failure of the apply's own command that the runner reports
   * as an error, as the one used in production does for every non-zero exit, is
   * not retried, unless it leads to a repair or to the held-package fallback.
   */
  lemma BrokenCommandIsNotRetried(runner: Runner, t: Trace, packages: Option<seq<string>>)
    requires RunApt(runner, t, REFRESH).1.Ok?
    requires
      var t2 := ApplyPatches(runner, RunApt(runner, t, REFRESH).0, packages).0;
      |t2| >= 2 && t2[|t2| - 1].command == CONFIGURE
      && t2[|t2| - 2].command == AptGet(ApplyArgs(packages)) && t2[|t2| - 2].answer.Broke?
    ensures PatchTransaction(runner, t, packages) == ApplyPatches(runner, RunApt(runner, t, REFRESH).0, packages)
  {
    RetryIsExact(runner, t, packages);
    hide RunApt, ApplyPatches, PatchTransaction, IsFetchText;
  }

  /**
   * The condition spelled out for a targeted apply whose `apt-get install`
   * fails without a dependency problem.
   */
  lemma RetryNeedsCompletedCommand(runner: Runner, t: Trace, names: seq<string>)
    requires RunApt(runner, t, REFRESH).1.Ok?
    requires
      var t1 := RunApt(runner, t, REFRESH).0;
      var (t2, r) := RunApt(runner, t1, ApplyArgs(Some(names)));
      r.Err? && EnsureClean(runner, t1).1.Ok? && !LooksLikeDependency(r.error)
      && !runner(EnsureClean(runner, t1).0, AptGet(ApplyArgs(Some(names)))).Success()
    ensures
      var t1 := RunApt(runner, t, REFRESH).0;
      var answer := runner(EnsureClean(runner, t1).0, AptGet(ApplyArgs(Some(names))));
      var (t2, r) := RunApt(runner, t1, ApplyArgs(Some(names)));
      (PatchTransaction(runner, t, Some(names)) != (t2, r))
      <==> (answer.Ran? && IsFetchError(Failure(answer.summary, Some(answer.stderr))))
  {
    var t1 := RunApt(runner, t, REFRESH).0;
    var args := ApplyArgs(Some(names));
    var answer := runner(EnsureClean(runner, t1).0, AptGet(args));
    var (t2, r) := RunApt(runner, t1, args);
    assert r.error == AptFailure(answer);
    assert ApplyPatches(runner, t1, Some(names)) == (t2, r);
    hide RunApt, ApplyPatches, IsFetchText, LooksLikeDependency;
    FixedMessagesAreHarmless();
    RetryExtends(runner, t, Some(names));
  }

  // ------------------------------------------------- runners like production

  /** After `t` the trace records what the runner answered to each command. */
  ghost predicate Records(runner: Runner, t: Trace, t': Trace) {
    t <= t' && forall i :: |t| <= i < |t'| ==> t'[i].answer == runner(t'[..i], t'[i].command)
  }

  lemma RecordsAreTransitive(runner: Runner, t: Trace, t': Trace, t'': Trace)
    requires Records(runner, t, t') && Records(runner, t', t'')
    ensures Records(runner, t, t'')
  {
    forall i | |t| <= i < |t''|
      ensures t''[i].answer == runner(t''[..i], t''[i].command)
    {
      if i < |t'| {
        assert t''[i] == t'[i] && t''[..i] == t'[..i];
      }
    }
  }

  lemma IssueRecords(runner: Runner, t: Trace, c: Command)
    ensures Records(runner, t, Issue(runner, t, c))
  {
    assert Issue(runner, t, c)[..|t|] == t;
  }

  lemma RunAptRecords(runner: Runner, t: Trace, args: seq<string>)
    ensures Records(runner, t, RunApt(runner, t, args).0)
  {
    hide Records, IsBlank, Trim;
    var t1 := Issue(runner, t, CONFIGURE);
    var t2 := Issue(runner, t1, AptGet(args));
    var t3 := Issue(runner, t2, CONFIGURE);
    var t4 := Issue(runner, t2, AUDIT);
    var t5 := Issue(runner, t4, CONFIGURE);
    var t6 := Issue(runner, t5, AUDIT);
    IssueRecords(runner, t, CONFIGURE);
    IssueRecords(runner, t1, AptGet(args));
    RecordsAreTransitive(runner, t, t1, t2);
    IssueRecords(runner, t2, CONFIGURE);
    RecordsAreTransitive(runner, t, t2, t3);
    IssueRecords(runner, t2, AUDIT);
    RecordsAreTransitive(runner, t, t2, t4);
    IssueRecords(runner, t4, CONFIGURE);
    RecordsAreTransitive(runner, t, t4, t5);
    IssueRecords(runner, t5, AUDIT);
    RecordsAreTransitive(runner, t, t5, t6);
    hide Issue;
    assert VerifyClean(runner, t2).0 in {t4, t5, t6};
    assert RunApt(runner, t, args).0 in {t1, t3, t4, t5, t6};
  }

  lemma HeldBranchRecords(runner: Runner, t: Trace, context: string)
    ensures Records(runner, t, HeldBranch(runner, t, context).0)
  {
    var t1 := Issue(runner, t, SHOWHOLD);
    IssueRecords(runner, t, SHOWHOLD);
    RunAptRecords(runner, t1, UPGRADE);
    RecordsAreTransitive(runner, t, t1, RunApt(runner, t1, UPGRADE).0);
    hide Records, RunApt, Trim, HeldFailure;
  }

  lemma RetryRecords(runner: Runner, t: Trace, args: seq<string>, all: bool)
    ensures Records(runner, t, RetryAfterFix(runner, t, args, all).0)
  {
    hide Records, RunApt, HeldBranch, BlockedByHolds;
    var t1 := RunApt(runner, t, FIX_BROKEN).0;
    var t2 := RunApt(runner, t1, args).0;
    RunAptRecords(runner, t, FIX_BROKEN);
    RunAptRecords(runner, t1, args);
    RecordsAreTransitive(runner, t, t1, t2);
    HeldBranchRecords(runner, t2, RETRY_FALLBACK_FAILED);
    RecordsAreTransitive(runner, t, t2, HeldBranch(runner, t2, RETRY_FALLBACK_FAILED).0);
  }

  lemma ApplyOnceRecords(runner: Runner, t: Trace, packages: Option<seq<string>>)
    ensures Records(runner, t, ApplyOnce(runner, t, packages).0)
  {
    hide Records, RunApt, HeldBranch, RetryAfterFix, BlockedByHolds, LooksLikeDependency;
    var args := ApplyArgs(packages);
    var t1 := RunApt(runner, t, args).0;
    RunAptRecords(runner, t, args);
    HeldBranchRecords(runner, t1, FALLBACK_FAILED);
    RecordsAreTransitive(runner, t, t1, HeldBranch(runner, t1, FALLBACK_FAILED).0);
    RetryRecords(runner, t1, args, packages.None?);
    RecordsAreTransitive(runner, t, t1, RetryAfterFix(runner, t1, args, packages.None?).0);
  }

  /** An apply's trace records exactly what the runner answered. */
  lemma ApplyRecords(runner: Runner, t: Trace, packages: Option<seq<string>>)
    ensures Records(runner, t, ApplyPatches(runner, t, packages).0)
  {
    hide Records, RunApt, ApplyOnce;
    var t1 := RunApt(runner, t, FIX_BROKEN).0;
    RunAptRecords(runner, t, FIX_BROKEN);
    ApplyOnceRecords(runner, t, packages);
    ApplyOnceRecords(runner, t1, packages);
    RecordsAreTransitive(runner, t, t1, ApplyOnce(runner, t1, packages).0);
  }

  /** Every `apt-get` that the runner completes has succeeded; all others are reported as errors. */
  ghost predicate ReportsFailures(runner: Runner) {
    forall t, args :: runner(t, AptGet(args)).Ran? ==> runner(t, AptGet(args)).Success()
  }

  /**
   * Under such a runner, which the production runner is, a transaction that is
   * retried has ended its apply with an audit: one that broke or stayed dirty,
   * or the clean one after the held-package fallback.  No `apt-get` failure as
   * such is ever retried.
   */
  lemma OnlyAuditsAreRetried(runner: Runner, t: Trace, packages: Option<seq<string>>)
    requires ReportsFailures(runner) && Guarded(t) && RunApt(runner, t, REFRESH).1.Ok?
    ensures
      var (t2, applied) := ApplyPatches(runner, RunApt(runner, t, REFRESH).0, packages);
      PatchTransaction(runner, t, packages) != (t2, applied) ==> t2 != [] && t2[|t2| - 1].command == AUDIT
  {
    var t1 := RunApt(runner, t, REFRESH).0;
    var (t2, applied) := ApplyPatches(runner, t1, packages);
    var own := ApplyArgs(packages);
    RunAptShape(runner, t, REFRESH);
    ApplyOkMeansApplied(runner, t1, packages);
    ApplyRecords(runner, t1, packages);
    RetryIsExact(runner, t, packages);
    hide RunApt, ApplyPatches, PatchTransaction, IsFetchText;
    if DecidingText(t2, own).Some? && t2[|t2| - 1].command == CONFIGURE {
      CompletedCommandSucceeded(runner, t1, t2, own);
    }
  }

  /** A completed `apt-get` is not followed by a configuration. */
  lemma CompletedCommandSucceeded(runner: Runner, t: Trace, t': Trace, own: seq<string>)
    requires ReportsFailures(runner) && Records(runner, t, t') && Guarded(t') && IsCalm(t) && |t'| >= 2
    requires |t'| > |t| && t'[|t'| - 1].command == CONFIGURE && t'[|t'| - 2].command == AptGet(own)
    ensures t'[|t'| - 2].answer.Broke?
  {
    var i := |t'| - 2;
    assert IsAptGet(t'[i]);
    assert |t| <= i ==> t'[i].answer == runner(t'[..i], AptGet(own));
    assert CONFIGURE.args[0] == "--configure" && AUDIT.args[0] == "--audit";
    assert "--configure"[2] == 'c' && "--audit"[2] == 'a';
  }
}
