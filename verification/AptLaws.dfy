/** What holds of the APT backend's command traces for every runner. */
module AptLaws {
  import opened Wrappers
  import opened Jobs
  import opened Text
  import opened Apt

  predicate IsAptGet(e: Exchange) {
    e.command.program == "apt-get"
  }

  function Verb(e: Exchange): string {
    if e.command.args == [] then "" else e.command.args[0]
  }

  /** `dpkg --configure -a`, and the runner reported no error. */
  predicate Configures(e: Exchange) {
    e.command == CONFIGURE && e.answer.Ran?
  }

  /** The trace ends with a `dpkg --audit` that lists nothing. */
  predicate EndsClean(t: Trace) {
    t != [] && var e := t[|t| - 1]; e.command == AUDIT && e.answer.Ran? && IsBlank(e.answer.stdout)
  }

  /**
   * The discipline of a trace: every `apt-get` directly follows a successful
   * `dpkg --configure -a`, a failed one is directly followed by another
   * attempt at it, and a successful one by an audit.
   */
  predicate Guarded(t: Trace) {
    forall i :: 0 <= i < |t| && IsAptGet(t[i]) ==>
      && i > 0 && Configures(t[i - 1])
      && i + 1 < |t| && t[i + 1].command == if t[i].answer.Success() then AUDIT else CONFIGURE
  }

  /** The `apt-get` exchanges of a trace, in order. */
  function Gets(t: Trace): seq<Exchange>
    decreases |t|
  {
    if t == [] then [] else Gets(t[..|t| - 1]) + if IsAptGet(t[|t| - 1]) then [t[|t| - 1]] else []
  }

  lemma GetsOfIssue(runner: Runner, t: Trace, c: Command)
    ensures
      var t' := Issue(runner, t, c);
      && t' == t + [Exchange(c, runner(t, c))]
      && Gets(t') == if c.program == "apt-get" then Gets(t) + [Exchange(c, runner(t, c))] else Gets(t)
  {
    assert Issue(runner, t, c)[..|t|] == t;
  }

  // ----------------------------------------------------- one guarded command

  /** `t'` extends `t`, without any `apt-get`. */
  predicate Quiet(t: Trace, t': Trace) {
    t <= t' && Gets(t') == Gets(t) && forall i :: |t| <= i < |t'| ==> !IsAptGet(t'[i])
  }

  lemma QuietIsTransitive(t: Trace, t': Trace, t'': Trace)
    requires Quiet(t, t') && Quiet(t', t'')
    ensures Quiet(t, t'')
  {
  }

  /** Exactly one `dpkg` or query command was issued, with this result. */
  predicate OneMore(t: Trace, t': Trace, c: Command, r: Outcome) {
    && Quiet(t, t') && |t'| == |t| + 1
    && t'[|t|].command == c
    && (r.Ok? <==> t'[|t|].answer.Ran?)
    && (r.Ok? ==> t'[|t|].answer.stdout == r.value)
  }

  lemma TimedShape(runner: Runner, t: Trace, c: Command)
    requires c.program != "apt-get"
    ensures OneMore(t, Timed(runner, t, c).0, c, Timed(runner, t, c).1)
  {
    GetsOfIssue(runner, t, c);
  }

  lemma EnsureCleanShape(runner: Runner, t: Trace)
    ensures
      var (t', r) := EnsureClean(runner, t);
      && Quiet(t, t') && |t'| == |t| + 1 && t'[|t|].command == CONFIGURE
      && (r.Ok? <==> t'[|t|].answer.Ran?)
      && (r.Err? ==> r.error.message == CONFIGURE_FAILED)
  {
    TimedShape(runner, t, CONFIGURE);
  }

  lemma AuditShape(runner: Runner, t: Trace)
    ensures
      var (t', r) := Timed(runner, t, AUDIT);
      && Quiet(t, t') && |t'| == |t| + 1 && t'[|t|].command == AUDIT
      && (r.Ok? && IsBlank(r.value) ==> EndsClean(t'))
  {
    TimedShape(runner, t, AUDIT);
  }

  lemma VerifyCleanShape(runner: Runner, t: Trace)
    ensures
      var (t', r) := VerifyClean(runner, t);
      && Quiet(t, t') && |t| < |t'| && t'[|t|].command == AUDIT
      && (r.Ok? ==> EndsClean(t'))
  {
    hide Timed, EnsureClean, EndsClean, IsBlank, Trim;
    AuditShape(runner, t);
    var (t1, audit) := Timed(runner, t, AUDIT);
    if audit.Ok? && !IsBlank(audit.value) {
      EnsureCleanShape(runner, t1);
      var (t2, cleaned) := EnsureClean(runner, t1);
      QuietIsTransitive(t, t1, t2);
      if cleaned.Ok? {
        AuditShape(runner, t2);
        QuietIsTransitive(t, t2, Timed(runner, t2, AUDIT).0);
      }
    }
  }

  lemma ExtendGuarded(t: Trace, t': Trace)
    requires Guarded(t) && t <= t' && forall i :: |t| <= i < |t'| ==> !IsAptGet(t'[i])
    ensures Guarded(t')
  {
  }

  /** Placing one `apt-get` between a successful configuration and its follow-up keeps the discipline. */
  lemma GuardedCommand(t: Trace, t': Trace)
    requires Guarded(t) && |t| + 2 < |t'| && t <= t'
    requires Configures(t'[|t|]) && IsAptGet(t'[|t| + 1])
    requires t'[|t| + 2].command == if t'[|t| + 1].answer.Success() then AUDIT else CONFIGURE
    requires forall i :: |t| + 2 <= i < |t'| ==> !IsAptGet(t'[i])
    ensures Guarded(t')
  {
  }

  /**
   * One guarded command: it keeps the discipline, issues the `apt-get` at most
   * once, and reports success only if the `apt-get` succeeded and the audit is
   * clean.
   */
  lemma RunAptShape(runner: Runner, t: Trace, args: seq<string>)
    ensures
      var (t', r) := RunApt(runner, t, args);
      && t <= t' && (Guarded(t) ==> Guarded(t'))
      && (Gets(t') == Gets(t) || Issued(t, t', args))
      && (r.Ok? ==> EndsClean(t') && Issued(t, t', args) && Gets(t')[|Gets(t)|].answer.Success())
  {
    EnsureCleanShape(runner, t);
    var (t1, clean) := EnsureClean(runner, t);
    if clean.Ok? {
      RunAptIssues(runner, t, t1, args);
    } else if Guarded(t) {
      ExtendGuarded(t, t1);
    }
  }

  /** Exactly one `apt-get`, with these arguments, was issued between `t` and `t'`. */
  predicate Issued(t: Trace, t': Trace, args: seq<string>) {
    && |Gets(t')| == |Gets(t)| + 1
    && Gets(t')[..|Gets(t)|] == Gets(t)
    && Gets(t')[|Gets(t)|].command == AptGet(args)
  }

  /** What follows an `apt-get`: an audit if it succeeded, a configuration otherwise. */
  lemma RunAptFollowUp(runner: Runner, t: Trace, t1: Trace, args: seq<string>)
    requires EnsureClean(runner, t) == (t1, Ok(""))
    ensures
      var (t', r) := RunApt(runner, t, args);
      var t2 := Issue(runner, t1, AptGet(args));
      && Quiet(t2, t') && |t2| < |t'|
      && t'[|t2|].command == (if runner(t1, AptGet(args)).Success() then AUDIT else CONFIGURE)
      && (r.Ok? ==> EndsClean(t') && runner(t1, AptGet(args)).Success())
  {
    var t2 := Issue(runner, t1, AptGet(args));
    hide Quiet, EndsClean, Issue;
    if runner(t1, AptGet(args)).Success() {
      VerifyCleanShape(runner, t2);
    } else {
      EnsureCleanShape(runner, t2);
    }
  }

  lemma RunAptIssues(runner: Runner, t: Trace, t1: Trace, args: seq<string>)
    requires EnsureClean(runner, t) == (t1, Ok(""))
    ensures
      var (t', r) := RunApt(runner, t, args);
      && t <= t' && (Guarded(t) ==> Guarded(t')) && Issued(t, t', args)
      && (r.Ok? ==> EndsClean(t') && Gets(t')[|Gets(t)|].answer.Success())
  {
    EnsureCleanShape(runner, t);
    GetsOfIssue(runner, t1, AptGet(args));
    RunAptFollowUp(runner, t, t1, args);
    var t' := RunApt(runner, t, args).0;
    hide RunApt, EnsureClean, Guarded, EndsClean;
    assert t'[|t| + 1] == Exchange(AptGet(args), runner(t1, AptGet(args)));
    if Guarded(t) {
      GuardedCommand(t, t');
    }
  }

  // ---------------------------------------------------- sequences of commands

  /** The `apt-get` exchanges between two traces. */
  function News(t: Trace, t': Trace): seq<Exchange> {
    if |Gets(t)| <= |Gets(t')| then Gets(t')[|Gets(t)|..] else []
  }

  /** `t'` extends `t`, keeps its discipline, and has exactly these additional `apt-get` exchanges. */
  predicate Extends(t: Trace, t': Trace, more: seq<Exchange>) {
    t <= t' && (Guarded(t) ==> Guarded(t')) && Gets(t') == Gets(t) + more
  }

  lemma ExtendsIsTransitive(t: Trace, t': Trace, t'': Trace, more: seq<Exchange>, more': seq<Exchange>)
    requires Extends(t, t', more) && Extends(t', t'', more')
    ensures Extends(t, t'', more + more')
  {
  }

  lemma ExtendsNews(t: Trace, t': Trace, more: seq<Exchange>)
    requires Extends(t, t', more)
    ensures News(t, t') == more
  {
  }

  predicate Fixed(e: Exchange) {
    e.command == AptGet(FIX_BROKEN) && e.answer.Success()
  }

  /** The last `apt-get` so far is a successful repair; `primed` stands for what preceded `more`. */
  predicate EndsFixed(more: seq<Exchange>, primed: bool) {
    if more == [] then primed else Fixed(more[|more| - 1])
  }

  /** The part of `Orderly` that concerns one position. */
  predicate OrderlyAt(more: seq<Exchange>, k: nat, packages: Option<seq<string>>, primed: bool)
    requires k < |more|
  {
    && more[k].command in {AptGet(ApplyArgs(packages)), AptGet(FIX_BROKEN), AptGet(UPGRADE)}
    && (more[k].command == AptGet(UPGRADE) ==> packages.None? && k == |more| - 1)
    && (more[k].command == AptGet(DIST_UPGRADE) ==> EndsFixed(more[..k], primed))
  }

  /** What an apply may issue: its own command, repairs, and, last and only for an apply-all, `upgrade`. */
  predicate Orderly(more: seq<Exchange>, packages: Option<seq<string>>, primed: bool) {
    forall k :: 0 <= k < |more| ==> OrderlyAt(more, k, packages, primed)
  }

  predicate NoUpgrade(more: seq<Exchange>) {
    forall k :: 0 <= k < |more| ==> more[k].command != AptGet(UPGRADE)
  }

  lemma OrderlyConcat(a: seq<Exchange>, b: seq<Exchange>, packages: Option<seq<string>>, primed: bool)
    requires Orderly(a, packages, primed) && NoUpgrade(a) && Orderly(b, packages, EndsFixed(a, primed))
    ensures Orderly(a + b, packages, primed)
    ensures NoUpgrade(b) ==> NoUpgrade(a + b)
    ensures EndsFixed(a + b, primed) == EndsFixed(b, EndsFixed(a, primed))
  {
    forall k | 0 <= k < |a + b|
      ensures OrderlyAt(a + b, k, packages, primed)
    {
      if k < |a| {
        assert OrderlyAt(a, k, packages, primed);
        assert (a + b)[..k] == a[..k];
      } else {
        assert OrderlyAt(b, k - |a|, packages, EndsFixed(a, primed));
        assert (a + b)[..k] == a + b[..k - |a|];
        EndsFixedConcat(a, b[..k - |a|], primed);
      }
    }
    EndsFixedConcat(a, b, primed);
  }

  lemma EndsFixedConcat(a: seq<Exchange>, b: seq<Exchange>, primed: bool)
    ensures EndsFixed(a + b, primed) == EndsFixed(b, EndsFixed(a, primed))
  {
    if b == [] {
      assert a + b == a;
    }
  }

  /** The four commands an apply issues are different. */
  lemma CommandsDiffer(packages: Option<seq<string>>)
    ensures AptGet(FIX_BROKEN) != AptGet(UPGRADE) && AptGet(DIST_UPGRADE) != AptGet(UPGRADE)
    ensures AptGet(FIX_BROKEN) != AptGet(DIST_UPGRADE)
    ensures AptGet(ApplyArgs(packages)) != AptGet(UPGRADE) && AptGet(ApplyArgs(packages)) != AptGet(FIX_BROKEN)
    ensures AptGet(ApplyArgs(packages)) == AptGet(DIST_UPGRADE) <==> packages.None?
  {
    assert FIX_BROKEN[0][0] == '-' && UPGRADE[0][0] == 'u' && DIST_UPGRADE[0][0] == 'd';
    assert packages.Some? ==> ApplyArgs(packages)[0] == "install" && "install"[0] == 'i';
  }

  /** Success means that the last `apt-get` was the given command, that it succeeded, and a clean audit at the end. */
  predicate OkMeansDone(t': Trace, more: seq<Exchange>, args: seq<string>, r: Outcome) {
    r.Ok? ==>
      && EndsClean(t') && more != []
      && more[|more| - 1].command == AptGet(args) && more[|more| - 1].answer.Success()
  }

  lemma RunAptNews(runner: Runner, t: Trace, args: seq<string>) returns (more: seq<Exchange>)
    ensures
      var (t', r) := RunApt(runner, t, args);
      && Extends(t, t', more) && |more| <= 1
      && (more != [] ==> more[0].command == AptGet(args))
      && OkMeansDone(t', more, args, r)
  {
    RunAptShape(runner, t, args);
    more := News(t, RunApt(runner, t, args).0);
  }

  lemma FallbackNews(runner: Runner, t: Trace) returns (more: seq<Exchange>)
    ensures
      var (t', r) := Fallback(runner, t);
      && Extends(t, t', more) && |more| <= 1
      && (more != [] ==> more[0].command == AptGet(UPGRADE))
      && (r.Ok? ==> more != [] && more[0].answer.Success())
  {
    hide RunApt, Trim, Guarded, Quiet, EndsClean;
    TimedShape(runner, t, SHOWHOLD);
    var t1 := Timed(runner, t, SHOWHOLD).0;
    more := RunAptNews(runner, t1, UPGRADE);
    QuietExtends(t, t1);
    ExtendsIsTransitive(t, t1, RunApt(runner, t1, UPGRADE).0, [], more);
    assert [] + more == more;
  }

  lemma HeldBranchNews(runner: Runner, t: Trace, context: string) returns (more: seq<Exchange>)
    ensures
      var (t', r) := HeldBranch(runner, t, context);
      && Extends(t, t', more) && |more| <= 1
      && (more != [] ==> more[0].command == AptGet(UPGRADE))
      && r.Err?
  {
    hide Fallback, HeldFailure, Extends;
    more := FallbackNews(runner, t);
  }

  lemma QuietExtends(t: Trace, t': Trace)
    requires Quiet(t, t')
    ensures Extends(t, t', [])
  {
    if Guarded(t) {
      ExtendGuarded(t, t');
    }
  }

  // ------------------------------------------------------------ apply_patches

  /** Everything an apply does, in terms of its `apt-get` exchanges. */
  predicate ApplyShape(t: Trace, t': Trace, more: seq<Exchange>, packages: Option<seq<string>>, primed: bool, r: Outcome) {
    && Extends(t, t', more)
    && Orderly(more, packages, primed)
    && OkMeansDone(t', more, ApplyArgs(packages), r)
    && (r.Ok? ==> NoUpgrade(more))
  }

  /** An apply's part without `upgrade`, followed by the held-package branch. */
  lemma ThenHeld(runner: Runner, t: Trace, t1: Trace, first: seq<Exchange>, primed: bool, context: string)
    returns (more: seq<Exchange>)
    requires Extends(t, t1, first) && Orderly(first, None, primed) && NoUpgrade(first)
    ensures
      var (t', r) := HeldBranch(runner, t1, context);
      ApplyShape(t, t', more, None, primed, r) && |more| <= |first| + 1
  {
    hide HeldBranch, Extends;
    var held := HeldBranchNews(runner, t1, context);
    var (t', r) := HeldBranch(runner, t1, context);
    CommandsDiffer(None);
    assert Orderly(held, None, EndsFixed(first, primed));
    OrderlyConcat(first, held, None, primed);
    ExtendsIsTransitive(t, t1, t', first, held);
    more := first + held;
    if held != [] {
      assert more[|more| - 1] == held[0];
    }
  }

  /** Running the apply's own command, or a repair, after `first`. */
  lemma ThenRun(runner: Runner, t: Trace, t1: Trace, first: seq<Exchange>, packages: Option<seq<string>>,
                primed: bool, args: seq<string>)
    returns (more: seq<Exchange>)
    requires Extends(t, t1, first) && Orderly(first, packages, primed) && NoUpgrade(first)
    requires args == FIX_BROKEN || (args == ApplyArgs(packages) && (packages.None? ==> EndsFixed(first, primed)))
    ensures
      var (t', r) := RunApt(runner, t1, args);
      && Extends(t, t', more) && Orderly(more, packages, primed) && NoUpgrade(more)
      && |first| <= |more| <= |first| + 1
      && OkMeansDone(t', more, args, r)
      && (args == FIX_BROKEN && r.Ok? ==> EndsFixed(more, primed))
  {
    hide RunApt, Extends, EndsClean;
    var one := RunAptNews(runner, t1, args);
    CommandsDiffer(packages);
    assert Orderly(one, packages, EndsFixed(first, primed));
    OrderlyConcat(first, one, packages, primed);
    ExtendsIsTransitive(t, t1, RunApt(runner, t1, args).0, first, one);
    more := first + one;
    if one != [] {
      assert more[|more| - 1] == one[0];
    } else {
      assert more == first;
    }
  }

  lemma RetryShape(runner: Runner, t: Trace, t1: Trace, first: seq<Exchange>, packages: Option<seq<string>>, primed: bool)
    returns (more: seq<Exchange>)
    requires Extends(t, t1, first) && Orderly(first, packages, primed) && NoUpgrade(first)
    ensures
      var (t', r) := RetryAfterFix(runner, t1, ApplyArgs(packages), packages.None?);
      ApplyShape(t, t', more, packages, primed, r) && |more| <= |first| + 3
  {
    hide RunApt, HeldBranch, Extends, Orderly, EndsClean;
    var args := ApplyArgs(packages);
    more := ThenRun(runner, t, t1, first, packages, primed, FIX_BROKEN);
    var (t2, fixed) := RunApt(runner, t1, FIX_BROKEN);
    if fixed.Ok? {
      var (t3, retried) := RunApt(runner, t2, args);
      var before := more;
      more := ThenRun(runner, t, t2, before, packages, primed, args);
      if retried.Err? && packages.None? && BlockedByHolds(retried.error) {
        more := ThenHeld(runner, t, t3, more, primed, RETRY_FALLBACK_FAILED);
      }
    }
  }

  lemma ApplyOnceShape(runner: Runner, t: Trace, t1: Trace, first: seq<Exchange>, packages: Option<seq<string>>)
    returns (more: seq<Exchange>)
    requires Extends(t, t1, first) && Orderly(first, packages, false) && NoUpgrade(first)
    requires packages.None? ==> EndsFixed(first, false)
    ensures
      var (t', r) := ApplyOnce(runner, t1, packages);
      ApplyShape(t, t', more, packages, false, r) && |more| <= |first| + 4
  {
    hide RunApt, HeldBranch, RetryAfterFix, Extends, Orderly, EndsClean, BlockedByHolds, LooksLikeDependency;
    var args := ApplyArgs(packages);
    more := ThenRun(runner, t, t1, first, packages, false, args);
    var (t2, r) := RunApt(runner, t1, args);
    if r.Err? {
      if packages.None? && BlockedByHolds(r.error) {
        more := ThenHeld(runner, t, t2, more, false, FALLBACK_FAILED);
      } else if LooksLikeDependency(r.error) {
        more := RetryShape(runner, t, t2, more, packages, false);
      }
    }
  }

  lemma ApplyPatchesShape(runner: Runner, t: Trace, packages: Option<seq<string>>) returns (more: seq<Exchange>)
    ensures
      var (t', r) := ApplyPatches(runner, t, packages);
      ApplyShape(t, t', more, packages, false, r) && |more| <= if packages.None? then 5 else 4
  {
    hide RunApt, ApplyOnce, EndsClean;
    more := [];
    if packages.Some? {
      more := ApplyOnceShape(runner, t, t, [], packages);
    } else {
      more := ThenRun(runner, t, t, [], packages, false, FIX_BROKEN);
      var (t1, fixed) := RunApt(runner, t, FIX_BROKEN);
      if fixed.Ok? {
        more := ApplyOnceShape(runner, t, t1, more, packages);
      }
    }
  }

  // ---------------------------------------------------------- the guarantees

  /**
   * A successful operation leaves a clean database behind, and its `apt-get`
   * was issued once and succeeded; every operation keeps the discipline.
   */
  lemma SingleCommandIsSafe(runner: Runner, t: Trace, args: seq<string>)
    ensures
      var (t', r) := RunApt(runner, t, args);
      && t <= t' && (Guarded(t) ==> Guarded(t'))
      && (forall e :: e in News(t, t') ==> e.command == AptGet(args))
      && |News(t, t')| <= 1
      && (r.Ok? ==> EndsClean(t') && |News(t, t')| == 1 && News(t, t')[0].answer.Success())
  {
    var more := RunAptNews(runner, t, args);
    ExtendsNews(t, RunApt(runner, t, args).0, more);
  }

  /** A repair issues no `apt-get`, and succeeds only with a clean audit. */
  lemma RepairIsSafe(runner: Runner, t: Trace)
    ensures
      var (t', r) := Repair(runner, t);
      && t <= t' && (Guarded(t) ==> Guarded(t')) && News(t, t') == []
      && (r.Ok? ==> EndsClean(t'))
  {
    hide VerifyClean, EnsureClean;
    EnsureCleanShape(runner, t);
    var (t1, cleaned) := EnsureClean(runner, t);
    if cleaned.Ok? {
      VerifyCleanShape(runner, t1);
      QuietIsTransitive(t, t1, VerifyClean(runner, t1).0);
    }
    QuietExtends(t, Repair(runner, t).0);
  }

  /**
   * Applying patches succeeds only if its own `install` or `dist-upgrade` was
   * the last `apt-get`, succeeded, and the audit is clean.
   */
  lemma ApplyOkMeansApplied(runner: Runner, t: Trace, packages: Option<seq<string>>)
    ensures
      var (t', r) := ApplyPatches(runner, t, packages);
      var more := News(t, t');
      && t <= t' && (Guarded(t) ==> Guarded(t'))
      && (r.Ok? ==>
            && EndsClean(t') && more != []
            && more[|more| - 1].command == AptGet(ApplyArgs(packages)) && more[|more| - 1].answer.Success())
  {
    hide ApplyPatches;
    var more := ApplyPatchesShape(runner, t, packages);
    ExtendsNews(t, ApplyPatches(runner, t, packages).0, more);
  }

  lemma VerbsTell(packages: Option<seq<string>>, e: Exchange)
    requires e.command in {AptGet(ApplyArgs(packages)), AptGet(FIX_BROKEN), AptGet(UPGRADE)}
    ensures Verb(e) == "upgrade" ==> e.command == AptGet(UPGRADE)
    ensures Verb(e) == "dist-upgrade" ==> e.command == AptGet(DIST_UPGRADE) && packages.None?
  {
    assert "upgrade"[0] == 'u' && "dist-upgrade"[0] == 'd';
    if e.command == AptGet(FIX_BROKEN) {
      assert Verb(e)[0] == '-';
    } else if e.command == AptGet(UPGRADE) {
      assert Verb(e)[0] == 'u';
    } else if packages.Some? {
      assert Verb(e) == ApplyArgs(packages)[0] == "install";
      assert Verb(e)[0] == 'i';
    } else {
      assert Verb(e)[0] == 'd';
    }
  }

  /**
   * Held packages are never reported as success: a run that issues `apt-get
   * upgrade` fails.  Each `dist-upgrade` comes right after a successful
   * `-f install` in the order of `apt-get` commands, a targeted apply issues
   * neither `upgrade` nor `dist-upgrade`, and there are at most five commands.
   */
  lemma HeldPackagesAreNeverSuccess(runner: Runner, t: Trace, packages: Option<seq<string>>)
    ensures
      var (t', r) := ApplyPatches(runner, t, packages);
      var more := News(t, t');
      && |more| <= 5
      && (forall k :: 0 <= k < |more| && Verb(more[k]) == "upgrade" ==> r.Err? && packages.None? && k == |more| - 1)
      && (forall k :: 0 <= k < |more| && Verb(more[k]) == "dist-upgrade" ==>
            packages.None? && k > 0 && Fixed(more[k - 1]))
  {
    hide ApplyPatches, Verb;
    var more := ApplyPatchesShape(runner, t, packages);
    var (t', r) := ApplyPatches(runner, t, packages);
    ExtendsNews(t, t', more);
    forall k | 0 <= k < |more| && Verb(more[k]) == "upgrade"
      ensures r.Err? && packages.None? && k == |more| - 1
    {
      assert OrderlyAt(more, k, packages, false);
      VerbsTell(packages, more[k]);
    }
    forall k | 0 <= k < |more| && Verb(more[k]) == "dist-upgrade"
      ensures packages.None? && k > 0 && Fixed(more[k - 1])
    {
      assert OrderlyAt(more, k, packages, false);
      VerbsTell(packages, more[k]);
    }
  }

  /** The arguments are the given options, the separator, and the names. */
  ghost predicate NamesAreSeparated(args: seq<string>, options: set<string>, names: seq<string>) {
    exists k :: 0 <= k < |args| && args[k] == "--" && args[k + 1..] == names
                && forall j :: 0 <= j < k ==> args[j] in options
  }

  /** Whatever names a request contains, none stands where `apt-get` would read it as an option. */
  lemma NamesFollowTheSeparator(specs: seq<PackageSpec>, options: InstallOptions, names: seq<string>, purge: bool)
    ensures NamesAreSeparated(InstallArgs(specs, options),
              {"install", "-y", "--no-install-recommends", "--allow-unauthenticated"}, SpecArgs(specs))
    ensures "--allow-unauthenticated" in InstallArgs(specs, options)[..|InstallArgs(specs, options)| - |specs|]
            <==> options.force
    ensures NamesAreSeparated(ApplyArgs(Some(names)), {"install", "-y"}, names)
    ensures forall name :: NamesAreSeparated(UpdateArgs(name), {"install", "-y", "--only-upgrade"}, [name])
    ensures forall name :: NamesAreSeparated(RemoveArgs(name, purge), {"purge", "remove", "-y"}, [name])
  {
    SeparatedInstall(specs, options);
    assert ApplyArgs(Some(names))[2] == "--" && ApplyArgs(Some(names))[3..] == names;
    forall name
      ensures NamesAreSeparated(UpdateArgs(name), {"install", "-y", "--only-upgrade"}, [name])
      ensures NamesAreSeparated(RemoveArgs(name, purge), {"purge", "remove", "-y"}, [name])
    {
      assert UpdateArgs(name)[3] == "--" && UpdateArgs(name)[4..] == [name];
      assert RemoveArgs(name, purge)[2] == "--" && RemoveArgs(name, purge)[3..] == [name];
    }
  }

  lemma SeparatedInstall(specs: seq<PackageSpec>, options: InstallOptions)
    ensures NamesAreSeparated(InstallArgs(specs, options),
              {"install", "-y", "--no-install-recommends", "--allow-unauthenticated"}, SpecArgs(specs))
    ensures "--allow-unauthenticated" in InstallArgs(specs, options)[..|InstallArgs(specs, options)| - |specs|]
            <==> options.force
  {
    var args := InstallArgs(specs, options);
    var k := |args| - |specs| - 1;
    assert args[k] == "--" && args[k + 1..] == SpecArgs(specs);
    assert "install"[0] == 'i' && "-y"[1] == 'y' && "--no-install-recommends"[2] == 'n' && |"--"| == 2;
    assert "--allow-unauthenticated"[2] == 'a' && |"-y"| == 2;
    if options.force {
      assert args[k - 1] == "--allow-unauthenticated";
      assert args[..k + 1][k - 1] == args[k - 1];
    }
  }

  // ------------------------------------------------------ patch transactions

  /**
   * A patch transaction succeeds only if its last `apt-get` is a successful
   * `install` or `dist-upgrade` of what was requested, with a clean audit.
   */
  lemma PatchOkMeansApplied(runner: Runner, t: Trace, packages: Option<seq<string>>)
    ensures
      var (t', r) := PatchTransaction(runner, t, packages);
      && (Guarded(t) ==> Guarded(t'))
      && (r.Ok? ==>
            && EndsClean(t') && Gets(t') != []
            && Gets(t')[|Gets(t')| - 1].command == AptGet(ApplyArgs(packages))
            && Gets(t')[|Gets(t')| - 1].answer.Success())
  {
    hide RunApt, ApplyPatches, IsFetchError, EndsClean, Orderly;
    var (t1, refreshed) := RunApt(runner, t, REFRESH);
    var a := RunAptNews(runner, t, REFRESH);
    if refreshed.Ok? {
      var b := ApplyPatchesShape(runner, t1, packages);
      var (t2, applied) := ApplyPatches(runner, t1, packages);
      if applied.Err? && IsFetchError(applied.error) {
        var c := RunAptNews(runner, t2, REFRESH);
        var (t3, again) := RunApt(runner, t2, REFRESH);
        if again.Ok? {
          var d := ApplyPatchesShape(runner, t3, packages);
        }
      }
    }
  }
}
