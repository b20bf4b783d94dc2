/**
 * What the APT backend does about failures, for every runner: commands, options
 * and the phrases that decide are written out here, and nothing rests on the
 * tests in Apt.dfy.
 */
module AptRecovery {
  import opened Wrappers
  import opened Jobs
  import opened Text
  import opened Apt
  import opened AptLaws

  // ------------------------------------------------------------ the commands

  function Dpkg(args: seq<string>): Command {
    Command("dpkg", args)
  }

  function Get(args: seq<string>): Command {
    Command("apt-get", args)
  }

  /** The trace after one more command. */
  function Asked(runner: Runner, t: Trace, c: Command): Trace {
    t + [Exchange(c, runner(t, c))]
  }

  /** The command ran and its exit status is zero. */
  predicate Succeeds(answer: Answer) {
    answer.Ran? && answer.status == Some(0)
  }

  /** The audit that follows a successful `apt-get`; what it lists is configured once, and audited again. */
  predicate IsAudited(runner: Runner, t: Trace, t': Trace, ok: bool) {
    var audit := runner(t, Dpkg(["--audit"]));
    var t1 := Asked(runner, t, Dpkg(["--audit"]));
    if audit.Broke? then t' == t1 && !ok
    else if Trim(audit.stdout) == "" then t' == t1 && ok
    else
      var t2 := Asked(runner, t1, Dpkg(["--configure", "-a"]));
      if runner(t1, Dpkg(["--configure", "-a"])).Broke? then t' == t2 && !ok
      else
        var again := runner(t2, Dpkg(["--audit"]));
        t' == Asked(runner, t2, Dpkg(["--audit"])) && (ok <==> again.Ran? && Trim(again.stdout) == "")
  }

  lemma AuditIsExact(runner: Runner, t: Trace)
    ensures
      var (t', r) := VerifyClean(runner, t);
      IsAudited(runner, t, t', r.Ok?)
  {
    forall s
      ensures IsBlank(s) <==> Trim(s) == ""
    {
      var _, _ := TrimIsExact(s);
    }
    hide IsBlank, Trim;
  }

  /** The stderr of a failed command, as far as the runner tells. */
  function StderrOf(answer: Answer): Option<string> {
    match answer
    case Ran(_, _, stderr, _) => Some(stderr)
    case Broke(failure) => failure.stderr
  }

  /**
   * One guarded command, step by step: `dpkg --configure -a`; if that ran, the
   * `apt-get`; after a failure of it one more configuration and nothing else,
   * after a success the audit.
   */
  lemma CommandIsExact(runner: Runner, t: Trace, args: seq<string>)
    ensures
      var (t', r) := RunApt(runner, t, args);
      var t1 := Asked(runner, t, Dpkg(["--configure", "-a"]));
      var t2 := Asked(runner, t1, Get(args));
      var answer := runner(t1, Get(args));
      if runner(t, Dpkg(["--configure", "-a"])).Broke? then t' == t1 && r.Err?
      else if !Succeeds(answer) then
        t' == Asked(runner, t2, Dpkg(["--configure", "-a"])) && r.Err? && r.error.stderr == StderrOf(answer)
      else IsAudited(runner, t2, t', r.Ok?) && (r.Ok? ==> r.value == answer.stdout)
  {
    var t1 := Asked(runner, t, Dpkg(["--configure", "-a"]));
    var t2 := Asked(runner, t1, Get(args));
    AuditIsExact(runner, t2);
    hide VerifyClean, IsAudited;
    assert EnsureClean(runner, t).0 == t1;
    assert Issue(runner, t1, AptGet(args)) == t2;
    if runner(t, CONFIGURE).Ran? && runner(t1, AptGet(args)).Success() {
      var (t3, verified) := VerifyClean(runner, t2);
      assert RunApt(runner, t, args).0 == t3 && RunApt(runner, t, args).1.Ok? == verified.Ok?;
    }
  }

  // ----------------------------------------------------------- the arguments

  /** Verbs, options and the separator, word by word. */
  lemma ArgumentsAreLiteral(name: string, names: seq<string>, specs: seq<PackageSpec>)
    ensures RemoveArgs(name, true) == ["purge", "-y", "--", name]
    ensures RemoveArgs(name, false) == ["remove", "-y", "--", name]
    ensures UpdateArgs(name) == ["install", "-y", "--only-upgrade", "--", name]
    ensures ApplyArgs(Some(names)) == ["install", "-y", "--"] + names && ApplyArgs(None) == ["dist-upgrade", "-y"]
    ensures InstallArgs(specs, InstallOptions(false, false)) == ["install", "-y", "--"] + SpecArgs(specs)
    ensures InstallArgs(specs, InstallOptions(true, false))
            == ["install", "-y", "--allow-unauthenticated", "--"] + SpecArgs(specs)
    ensures InstallArgs(specs, InstallOptions(false, true))
            == ["install", "-y", "--no-install-recommends", "--"] + SpecArgs(specs)
    ensures InstallArgs(specs, InstallOptions(true, true))
            == ["install", "-y", "--no-install-recommends", "--allow-unauthenticated", "--"] + SpecArgs(specs)
  {
    var head: seq<string> := ["install", "-y"];
    assert head + [] + [] + ["--"] == ["install", "-y", "--"];
    assert head + [] + ["--allow-unauthenticated"] + ["--"] == ["install", "-y", "--allow-unauthenticated", "--"];
    assert head + ["--no-install-recommends"] + [] + ["--"] == ["install", "-y", "--no-install-recommends", "--"];
    assert head + ["--no-install-recommends"] + ["--allow-unauthenticated"] + ["--"]
           == ["install", "-y", "--no-install-recommends", "--allow-unauthenticated", "--"];
  }

  /** The last arguments of an install are the requested packages, each pinned exactly if a version was given. */
  lemma PinsAreExact(specs: seq<PackageSpec>, options: InstallOptions, i: nat)
    requires i < |specs|
    ensures
      var args := InstallArgs(specs, options);
      && |args| > |specs| && args[|args| - |specs| - 1] == "--"
      && args[|args| - |specs| + i]
         == if specs[i].version == None then specs[i].name else specs[i].name + "=" + specs[i].version.value
  {
  }

  // ----------------------------------------------------- what the phrases are

  /** The text the backend looks at: the stderr of the failed command, if known, in small letters. */
  function ErrorText(failure: Failure): string {
    if failure.stderr == None then "" else Lower(failure.stderr.value)
  }

  ghost predicate IsDependencyTrouble(text: string) {
    Mentions(text, "unmet dependencies") || Mentions(text, "broken") || Mentions(text, "dependency")
  }

  ghost predicate IsHeldBack(text: string) {
    Mentions(text, "held packages were changed") && Mentions(text, "--allow-change-held-packages")
  }

  ghost predicate IsStaleCache(text: string) {
    || Mentions(text, "404") || Mentions(text, "not found")
    || Mentions(text, "failed to fetch") || Mentions(text, "unable to fetch")
  }

  lemma PhrasesAreLiteral(failure: Failure)
    ensures LooksLikeDependency(failure) <==> IsDependencyTrouble(ErrorText(failure))
    ensures BlockedByHolds(failure) <==> IsHeldBack(ErrorText(failure))
    ensures IsFetchError(failure) <==> IsStaleCache(Lower(failure.message))
  {
    var text := ErrorText(failure);
    ContainsIsMentions(text, "unmet dependencies");
    ContainsIsMentions(text, "broken");
    ContainsIsMentions(text, "dependency");
    ContainsIsMentions(text, "held packages were changed");
    ContainsIsMentions(text, "--allow-change-held-packages");
    var message := Lower(failure.message);
    ContainsIsMentions(message, "404");
    ContainsIsMentions(message, "not found");
    ContainsIsMentions(message, "failed to fetch");
    ContainsIsMentions(message, "unable to fetch");
    hide Contains, Mentions, Lower;
  }

  // ------------------------------------------------------------ apply_patches

  /** The command a patch run is for: the named packages, or everything. */
  function Own(packages: Option<seq<string>>): seq<string> {
    if packages.Some? then ["install", "-y", "--"] + packages.value else ["dist-upgrade", "-y"]
  }

  /** What follows a `dist-upgrade` that holds stand against: the holds are listed, the safe subset is upgraded. */
  ghost predicate EndsHeld(runner: Runner, t: Trace, t': Trace, r: Outcome) {
    t' == RunApt(runner, Asked(runner, t, Command("apt-mark", ["showhold"])), ["upgrade", "-y"]).0 && r.Err?
  }

  /** The first attempt, or the one after a repair, when it is the last. */
  ghost predicate EndsWith(runner: Runner, t: Trace, first: Outcome, all: bool, t': Trace, r: Outcome) {
    if first.Err? && all && IsHeldBack(ErrorText(first.error)) then EndsHeld(runner, t, t', r)
    else t' == t && r == first
  }

  /**
   * An attempt at the own command from `t`.  If it fails, is not stopped by
   * holds, and its error mentions one of the three phrases, `-f install` comes
   * next, and after its success the command once more; in all other cases
   * nothing else is tried.
   */
  ghost predicate IsAttempt(runner: Runner, t: Trace, packages: Option<seq<string>>, t': Trace, r: Outcome) {
    var (t1, first) := RunApt(runner, t, Own(packages));
    var held := packages.None? && first.Err? && IsHeldBack(ErrorText(first.error));
    if first.Err? && !held && IsDependencyTrouble(ErrorText(first.error)) then
      var (t2, fixed) := RunApt(runner, t1, ["-f", "install", "-y"]);
      if fixed.Err? then t' == t2 && r.Err?
      else
        var (t3, second) := RunApt(runner, t2, Own(packages));
        EndsWith(runner, t3, second, packages.None?, t', r)
    else EndsWith(runner, t1, first, packages.None?, t', r)
  }

  lemma HeldIsExact(runner: Runner, t: Trace, context: string)
    ensures
      var (t', r) := HeldBranch(runner, t, context);
      EndsHeld(runner, t, t', r)
  {
    hide RunApt, Trim, HeldFailure;
  }

  lemma AttemptIsExact(runner: Runner, t: Trace, packages: Option<seq<string>>)
    ensures
      var (t', r) := ApplyOnce(runner, t, packages);
      IsAttempt(runner, t, packages, t', r)
  {
    var (t1, first) := RunApt(runner, t, Own(packages));
    var (t2, fixed) := RunApt(runner, t1, ["-f", "install", "-y"]);
    var (t3, second) := RunApt(runner, t2, Own(packages));
    HeldIsExact(runner, t1, FALLBACK_FAILED);
    HeldIsExact(runner, t3, RETRY_FALLBACK_FAILED);
    if first.Err? {
      PhrasesAreLiteral(first.error);
    }
    if second.Err? {
      PhrasesAreLiteral(second.error);
    }
    hide RunApt, HeldBranch, EndsHeld, LooksLikeDependency, BlockedByHolds, IsDependencyTrouble, IsHeldBack, ErrorText;
  }

  /**
   * Applying patches is exact for every runner: everything needs a successful
   * `-f install` first, named packages do not, and then comes the attempt.
   */
  lemma ApplyIsExact(runner: Runner, t: Trace, packages: Option<seq<string>>)
    ensures
      var (t', r) := ApplyPatches(runner, t, packages);
      var (t1, fixed) := RunApt(runner, t, ["-f", "install", "-y"]);
      if packages.Some? then IsAttempt(runner, t, packages, t', r)
      else if fixed.Err? then t' == t1 && r.Err?
      else IsAttempt(runner, t1, packages, t', r)
  {
    AttemptIsExact(runner, t, packages);
    AttemptIsExact(runner, RunApt(runner, t, ["-f", "install", "-y"]).0, packages);
    hide RunApt, ApplyOnce, IsAttempt;
  }

  /**
   * In particular dependency trouble is overcome: a failed attempt whose stderr
   * mentions it, a repair and a repetition that succeed make a success.
   */
  lemma TroubleIsRepaired(runner: Runner, t: Trace, names: seq<string>)
    requires
      var (t1, first) := RunApt(runner, t, ["install", "-y", "--"] + names);
      var (t2, fixed) := RunApt(runner, t1, ["-f", "install", "-y"]);
      && first.Err? && IsDependencyTrouble(ErrorText(first.error)) && fixed.Ok?
      && RunApt(runner, t2, ["install", "-y", "--"] + names).1.Ok?
    ensures ApplyPatches(runner, t, Some(names)).1.Ok?
    ensures |News(t, ApplyPatches(runner, t, Some(names)).0)| >= 2
  {
    var (t1, first) := RunApt(runner, t, ["install", "-y", "--"] + names);
    var (t2, fixed) := RunApt(runner, t1, ["-f", "install", "-y"]);
    var a := RunAptNews(runner, t, ["install", "-y", "--"] + names);
    var b := RunAptNews(runner, t1, ["-f", "install", "-y"]);
    var c := RunAptNews(runner, t2, ["install", "-y", "--"] + names);
    ApplyIsExact(runner, t, Some(names));
    hide RunApt, ApplyPatches, IsDependencyTrouble, IsHeldBack, ErrorText, Guarded, EndsClean;
    assert Own(Some(names)) == ["install", "-y", "--"] + names;
  }

  /**
   * A patch transaction refreshes and applies; only when the outermost message
   * of the failed apply mentions one of the four phrases, it does both once
   * more, and that decides.
   */
  lemma TransactionIsExact(runner: Runner, t: Trace, packages: Option<seq<string>>)
    ensures
      var (t', r) := PatchTransaction(runner, t, packages);
      var (t1, refreshed) := RunApt(runner, t, ["update"]);
      if refreshed.Err? then t' == t1 && r.Err?
      else
        var (t2, applied) := ApplyPatches(runner, t1, packages);
        if applied.Ok? || !IsStaleCache(Lower(applied.error.message)) then t' == t2 && r == applied
        else
          var (t3, again) := RunApt(runner, t2, ["update"]);
          if again.Err? then t' == t3 && r.Err?
          else
            var (t4, retried) := ApplyPatches(runner, t3, packages);
            t' == t4 && (r.Ok? <==> retried.Ok?) && (r.Ok? ==> r == retried)
  {
    var t1 := RunApt(runner, t, ["update"]).0;
    var applied := ApplyPatches(runner, t1, packages).1;
    if applied.Err? {
      PhrasesAreLiteral(applied.error);
    }
    hide RunApt, ApplyPatches, IsFetchError, IsStaleCache, LooksLikeDependency, BlockedByHolds, IsDependencyTrouble,
         IsHeldBack;
  }
}
