/**
 * The APT backend (`src/packages/mod.rs`) as functions over an arbitrary
 * command runner.  The runner answers each command with full knowledge of
 * everything that happened before, so a statement about all runners covers
 * every behaviour of `apt-get` and `dpkg`.  Each function maps the trace of
 * exchanges so far to the extended trace and the operation's result.
 */
module Apt {
  import opened Wrappers
  import opened Jobs
  import opened Text

  datatype Command = Command(program: string, args: seq<string>)

  /** What remains of an `anyhow::Error`: the outermost message, and the stderr of a `CommandError` in its chain. */
  datatype Failure = Failure(message: string, stderr: Option<string>)
  {
    function Context(outer: string): Failure {
      this.(message := outer)
    }

    function Stderr(): string {
      if stderr.Some? then Lower(stderr.value) else ""
    }
  }

  /** `summary` is the one-line rendering of the `CommandError` that would describe this output. */
  datatype Answer =
    | Ran(status: Option<int>, stdout: string, stderr: string, summary: string)
    | Broke(failure: Failure)
  {
    predicate Success() {
      Ran? && status == Some(0)
    }
  }

  datatype Exchange = Exchange(command: Command, answer: Answer)

  type Trace = seq<Exchange>
  type Runner = (Trace, Command) -> Answer
  type Outcome = Result<string, Failure>

  const CONFIGURE := Command("dpkg", ["--configure", "-a"])
  const AUDIT := Command("dpkg", ["--audit"])
  const SHOWHOLD := Command("apt-mark", ["showhold"])
  const FIX_BROKEN := ["-f", "install", "-y"]
  const DIST_UPGRADE := ["dist-upgrade", "-y"]
  const UPGRADE := ["upgrade", "-y"]
  const REFRESH := ["update"]

  function AptGet(args: seq<string>): Command {
    Command("apt-get", args)
  }

  function Issue(runner: Runner, t: Trace, c: Command): Trace {
    t + [Exchange(c, runner(t, c))]
  }

  /** `run_command_timed`: any answer that is not an error is a success, whatever its exit status. */
  function Timed(runner: Runner, t: Trace, c: Command): (Trace, Outcome) {
    (Issue(runner, t, c), match runner(t, c)
                          case Ran(_, stdout, _, _) => Ok(stdout)
                          case Broke(failure) => Err(failure))
  }

  const CONFIGURE_FAILED_WORDS := [
    "dpkg", "--configure", "-a", "failed:", "package", "manager", "is", "in", "a", "broken", "state", "that",
    "requires", "manual", "intervention"
  ]
  const STILL_DIRTY_WORDS := [
    "dpkg", "--audit", "shows", "half-configured", "packages", "after", "operation", "and", "cleanup"
  ]
  const APT_FAILED_WORDS := [
    "Failed", "to", "execute", "apt", "command"
  ]
  const FIX_FAILED_WORDS := [
    "Pre-upgrade", "fix-broken", "failed", "—", "resolve", "dependency", "issues", "before", "retrying"
  ]
  const REFIX_FAILED_WORDS := [
    "fix-broken", "failed", "on", "retry", "—", "dependency", "issues", "remain", "unresolved"
  ]
  const FALLBACK_HEAD := ["held-package", "fallback", "(apt-get", "upgrade)", "failed"]
  const FALLBACK_TAIL := ["blocked", "by", "held", "packages", "and", "the", "fallback", "upgrade", "also", "failed"]
  const FALLBACK_FAILED_WORDS := FALLBACK_HEAD + ["—", "dist-upgrade", "was"] + FALLBACK_TAIL
  const RETRY_FALLBACK_FAILED_WORDS := FALLBACK_HEAD + ["on", "dist-upgrade", "retry", "—"] + FALLBACK_TAIL

  const CONFIGURE_FAILED := Sentence(CONFIGURE_FAILED_WORDS)
  const STILL_DIRTY := Sentence(STILL_DIRTY_WORDS)
  const APT_FAILED := Sentence(APT_FAILED_WORDS)
  const FIX_FAILED := Sentence(FIX_FAILED_WORDS)
  const REFIX_FAILED := Sentence(REFIX_FAILED_WORDS)
  const FALLBACK_FAILED := Sentence(FALLBACK_FAILED_WORDS)
  const RETRY_FALLBACK_FAILED := Sentence(RETRY_FALLBACK_FAILED_WORDS)

  function EnsureClean(runner: Runner, t: Trace): (Trace, Outcome) {
    var (t', r) := Timed(runner, t, CONFIGURE);
    match r
    case Ok(_) => (t', Ok(""))
    case Err(e) => (t', Err(e.Context(CONFIGURE_FAILED)))
  }

  function VerifyClean(runner: Runner, t: Trace): (Trace, Outcome) {
    var (t1, audit) := Timed(runner, t, AUDIT);
    if audit.Err? then (t1, audit)
    else if IsBlank(audit.value) then (t1, Ok(""))
    else
      var (t2, cleaned) := EnsureClean(runner, t1);
      if cleaned.Err? then (t2, cleaned)
      else
        var (t3, recheck) := Timed(runner, t2, AUDIT);
        if recheck.Err? then (t3, recheck)
        else if IsBlank(recheck.value) then (t3, Ok(""))
        else (t3, Err(Failure(STILL_DIRTY + ": " + Trim(recheck.value), None)))
  }

  /** The failure `run_apt_safe` reports for an answer that is not a success. */
  function AptFailure(answer: Answer): Failure {
    match answer
    case Broke(failure) => failure.Context(APT_FAILED)
    case Ran(_, _, stderr, summary) => Failure(summary, Some(stderr))
  }

  function RunApt(runner: Runner, t: Trace, args: seq<string>): (Trace, Outcome) {
    var (t1, clean) := EnsureClean(runner, t);
    if clean.Err? then (t1, clean)
    else
      var answer := runner(t1, AptGet(args));
      var t2 := Issue(runner, t1, AptGet(args));
      if !answer.Success() then (EnsureClean(runner, t2).0, Err(AptFailure(answer)))
      else
        var (t3, verified) := VerifyClean(runner, t2);
        if verified.Err? then (t3, verified) else (t3, Ok(answer.stdout))
  }

  // -------------------------------------------------------------- operations

  datatype InstallOptions = InstallOptions(force: bool, noRecommends: bool)

  function SpecArg(spec: PackageSpec): string {
    if spec.version.Some? then spec.name + "=" + spec.version.value else spec.name
  }

  function SpecArgs(specs: seq<PackageSpec>): (args: seq<string>)
    ensures |args| == |specs| && forall i :: 0 <= i < |specs| ==> args[i] == SpecArg(specs[i])
  {
    seq(|specs|, i requires 0 <= i < |specs| => SpecArg(specs[i]))
  }

  function InstallArgs(specs: seq<PackageSpec>, options: InstallOptions): seq<string> {
    ["install", "-y"]
    + (if options.noRecommends then ["--no-install-recommends"] else [])
    + (if options.force then ["--allow-unauthenticated"] else [])
    + ["--"] + SpecArgs(specs)
  }

  function UpdateArgs(name: string): seq<string> {
    ["install", "-y", "--only-upgrade", "--", name]
  }

  function RemoveArgs(name: string, purge: bool): seq<string> {
    [if purge then "purge" else "remove", "-y", "--", name]
  }

  function Repair(runner: Runner, t: Trace): (Trace, Outcome) {
    var (t', cleaned) := EnsureClean(runner, t);
    if cleaned.Err? then (t', cleaned) else VerifyClean(runner, t')
  }

  // ------------------------------------------------------------ apply_patches

  /** apt refused because the upgrade would have to change a held package. */
  predicate BlockedByHolds(failure: Failure) {
    Contains(failure.Stderr(), "held packages were changed")
    && Contains(failure.Stderr(), "--allow-change-held-packages")
  }

  predicate LooksLikeDependency(failure: Failure) {
    || Contains(failure.Stderr(), "unmet dependencies")
    || Contains(failure.Stderr(), "broken")
    || Contains(failure.Stderr(), "dependency")
  }

  const HELD_BLOCK_WORDS := ["dist-upgrade", "blocked", "by", "held", "packages"]
  const HELD_REMAIN_WORDS := [
    ";", "the", "safe", "subset", "was", "upgraded", "but", "the", "held", "packages", "and", "their", "entangled",
    "dependencies", "remain", "unpatched"
  ]
  const HELD_REVIEW_WORDS := [
    "—", "manual", "review", "required", "(the", "post-apply", "patch", "scan", "lists", "what", "stayed", "unpatched)"
  ]
  const HELD_BLOCK := Sentence(HELD_BLOCK_WORDS)
  const HELD_ADVICE := Sentence(HELD_REMAIN_WORDS + HELD_REVIEW_WORDS)

  function HeldFailure(held: string): Failure {
    Failure(HELD_BLOCK + " [" + held + "]" + HELD_ADVICE, None)
  }

  function Fallback(runner: Runner, t: Trace): (Trace, Outcome) {
    var (t1, shown) := Timed(runner, t, SHOWHOLD);
    var held := if shown.Ok? then Trim(shown.value) else "";
    var (t2, upgraded) := RunApt(runner, t1, UPGRADE);
    if upgraded.Err? then (t2, upgraded) else (t2, Ok(held))
  }

  /** The held-package branch: the safe subset is upgraded, and the result is a failure in any case. */
  function HeldBranch(runner: Runner, t: Trace, context: string): (Trace, Outcome) {
    var (t', r) := Fallback(runner, t);
    match r
    case Ok(held) => (t', Err(HeldFailure(held)))
    case Err(e) => (t', Err(e.Context(context)))
  }

  function RetryAfterFix(runner: Runner, t: Trace, args: seq<string>, all: bool): (Trace, Outcome) {
    var (t1, fixed) := RunApt(runner, t, FIX_BROKEN);
    if fixed.Err? then (t1, Err(fixed.error.Context(REFIX_FAILED)))
    else
      var (t2, retried) := RunApt(runner, t1, args);
      if retried.Ok? then (t2, retried)
      else if all && BlockedByHolds(retried.error) then HeldBranch(runner, t2, RETRY_FALLBACK_FAILED)
      else (t2, retried)
  }

  function ApplyArgs(packages: Option<seq<string>>): seq<string> {
    match packages
    case Some(names) => ["install", "-y", "--"] + names
    case None => DIST_UPGRADE
  }

  function ApplyOnce(runner: Runner, t: Trace, packages: Option<seq<string>>): (Trace, Outcome) {
    var args := ApplyArgs(packages);
    var (t1, r) := RunApt(runner, t, args);
    if r.Ok? then (t1, r)
    else if packages.None? && BlockedByHolds(r.error) then HeldBranch(runner, t1, FALLBACK_FAILED)
    else if LooksLikeDependency(r.error) then RetryAfterFix(runner, t1, args, packages.None?)
    else (t1, r)
  }

  function ApplyPatches(runner: Runner, t: Trace, packages: Option<seq<string>>): (Trace, Outcome) {
    if packages.Some? then ApplyOnce(runner, t, packages)
    else
      var (t', fixed) := RunApt(runner, t, FIX_BROKEN);
      if fixed.Err? then (t', Err(fixed.error.Context(FIX_FAILED))) else ApplyOnce(runner, t', packages)
  }

  // ------------------------------------------------------ patch transactions

  /** The text heuristics for a stale package cache. */
  predicate IsFetchText(text: string) {
    || Contains(Lower(text), "404")
    || Contains(Lower(text), "not found")
    || Contains(Lower(text), "failed to fetch")
    || Contains(Lower(text), "unable to fetch")
  }

  /** They are applied to the outermost message only. */
  predicate IsFetchError(failure: Failure) {
    IsFetchText(failure.message)
  }

  const FIRST_REFRESH_FAILED := "initial cache refresh failed"
  const RETRY_REFRESH_FAILED := "retry cache refresh failed"
  const RETRY_APPLY_FAILED := "retry patch apply failed"

  /** The closure a patch task dispatches: refresh, apply, and once more after a fetch error of the apply. */
  function PatchTransaction(runner: Runner, t: Trace, packages: Option<seq<string>>): (Trace, Outcome) {
    var (t1, refreshed) := RunApt(runner, t, REFRESH);
    if refreshed.Err? then (t1, Err(refreshed.error.Context(FIRST_REFRESH_FAILED)))
    else
      var (t2, applied) := ApplyPatches(runner, t1, packages);
      if applied.Ok? || !IsFetchError(applied.error) then (t2, applied)
      else
        var (t3, again) := RunApt(runner, t2, REFRESH);
        if again.Err? then (t3, Err(again.error.Context(RETRY_REFRESH_FAILED)))
        else
          var (t4, retried) := ApplyPatches(runner, t3, packages);
          match retried
          case Ok(_) => (t4, retried)
          case Err(e) => (t4, Err(e.Context(RETRY_APPLY_FAILED)))
  }
}
