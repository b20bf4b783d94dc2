/**
 * The APT backend as the source has it: an object that issues commands one
 * after the other.  Each method is proved against the function of the same
 * name in Apt.dfy and keeps the command discipline.
 */
module AptObject {
  import opened Wrappers
  import opened Jobs
  import opened Text
  import opened Apt
  import opened AptLaws

  class AptBackend {
    const runner: Runner
    var trace: Trace

    ghost predicate Valid()
      reads this
    {
      Guarded(trace)
    }

    constructor (runner: Runner)
      ensures Valid() && trace == [] && this.runner == runner
    {
      this.runner := runner;
      trace := [];
    }

    method Issue(c: Command) returns (answer: Answer)
      modifies this
      ensures answer == runner(old(trace), c) && trace == Apt.Issue(runner, old(trace), c)
    {
      answer := runner(trace, c);
      trace := trace + [Exchange(c, answer)];
    }

    method Timed(c: Command) returns (r: Outcome)
      modifies this
      ensures (trace, r) == Apt.Timed(runner, old(trace), c)
    {
      var answer := Issue(c);
      match answer
      case Ran(_, stdout, _, _) => r := Ok(stdout);
      case Broke(failure) => r := Err(failure);
    }

    method EnsureClean() returns (r: Outcome)
      modifies this
      ensures (trace, r) == Apt.EnsureClean(runner, old(trace))
    {
      r := Timed(CONFIGURE);
      match r
      case Ok(_) => r := Ok("");
      case Err(e) => r := Err(e.Context(CONFIGURE_FAILED));
    }

    method VerifyClean() returns (r: Outcome)
      modifies this
      ensures (trace, r) == Apt.VerifyClean(runner, old(trace))
    {
      r := Timed(AUDIT);
      if r.Err? {
        return;
      }
      if IsBlank(r.value) {
        return Ok("");
      }
      r := EnsureClean();
      if r.Err? {
        return;
      }
      r := Timed(AUDIT);
      if r.Err? {
        return;
      }
      r := if IsBlank(r.value) then Ok("") else Err(Failure(STILL_DIRTY + ": " + Trim(r.value), None));
    }

    method RunApt(args: seq<string>) returns (r: Outcome)
      requires Valid()
      modifies this
      ensures (trace, r) == Apt.RunApt(runner, old(trace), args)
      ensures Valid() && (r.Ok? ==> EndsClean(trace))
    {
      ghost var before := trace;
      SingleCommandIsSafe(runner, before, args);
      r := EnsureClean();
      if r.Err? {
        return;
      }
      var answer := Issue(AptGet(args));
      if !answer.Success() {
        var _ := EnsureClean();
        return Err(AptFailure(answer));
      }
      r := VerifyClean();
      if r.Ok? {
        r := Ok(answer.stdout);
      }
    }

    method InstallPackages(specs: seq<PackageSpec>, options: InstallOptions) returns (r: Outcome)
      requires Valid()
      modifies this
      ensures (trace, r) == Apt.RunApt(runner, old(trace), InstallArgs(specs, options))
      ensures Valid() && (r.Ok? ==> EndsClean(trace))
    {
      var args: seq<string> := ["install", "-y"];
      if options.noRecommends {
        args := args + ["--no-install-recommends"];
      }
      if options.force {
        args := args + ["--allow-unauthenticated"];
      }
      args := args + ["--"];
      ghost var fixed := args;
      for i := 0 to |specs|
        invariant args == fixed + SpecArgs(specs)[..i]
      {
        var arg := specs[i].name;
        if specs[i].version.Some? {
          arg := specs[i].name + "=" + specs[i].version.value;
        }
        args := args + [arg];
      }
      assert args == InstallArgs(specs, options);
      r := RunApt(args);
    }

    method UpdatePackage(name: string) returns (r: Outcome)
      requires Valid()
      modifies this
      ensures (trace, r) == Apt.RunApt(runner, old(trace), UpdateArgs(name))
      ensures Valid() && (r.Ok? ==> EndsClean(trace))
    {
      r := RunApt(["install", "-y", "--only-upgrade", "--", name]);
    }

    method RemovePackage(name: string, purge: bool) returns (r: Outcome)
      requires Valid()
      modifies this
      ensures (trace, r) == Apt.RunApt(runner, old(trace), RemoveArgs(name, purge))
      ensures Valid() && (r.Ok? ==> EndsClean(trace))
    {
      if purge {
        r := RunApt(["purge", "-y", "--", name]);
      } else {
        r := RunApt(["remove", "-y", "--", name]);
      }
    }

    method RefreshPackageCache() returns (r: Outcome)
      requires Valid()
      modifies this
      ensures (trace, r) == Apt.RunApt(runner, old(trace), REFRESH)
      ensures Valid() && (r.Ok? ==> EndsClean(trace))
    {
      r := RunApt(REFRESH);
    }

    method RepairPackageDatabase() returns (r: Outcome)
      requires Valid()
      modifies this
      ensures (trace, r) == Apt.Repair(runner, old(trace))
      ensures Valid() && (r.Ok? ==> EndsClean(trace))
    {
      RepairIsSafe(runner, trace);
      r := EnsureClean();
      if r.Ok? {
        r := VerifyClean();
      }
    }

    /** `fallback_to_hold_respecting_upgrade` */
    method Fallback() returns (r: Outcome)
      requires Valid()
      modifies this
      ensures (trace, r) == Apt.Fallback(runner, old(trace))
      ensures Valid()
    {
      hide Apt.RunApt, Guarded, Quiet, EndsClean;
      TimedShape(runner, trace, SHOWHOLD);
      QuietExtends(trace, Apt.Timed(runner, trace, SHOWHOLD).0);
      var shown := Timed(SHOWHOLD);
      var held := if shown.Ok? then Trim(shown.value) else "";
      r := RunApt(UPGRADE);
      if r.Ok? {
        r := Ok(held);
      }
    }

    /** The source spells this branch out twice; `context` is what differs. */
    method HeldBranch(context: string) returns (r: Outcome)
      requires Valid()
      modifies this
      ensures (trace, r) == Apt.HeldBranch(runner, old(trace), context)
      ensures Valid() && r.Err?
    {
      hide Apt.Fallback, Guarded, HeldFailure;
      r := Fallback();
      match r
      case Ok(held) => r := Err(HeldFailure(held));
      case Err(e) => r := Err(e.Context(context));
    }

    method ApplyPatches(packages: Option<seq<string>>) returns (r: Outcome)
      requires Valid()
      modifies this
      ensures (trace, r) == Apt.ApplyPatches(runner, old(trace), packages)
      ensures Valid() && (r.Ok? ==> EndsClean(trace))
    {
      ApplyOkMeansApplied(runner, trace, packages);
      hide Apt.RunApt, Apt.HeldBranch, EndsClean, Guarded;
      var args := ApplyArgs(packages);
      if packages.None? {
        r := RunApt(FIX_BROKEN);
        if r.Err? {
          return Err(r.error.Context(FIX_FAILED));
        }
      }
      r := RunApt(args);
      if r.Ok? {
        return;
      }
      if packages.None? && BlockedByHolds(r.error) {
        r := HeldBranch(FALLBACK_FAILED);
        return;
      }
      if !LooksLikeDependency(r.error) {
        return;
      }
      r := RunApt(FIX_BROKEN);
      if r.Err? {
        return Err(r.error.Context(REFIX_FAILED));
      }
      r := RunApt(args);
      if r.Err? && packages.None? && BlockedByHolds(r.error) {
        r := HeldBranch(RETRY_FALLBACK_FAILED);
      }
    }

    /** The closure that a patch task runs while it owns the mutation slot. */
    method PatchTransaction(packages: Option<seq<string>>) returns (r: Outcome)
      requires Valid()
      modifies this
      ensures (trace, r) == Apt.PatchTransaction(runner, old(trace), packages)
      ensures Valid() && (r.Ok? ==> EndsClean(trace))
    {
      r := RefreshPackageCache();
      if r.Err? {
        return Err(r.error.Context(FIRST_REFRESH_FAILED));
      }
      r := ApplyPatches(packages);
      if r.Ok? || !IsFetchError(r.error) {
        return;
      }
      r := RefreshPackageCache();
      if r.Err? {
        return Err(r.error.Context(RETRY_REFRESH_FAILED));
      }
      r := ApplyPatches(packages);
      if r.Err? {
        r := Err(r.error.Context(RETRY_APPLY_FAILED));
      }
    }
  }
}
