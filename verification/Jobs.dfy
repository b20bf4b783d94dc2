/**
 * Job records (`src/jobs/manager.rs`): statuses, operations, the transitions
 * of a single job, and the test for internal bookkeeping jobs.
 *
 * Clocks, boot ids and fresh job ids are parameters.  Messages, log lines,
 * captured command output and `updated_at` are not modelled.
 */
module Jobs {
  import opened Wrappers

  type Id = nat
  type Time = int

  datatype JobStatus = Pending | Running | Rebooting | Completed | Failed | Cancelled | TimedOut {

    predicate IsActive() {
      Pending? || Running? || Rebooting?
    }

    predicate IsTerminal() {
      Completed? || Failed? || Cancelled? || TimedOut?
    }

    /** Position in the life cycle; all terminal statuses share the last one. */
    function Rank(): nat {
      match this
      case Pending => 0
      case Running => 1
      case Rebooting => 2
      case _ => 3
    }
  }

  datatype JobOperation = Install | Update | Remove | PatchApply | Reboot | SelfUpdate | Rollback

  datatype Job = Job(
    id: Id,
    status: JobStatus,
    operation: JobOperation,
    packages: seq<string>,
    createdAt: Time,
    completedAt: Option<Time>,
    progress: nat,
    error: Option<string>,
    errorCode: Option<string>,
    rollbackOf: Option<Id>,
    exclusive: bool,
    bootId: Option<string>)
  {
    predicate IsInternal() {
      HasSentinel(packages)
    }

    /** An active job that is not internal bookkeeping: it counts against the queue. */
    predicate IsActiveReal() {
      status.IsActive() && !IsInternal()
    }

    function Complete(now: Time): Job {
      this.(status := Completed, progress := 100, completedAt := Some(now))
    }

    function Fail(reason: string, now: Time): Job {
      this.(status := Failed, error := Some(reason), completedAt := Some(now))
    }

    function SetRebooting(): Job {
      this.(status := Rebooting)
    }
  }

  function NewJob(id: Id, operation: JobOperation, packages: seq<string>, now: Time, boot: Option<string>): Job {
    Job(id, Pending, operation, packages, now, None, 0, None, None, None, false, boot)
  }

  predicate StartsWith(s: string, prefix: string) {
    |prefix| <= |s| && s[..|prefix|] == prefix
  }

  predicate EndsWith(s: string, suffix: string) {
    |suffix| <= |s| && s[|s| - |suffix|..] == suffix
  }

  /** Some package name has the reserved form `__*__`. */
  predicate HasSentinel(packages: seq<string>) {
    exists p :: p in packages && StartsWith(p, "__") && EndsWith(p, "__")
  }

  const HEALTH_REFRESH := "__health_refresh__"
  const PATCH_LIST_REFRESH := "__patch_list_refresh__"
  const SELF_PACKAGE_NAME := "linux-patch-api"
  const MAX_NAME_LENGTH := 256

  predicate IsAsciiAlphanumeric(c: char) {
    'a' <= c <= 'z' || 'A' <= c <= 'Z' || '0' <= c <= '9'
  }

  predicate IsNameChar(c: char) {
    IsAsciiAlphanumeric(c) || c == '+' || c == '.' || c == '_' || c == '-'
  }

  /** `validate_package_name` accepts `name`. */
  predicate ValidPackageName(name: string) {
    && name != ""
    && |name| <= MAX_NAME_LENGTH
    && IsAsciiAlphanumeric(name[0])
    && forall i :: 0 <= i < |name| ==> IsNameChar(name[i])
  }

  predicate AllValid(names: seq<string>) {
    forall i :: 0 <= i < |names| ==> ValidPackageName(names[i])
  }

  datatype PackageSpec = PackageSpec(name: string, version: Option<string>)

  predicate IsVersionChar(c: char) {
    IsNameChar(c) || c == ':' || c == '~'
  }

  /** `validate_version_string` accepts `version`. */
  predicate ValidVersion(version: string) {
    && version != ""
    && |version| <= MAX_NAME_LENGTH
    && IsAsciiAlphanumeric(version[0])
    && forall i :: 0 <= i < |version| ==> IsVersionChar(version[i])
  }

  predicate ValidSpec(spec: PackageSpec) {
    ValidPackageName(spec.name) && (spec.version.Some? ==> ValidVersion(spec.version.value))
  }

  function Names(specs: seq<PackageSpec>): (names: seq<string>)
    ensures |names| == |specs| && forall i :: 0 <= i < |specs| ==> names[i] == specs[i].name
  {
    seq(|specs|, i requires 0 <= i < |specs| => specs[i].name)
  }

  /**
   * `validate_package_names`: the first offending entry stops the loop, and an
   * accepted request can never be mistaken for internal bookkeeping.
   */
  method ValidatePackageNames(specs: seq<PackageSpec>) returns (bad: Option<nat>)
    ensures bad.None? <==> forall i :: 0 <= i < |specs| ==> ValidSpec(specs[i])
    ensures bad.Some? ==>
              && bad.value < |specs| && !ValidSpec(specs[bad.value])
              && forall i :: 0 <= i < bad.value ==> ValidSpec(specs[i])
    ensures bad.None? ==> !HasSentinel(Names(specs))
  {
    for i := 0 to |specs|
      invariant forall k :: 0 <= k < i ==> ValidSpec(specs[k])
    {
      if !ValidPackageName(specs[i].name) {
        return Some(i);
      }
      if specs[i].version.Some? && !ValidVersion(specs[i].version.value) {
        return Some(i);
      }
    }
    ValidNamesAreNotInternal(Names(specs));
    bad := None;
  }

  /** A request built from validated names is never treated as an internal job. */
  lemma ValidNamesAreNotInternal(names: seq<string>)
    requires AllValid(names)
    ensures !HasSentinel(names)
  {
    forall p | p in names
      ensures !StartsWith(p, "__")
    {
      assert |p| >= 2 ==> p[..2][0] == p[0] != '_';
    }
  }

  // -------------------------------------------------- the accepted alphabet

  const SMALL_LETTERS := "abcdefghijklmnopqrstuvwxyz"
  const CAPITAL_LETTERS := "ABCDEFGHIJKLMNOPQRSTUVWXYZ"
  const DIGITS := "0123456789"

  predicate IsListed(c: char) {
    c in SMALL_LETTERS || c in CAPITAL_LETTERS || c in DIGITS
  }

  /** The characters from `first` on, in order. */
  predicate IsRange(word: string, first: char) {
    forall k :: 0 <= k < |word| ==> word[k] as int == first as int + k
  }

  lemma AlphabetsAreRanges()
    ensures |SMALL_LETTERS| == 26 && IsRange(SMALL_LETTERS, 'a')
    ensures |CAPITAL_LETTERS| == 26 && IsRange(CAPITAL_LETTERS, 'A')
    ensures |DIGITS| == 10 && IsRange(DIGITS, '0')
  {
  }

  lemma InRange(word: string, first: char, c: char)
    requires IsRange(word, first)
    ensures c in word <==> first as int <= c as int < first as int + |word|
  {
    if first as int <= c as int < first as int + |word| {
      assert word[c as int - first as int] as int == c as int;
    }
  }

  lemma AlphabetIsListed(c: char)
    ensures IsAsciiAlphanumeric(c) <==> IsListed(c)
  {
    AlphabetsAreRanges();
    hide SMALL_LETTERS, CAPITAL_LETTERS, DIGITS;
    InRange(SMALL_LETTERS, 'a', c);
    InRange(CAPITAL_LETTERS, 'A', c);
    InRange(DIGITS, '0', c);
  }

  /** Names and versions are accepted exactly by length, first character and alphabet. */
  lemma AcceptanceIsLiteral(text: string)
    ensures ValidPackageName(text) <==>
            1 <= |text| <= 256 && IsListed(text[0])
            && forall c :: c in text ==> IsListed(c) || c == '+' || c == '.' || c == '_' || c == '-'
    ensures ValidVersion(text) <==>
            1 <= |text| <= 256 && IsListed(text[0])
            && forall c :: c in text ==>
                 IsListed(c) || c == '+' || c == '.' || c == '_' || c == '-' || c == ':' || c == '~'
  {
    forall c
      ensures IsAsciiAlphanumeric(c) <==> IsListed(c)
    {
      AlphabetIsListed(c);
    }
    hide IsAsciiAlphanumeric, IsListed;
    assert forall i :: 0 <= i < |text| ==> text[i] in text;
  }

  /** The tracking jobs of the background refreshes are internal. */
  lemma RefreshJobsAreInternal()
    ensures HasSentinel([HEALTH_REFRESH]) && HasSentinel([PATCH_LIST_REFRESH])
  {
    assert HEALTH_REFRESH in [HEALTH_REFRESH];
    assert StartsWith(HEALTH_REFRESH, "__") && EndsWith(HEALTH_REFRESH, "__");
    assert PATCH_LIST_REFRESH in [PATCH_LIST_REFRESH];
    assert StartsWith(PATCH_LIST_REFRESH, "__") && EndsWith(PATCH_LIST_REFRESH, "__");
  }

  /** The self-update job carries an ordinary package name. */
  lemma SelfUpdateIsNotInternal()
    ensures !HasSentinel([SELF_PACKAGE_NAME])
  {
    assert AllValid([SELF_PACKAGE_NAME]);
    ValidNamesAreNotInternal([SELF_PACKAGE_NAME]);
  }
}
