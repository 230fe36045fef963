/** The manager's helpers (src/helpers/util.js): the task runner protocol,
    publish-tag classification, the OTP / confirmation decision, the packed
    tarball check, the classification of outdated-dependency rows, and path
    relativization. Prompts, `npm` and the file system are inputs. */
module Util {
  import opened Common
  import opened Strings
  import opened Environment
  import opened Packages
  import opened Trace

  //-- relativizePath

  /** `pattern` occurs in `s` at index `j`. */
  predicate OccursAt(s: string, pattern: string, j: nat) {
    j + |pattern| <= |s| && s[j..j + |pattern|] == pattern
  }

  /** Index of the first occurrence of `pattern` in `s` at or after `from`. */
  function FindFrom(s: string, pattern: string, from: nat): (r: Option<nat>)
    requires from <= |s|
    ensures r.Some? ==> from <= r.value && OccursAt(s, pattern, r.value)
    ensures r.Some? ==> forall j: nat :: from <= j < r.value ==> !OccursAt(s, pattern, j)
    ensures r.None? ==> forall j: nat :: from <= j ==> !OccursAt(s, pattern, j)
    decreases |s| - from
  {
    if from + |pattern| > |s| then None
    else if s[from..from + |pattern|] == pattern then Some(from)
    else if from == |s| then None
    else
      var r := FindFrom(s, pattern, from + 1);
      assert !OccursAt(s, pattern, from);
      r
  }

  /** `absolutePath.replace(root, '.')`: the FIRST occurrence of the package
      root, wherever it is, becomes `.`; a path without it is unchanged. */
  function RelativizePath(root: string, path: string): (r: string)
    ensures StartsWith(path, root) ==> r == "." + path[|root|..]
    ensures (forall j: nat :: !OccursAt(path, root, j)) ==> r == path
    ensures forall k: nat :: OccursAt(path, root, k) && (forall j: nat :: j < k ==> !OccursAt(path, root, j))
              ==> r == path[..k] + "." + path[k + |root|..]
  {
    match FindFrom(path, root, 0)
    case None => path
    case Some(k) =>
      FoundFirst(path, root, k);
      path[..k] + "." + path[k + |root|..]
  }

  /** What the search from the start found is the first occurrence: at 0 when
      the path starts with the pattern. */
  lemma FoundFirst(path: string, root: string, k: nat)
    requires FindFrom(path, root, 0) == Some(k)
    ensures StartsWith(path, root) ==> k == 0 && path[..k] + "." + path[k + |root|..] == "." + path[|root|..]
    ensures forall k': nat :: OccursAt(path, root, k') && (forall j: nat :: j < k' ==> !OccursAt(path, root, j)) ==> k' == k
  {
    if StartsWith(path, root) {
      assert OccursAt(path, root, 0);
      assert path[..0] == [];
    }
    forall k': nat | OccursAt(path, root, k') && (forall j: nat :: j < k' ==> !OccursAt(path, root, j))
      ensures k' == k
    {
      FirstOccurrence(path, root, k, k');
    }
  }

  /** The search from the start finds the first occurrence and no other. */
  lemma FirstOccurrence(path: string, root: string, k: nat, k': nat)
    requires FindFrom(path, root, 0) == Some(k)
    requires OccursAt(path, root, k') && forall j: nat :: j < k' ==> !OccursAt(path, root, j)
    ensures k' == k
  {
  }

  //-- taskRunner

  /** The opening box: a nested info box when grouped, a title box otherwise. */
  function OpeningBanner(data: TaskData, grouped: bool): Event {
    if grouped then InfoBox(data.name + ": " + data.banner) else TitleBox("Manager: " + data.banner)
  }

  /** `figures.pointer` and `figures.tick`, as printed on POSIX terminals. */
  const Pointer: string := "❯"
  const Tick: string := "✔"

  function CompletionBanner(data: TaskData): Event {
    InfoBox(data.name + ": " + Tick + " Completed")
  }

  /** Awaiting a hook: one call event, then its resolution or rejection. */
  function CallHook(name: string, phase: Phase, hook: Hook): Run {
    Run([HookCalled(name, phase)], if hook.rejection.Some? then Failed(hook.rejection.value) else Done)
  }

  function PrePhase(name: string, hook: Option<Hook>): Run {
    match hook
    case None => Emit([Echo(Pointer + " " + name + ": No custom pre-runner")])
    case Some(h) =>
      Then(Emit([InfoBox(name + ": Custom pre-runner")]), Then(CallHook(name, Pre, h), Emit([InfoBox(name + ": Generic runner")])))
  }

  function PostPhase(name: string, hook: Option<Hook>): Run {
    match hook
    case None => Emit([Echo(Pointer + " " + name + ": No custom post-runner")])
    case Some(h) => Then(Emit([InfoBox(name + ": Custom post-runner")]), CallHook(name, Post, h))
  }

  /** `taskRunner({ task, hooks, grouped }, main)` for a task identifier. */
  function TaskRunner(task: string, hooks: TaskHooks, grouped: bool, main: Run): Run {
    if task !in TASK_DATA then Run([], Failed("TypeError: Cannot destructure property 'name' of undefined"))
    else
      var data := TASK_DATA[task];
      Then(Emit([OpeningBanner(data, grouped)]),
        Then(PrePhase(data.name, hooks.preRun),
          Then(main,
            Then(PostPhase(data.name, hooks.postRun),
              Emit(if grouped then [CompletionBanner(data)] else [])))))
  }

  //-- getTag

  /** `getTag(version)`: `latest` unless the version has a prerelease part. An
      absent version does not parse, so it has no prerelease either. */
  function GetTag(version: Option<SemVer>): (tag: string)
    ensures tag == "latest" <==> version.None? || version.value.prerelease.None?
    ensures tag == "next" <==> version.Some? && version.value.prerelease.Some?
  {
    if version.Some? && version.value.prerelease.Some? then "next" else "latest"
  }

  //-- getOTP

  /** `/^\d{6}$/u`: exactly six ASCII digits. */
  predicate IsOtpFormat(s: string) {
    |s| == 6 && forall i :: 0 <= i < |s| ==> '0' <= s[i] <= '9'
  }

  /** The answer the OTP prompt accepts: it re-asks until validation passes. */
  function FirstValidOtp(attempts: seq<string>): (r: Option<nat>)
    ensures r.Some? ==> r.value < |attempts| && IsOtpFormat(attempts[r.value])
    ensures r.Some? ==> forall j :: 0 <= j < r.value ==> !IsOtpFormat(attempts[j])
    ensures r.None? ==> forall j :: 0 <= j < |attempts| ==> !IsOtpFormat(attempts[j])
  {
    if |attempts| == 0 then None
    else if IsOtpFormat(attempts[0]) then Some(0)
    else match FirstValidOtp(attempts[1..])
      case None => None
      case Some(k) => Some(k + 1)
  }

  datatype Authorization = Authorization(run: Run, otp: Option<string>)

  /** `getOTP(useOTP)`: with `useOTP` only the OTP is asked, otherwise only a
      yes/no confirmation; a refused confirmation exits with
      "Publication cancelled" before anything is returned. */
  function GetOtp(useOTP: bool, otpAttempts: seq<string>, confirm: bool): (a: Authorization)
    ensures a.run.events == (if useOTP then [Act(AskOtp)] else [Act(AskConfirmation)])
    ensures a.run.outcome.Done? <==> (if useOTP then FirstValidOtp(otpAttempts).Some? else confirm)
    ensures a.run.outcome == Exited("Publication cancelled") <==> !useOTP && !confirm
    ensures a.run.outcome.Stalled? <==> useOTP && FirstValidOtp(otpAttempts).None?
    ensures a.otp.Some? <==> a.run.outcome.Done? && useOTP
    ensures a.otp.Some? ==> IsOtpFormat(a.otp.value) && a.otp.value in otpAttempts
  {
    if useOTP then
      match FirstValidOtp(otpAttempts)
      case None => Authorization(Run([Act(AskOtp)], Stalled), None)
      case Some(k) => Authorization(Run([Act(AskOtp)], Done), Some(otpAttempts[k]))
    else if confirm then Authorization(Run([Act(AskConfirmation)], Done), None)
    else Authorization(Run([Act(AskConfirmation)], Exited("Publication cancelled")), None)
  }

  //-- npmPack

  datatype Packed = Packed(tarball: string, version: Option<SemVer>)

  datatype Packing = Packing(run: Run, packed: Option<Packed>)

  /** Where `npm pack` is expected to leave the tarball of `config`. */
  function ExpectedTarball(directory: string, config: PackageJson, kebab: string -> string): string {
    directory + "/" + kebab(config.name) + "-" + VersionText(config.version) + ".tgz"
  }

  /** `npmPack(root)`: packs, then reads the package's name and version and
      expects the tarball at exactly one name; no other name is tried. */
  function NpmPack(root: string, directory: string, packages: map<string, PackageJson>,
                   tarballs: set<string>, kebab: string -> string): (p: Packing)
    ensures p.run.events == [Act(Pack(root))]
    ensures p.run.outcome.Done? <==> root in packages && ExpectedTarball(directory, packages[root], kebab) in tarballs
    ensures p.packed.Some? <==> p.run.outcome.Done?
    ensures p.packed.Some? ==> p.packed.value == Packed(ExpectedTarball(directory, packages[root], kebab), packages[root].version)
    ensures root !in packages ==> p.run.outcome == Failed("ENOENT: no such file or directory, open '" + root + "/package.json'")
    ensures root in packages && !p.run.outcome.Done? ==>
              p.run.outcome == Failed("Tarball name mismatch '" + ExpectedTarball(directory, packages[root], kebab) + "'")
  {
    if root !in packages then
      Packing(Run([Act(Pack(root))], Failed("ENOENT: no such file or directory, open '" + root + "/package.json'")), None)
    else
      var config := packages[root];
      var tarball := ExpectedTarball(directory, config, kebab);
      if tarball in tarballs then Packing(Run([Act(Pack(root))], Done), Some(Packed(tarball, config.version)))
      else Packing(Run([Act(Pack(root))], Failed("Tarball name mismatch '" + tarball + "'")), None)
  }

  //-- npmOutdated

  /** A coerced version `major.minor.patch`. */
  datatype Ver = Ver(major: nat, minor: nat, patch: nat)

  /** `semver.lte` on coerced versions. */
  predicate Lte(a: Ver, b: Ver) {
    a.major < b.major || (a.major == b.major && (a.minor < b.minor || (a.minor == b.minor && a.patch <= b.patch)))
  }

  /** One entry of the dependency check. `wanted` is `semver.coerce(wantedRaw)`
      (absent when the range does not coerce); a missing `latest` prints as
      `NOT FOUND`. */
  datatype Dependency = Dependency(
    name: string,
    isInstalled: bool,
    wantedRaw: Option<string>,
    wanted: Option<Ver>,
    installed: Ver,
    latest: Option<Ver>)

  datatype RowKind =
    | UpToDate                                         // shown in verbose mode only
    | Mismatch(installedBehind: bool, wantedBehind: bool)
    | Beyond                                           // installed or wanted above latest, or latest unknown
    | NotInstalled

  datatype Row = Row(kind: RowKind, name: string, installed: Option<Ver>, wantedRaw: string, latest: Option<Ver>)

  predicate HasWanted(d: Dependency) {
    d.wantedRaw.Some? && d.wantedRaw.value != ""
  }

  /** The row one dependency contributes, if any; an uncoercible wanted
      range is a TypeError that aborts the whole check. */
  function Classify(d: Dependency, verbose: bool): (r: Result<Option<Row>>)
    ensures r.Err? <==> HasWanted(d) && d.wanted.None?
    ensures !HasWanted(d) ==> r == Ok(None)
    ensures r.Ok? && r.value.Some? ==> r.value.value.name == d.name && r.value.value.latest == d.latest
    ensures r.Ok? && r.value.Some? ==> (r.value.value.kind.NotInstalled? <==> !d.isInstalled)
    ensures HasWanted(d) && d.wanted.Some? && d.isInstalled ==>
              var ok := d.latest.Some? && Lte(d.installed, d.latest.value) && Lte(d.wanted.value, d.latest.value);
              var same := d.latest.Some? && d.installed == d.latest.value && d.wanted.value == d.latest.value;
              && (r == Ok(None) <==> ok && same && !verbose)
              && (r.value.Some? ==> (r.value.value.kind.UpToDate? <==> ok && same))
              && (r.value.Some? ==> (r.value.value.kind.Mismatch? <==> ok && !same))
              && (r.value.Some? ==> (r.value.value.kind.Beyond? <==> !ok))
  {
    if !HasWanted(d) then Ok(None)
    else if d.wanted.None? then Err("TypeError: Cannot read property 'version' of null")
    else
      var wanted := d.wanted.value;
      var raw := d.wantedRaw.value;
      if !d.isInstalled then Ok(Some(Row(NotInstalled, d.name, None, raw, d.latest)))
      else if d.latest.Some? && Lte(d.installed, d.latest.value) && Lte(wanted, d.latest.value) then
        var latest := d.latest.value;
        if d.installed == latest && wanted == latest then
          if verbose then Ok(Some(Row(UpToDate, d.name, Some(d.installed), raw, d.latest))) else Ok(None)
        else Ok(Some(Row(Mismatch(d.installed != latest, wanted != latest), d.name, Some(d.installed), raw, d.latest)))
      else Ok(Some(Row(Beyond, d.name, Some(d.installed), raw, d.latest)))
  }

  /** The result rows of all dependencies, in order. */
  function Rows(deps: seq<Dependency>, verbose: bool): (r: Result<seq<Row>>)
    ensures r.Ok? <==> forall i :: 0 <= i < |deps| ==> Classify(deps[i], verbose).Ok?
    ensures r.Ok? ==> |r.value| <= |deps|
    ensures r.Ok? ==> (|r.value| == 0 <==> forall i :: 0 <= i < |deps| ==> Classify(deps[i], verbose) == Ok(None))
  {
    if |deps| == 0 then Ok([])
    else
      var head := Classify(deps[0], verbose);
      RowsShift(deps, verbose);
      if head.Err? then Err(head.error)
      else
        match Rows(deps[1..], verbose)
        case Err(e) => Err(e)
        case Ok(rest) => Ok(Shown(head.value) + rest)
  }

  /** Every dependency classifies, or shows nothing, exactly when the first
      does and all the others do. */
  lemma RowsShift(deps: seq<Dependency>, verbose: bool)
    requires |deps| > 0
    ensures (forall i :: 0 <= i < |deps| ==> Classify(deps[i], verbose).Ok?) <==>
              Classify(deps[0], verbose).Ok? && forall i :: 0 <= i < |deps[1..]| ==> Classify(deps[1..][i], verbose).Ok?
    ensures (forall i :: 0 <= i < |deps| ==> Classify(deps[i], verbose) == Ok(None)) <==>
              Classify(deps[0], verbose) == Ok(None) && forall i :: 0 <= i < |deps[1..]| ==> Classify(deps[1..][i], verbose) == Ok(None)
  {
    assert forall i :: 1 <= i < |deps| ==> deps[i] == deps[1..][i - 1];
  }

  /** What a dependency shows, as a list of at most one row. */
  function Shown(row: Option<Row>): seq<Row> {
    if row.Some? then [row.value] else []
  }

  /** One step of the check: the first dependency, then the others. */
  lemma RowsCons(deps: seq<Dependency>, verbose: bool)
    requires |deps| > 0
    ensures Rows(deps, verbose) ==
              match Classify(deps[0], verbose)
              case Err(e) => Err(e)
              case Ok(row) =>
                match Rows(deps[1..], verbose)
                case Err(e) => Err(e)
                case Ok(rest) => Ok(Shown(row) + rest)
  {
  }

  /** One dependency alone: its error, or its row if it shows one. */
  lemma RowsSingle(d: Dependency, verbose: bool)
    ensures Rows([d], verbose) ==
              match Classify(d, verbose)
              case Err(e) => Err(e)
              case Ok(row) => Ok(Shown(row))
  {
    RowsCons([d], verbose);
    assert [d][1..] == [];
    assert Rows([], verbose) == Ok([]);
    if Classify(d, verbose).Ok? {
      assert Shown(Classify(d, verbose).value) + [] == Shown(Classify(d, verbose).value);
    }
  }

  /** The rows of a concatenation are the rows of each part, in order; the
      check fails exactly when one of the parts fails, with the first part's
      error when that one fails. */
  lemma {:induction false} RowsAppend(a: seq<Dependency>, b: seq<Dependency>, verbose: bool)
    ensures Rows(a + b, verbose).Ok? <==> Rows(a, verbose).Ok? && Rows(b, verbose).Ok?
    ensures Rows(a + b, verbose).Ok? ==> Rows(a + b, verbose).value == Rows(a, verbose).value + Rows(b, verbose).value
    ensures Rows(a, verbose).Err? ==> Rows(a + b, verbose) == Rows(a, verbose)
    decreases |a|
  {
    if |a| == 0 {
      assert a + b == b;
      assert Rows(a, verbose) == Ok([]);
      if Rows(b, verbose).Ok? {
        assert [] + Rows(b, verbose).value == Rows(b, verbose).value;
      }
    } else {
      assert (a + b)[0] == a[0];
      assert (a + b)[1..] == a[1..] + b;
      RowsAppend(a[1..], b, verbose);
      RowsCons(a + b, verbose);
      RowsCons(a, verbose);
      var head := Classify(a[0], verbose);
      var ra, rb := Rows(a[1..], verbose), Rows(b, verbose);
      if head.Ok? && ra.Ok? && rb.Ok? {
        var h := Shown(head.value);
        assert h + (ra.value + rb.value) == (h + ra.value) + rb.value;
      }
    }
  }

  datatype TableLine = HeaderLine | RowLine(row: Row)

  datatype Report = Table(lines: seq<TableLine>) | AllGood

  /** `npmOutdated(root, verbose)` after the dependency check: a table whose
      header is prepended exactly when there is a row, else "All is good". */
  function OutdatedReport(deps: seq<Dependency>, verbose: bool): (r: Result<Report>)
    ensures r.Ok? <==> Rows(deps, verbose).Ok?
    ensures r.Ok? ==> (r.value.AllGood? <==> |Rows(deps, verbose).value| == 0)
    ensures r.Ok? && r.value.Table? ==>
              var rows := Rows(deps, verbose).value;
              && |r.value.lines| == |rows| + 1 && r.value.lines[0] == HeaderLine
              && forall i :: 0 <= i < |rows| ==> r.value.lines[i + 1] == RowLine(rows[i])
  {
    match Rows(deps, verbose)
    case Err(e) => Err(e)
    case Ok(rows) =>
      if |rows| == 0 then Ok(AllGood)
      else Ok(Table([HeaderLine] + seq(|rows|, i requires 0 <= i < |rows| => RowLine(rows[i]))))
  }

  /** `npmOutdated(root, verbose)` as a step: one dependency check of `root`,
      which completes when every dependency classifies and otherwise rejects
      with the TypeError of the first uncoercible wanted range. */
  function NpmOutdated(root: string, deps: seq<Dependency>, verbose: bool): (r: Run)
    ensures r.events == [Act(CheckOutdated(root))]
    ensures r.outcome.Done? <==> OutdatedReport(deps, verbose).Ok?
    ensures r.outcome.Done? <==> forall i :: 0 <= i < |deps| ==> !(HasWanted(deps[i]) && deps[i].wanted.None?)
    ensures !r.outcome.Done? ==> r.outcome == Failed(Rows(deps, verbose).error)
  {
    match Rows(deps, verbose)
    case Ok(_) => Run([Act(CheckOutdated(root))], Done)
    case Err(e) => Run([Act(CheckOutdated(root))], Failed(e))
  }
}
