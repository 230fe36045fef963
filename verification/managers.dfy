/** The package managers (src/managers/): one set of task compositions
    shared by both repository layouts, and the bodies the single-package and
    multi-package layouts plug into it. Every task is a trace produced by the
    task runner around its body; the file system, `npm`, `lerna` and the
    prompts are read from a `World`. */
module Managers {
  import opened Common
  import opened Strings
  import opened Environment
  import opened Packages
  import opened Trace
  import Builder
  import Paths
  import Util
  import Workspace

  //-- Construction

  /** `ManagerOptions`; an absent field takes its default. */
  datatype ManagerOptions = ManagerOptions(
    restricted: Option<bool>,
    useOTP: Option<bool>,
    dist: Option<Builder.DistOptions>,
    tasks: Option<map<string, TaskHooks>>)

  /** What the constructor records: publication settings, `dist` and the hooks. */
  datatype Context = Context(
    restricted: bool,
    useOTP: bool,
    dist: Option<Builder.DistOptions>,
    tasks: map<string, TaskHooks>)

  /** The constructor: publication is public unless `restricted` is given as
      true, uses a one-time password unless `useOTP` is given as false, and
      there are no hooks unless `tasks` is given. */
  function NewContext(o: ManagerOptions): (c: Context)
    ensures c.restricted <==> o.restricted == Some(true)
    ensures !c.useOTP <==> o.useOTP == Some(false)
    ensures c.dist == o.dist
    ensures o.tasks.None? ==> c.tasks == map[]
    ensures o.tasks.Some? ==> c.tasks == o.tasks.value
  {
    Context(o.restricted.GetOr(false), o.useOTP.GetOr(true), o.dist, o.tasks.GetOr(map[]))
  }

  datatype Manager =
    | Single(ctx: Context)
    | Multi(ctx: Context, subpackages: seq<Workspace.Subpackage>)

  /** The multi-package constructor: the context, then the sub-packages
      discovered from the `lerna exec -- pwd` output. */
  function NewMulti(o: ManagerOptions, packageRoot: string, rawList: string): (m: Manager)
    ensures m.Multi? && m.ctx == NewContext(o)
    ensures |m.subpackages| == |Workspace.DiscoveredPaths(rawList)|
    ensures forall i :: 0 <= i < |m.subpackages| ==>
              m.subpackages[i] == Workspace.SubpackageOf(packageRoot, Workspace.DiscoveredPaths(rawList)[i])
  {
    Multi(NewContext(o), Workspace.Subpackages(packageRoot, rawList))
  }

  /** What the tasks read from outside the program. */
  datatype World = World(
    root: string,                        // the package root every default path derives from
    packages: map<string, PackageJson>,  // readable `package.json` files, by package directory
    lernaVersion: Option<SemVer>,        // `version` of `lerna.json`, absent when the file or field is
    packDirectory: string,               // the temporary directory `npm pack` writes into
    tarballs: set<string>,               // tarballs present after packing
    kebab: string -> string,             // `lodash.kebabcase`
    testsPass: bool,                     // `npm test` succeeds
    otpAttempts: seq<string>,            // successive answers to the OTP prompt
    confirm: bool,                       // answer to the publication confirmation
    dependencies: string -> seq<Util.Dependency>)  // what npm-check reports for the package in a directory

  /** The `version` getter: `package.json`'s for a single package, `lerna.json`'s for a multi package. */
  function Version(m: Manager, w: World): Option<SemVer> {
    match m
    case Single(_) => if w.root in w.packages then w.packages[w.root].version else None
    case Multi(_, _) => w.lernaVersion
  }

  /** The sub-packages a manager works on: none for a single package. */
  function SubpackagesOf(m: Manager): seq<Workspace.Subpackage> {
    match m
    case Single(_) => []
    case Multi(_, subs) => subs
  }

  //-- runTask

  datatype TaskName = InstallTask | OutdatedTask | BuildTask | WatchTask | DocumentationTask
                    | PrepareTask | RebuildTask | PublishTask

  function TaskKey(t: TaskName): string {
    match t
    case InstallTask => "install"
    case OutdatedTask => "outdated"
    case BuildTask => "build"
    case WatchTask => "watch"
    case DocumentationTask => "documentation"
    case PrepareTask => "prepare"
    case RebuildTask => "rebuild"
    case PublishTask => "publish"
  }

  /** The hooks configured for a task key; none when it has no entry. */
  function HooksFor(m: Manager, t: TaskName): TaskHooks {
    if TaskKey(t) in m.ctx.tasks then m.ctx.tasks[TaskKey(t)] else NoHooks
  }

  /** The identifier the runner receives for `task + subtask`; an unknown key
      reaches the runner as the string `undefined`. */
  function TaskIdentifier(t: TaskName, subtask: string): (id: string)
    ensures TaskKey(t) + subtask in TASK ==> id == TASK[TaskKey(t) + subtask]
  {
    if TaskKey(t) + subtask in TASK then TASK[TaskKey(t) + subtask] else "undefined"
  }

  /** `runTask`: the identifier is looked up with the subtask, the hooks without it. */
  function RunTask(m: Manager, t: TaskName, subtask: string, grouped: bool, body: Run): Run {
    Util.TaskRunner(TaskIdentifier(t, subtask), HooksFor(m, t), grouped, body)
  }

  //-- Helpers of the bodies

  /** `forEachSubpackage(toExecute)`: every callback is awaited in list
      order; the first one that does not complete ends the loop with its
      outcome, and no later one is started. */
  function ForEachSubpackage(subs: seq<Workspace.Subpackage>, step: Workspace.Subpackage -> Run): (r: Run)
    ensures r.outcome.Done? <==> FirstIncomplete(subs, step).None?
    ensures !r.outcome.Done? ==> r.outcome == step(subs[FirstIncomplete(subs, step).value]).outcome
    decreases |subs|
  {
    if |subs| == 0 then Emit([])
    else Then(step(subs[0]), ForEachSubpackage(subs[1..], step))
  }

  /** The first sub-package whose callback does not complete, if any. */
  function FirstIncomplete(subs: seq<Workspace.Subpackage>, step: Workspace.Subpackage -> Run): (r: Option<nat>)
    ensures r.Some? ==> r.value < |subs| && !step(subs[r.value]).outcome.Done?
    ensures r.Some? ==> forall i :: 0 <= i < r.value ==> step(subs[i]).outcome.Done?
    ensures r.None? ==> forall i :: 0 <= i < |subs| ==> step(subs[i]).outcome.Done?
    decreases |subs|
  {
    if |subs| == 0 then None
    else if !step(subs[0]).outcome.Done? then Some(0)
    else match FirstIncomplete(subs[1..], step)
      case None => None
      case Some(k) => Some(k + 1)
  }

  /** How many callbacks the loop starts: all of them, or up to and including
      the first that does not complete. */
  function Reach(subs: seq<Workspace.Subpackage>, step: Workspace.Subpackage -> Run): (n: nat)
    ensures n <= |subs|
    ensures FirstIncomplete(subs, step).None? ==> n == |subs|
  {
    match FirstIncomplete(subs, step)
    case None => |subs|
    case Some(k) => k + 1
  }

  /** The effects of every callback, concatenated in list order. */
  function EachActions(subs: seq<Workspace.Subpackage>, step: Workspace.Subpackage -> Run): seq<Action> {
    if |subs| == 0 then [] else Actions(step(subs[0]).events) + EachActions(subs[1..], step)
  }

  /** The loop has the effects of the callbacks it starts, in list order. */
  lemma {:induction false} ForEachActions(subs: seq<Workspace.Subpackage>, step: Workspace.Subpackage -> Run)
    ensures Actions(ForEachSubpackage(subs, step).events) == EachActions(subs[..Reach(subs, step)], step)
    decreases |subs|
  {
    if |subs| > 0 {
      var first := step(subs[0]);
      var rest := ForEachSubpackage(subs[1..], step);
      ThenActions(first, rest);
      if first.outcome.Done? {
        ForEachActions(subs[1..], step);
        EachActionsCons(subs, Reach(subs[1..], step), step);
      } else {
        assert subs[..1] == [subs[0]];
        assert EachActions(subs[..1], step) == Actions(first.events) + EachActions([], step);
      }
    }
  }

  lemma {:induction false} EachActionsCons(subs: seq<Workspace.Subpackage>, n: nat, step: Workspace.Subpackage -> Run)
    requires n < |subs|
    ensures Actions(step(subs[0]).events) + EachActions(subs[1..][..n], step) == EachActions(subs[..n + 1], step)
  {
    var prefix := subs[..n + 1];
    assert prefix[0] == subs[0];
    assert prefix[1..] == subs[1..][..n];
  }

  /** A callback that completes with the given effects. */
  function Completing(effects: Workspace.Subpackage -> seq<Action>): Workspace.Subpackage -> Run {
    (s: Workspace.Subpackage) => Emit(Acts(effects(s)))
  }

  /** The effects of every sub-package, concatenated in list order. */
  function EachEffects(subs: seq<Workspace.Subpackage>, effects: Workspace.Subpackage -> seq<Action>): seq<Action> {
    if |subs| == 0 then [] else effects(subs[0]) + EachEffects(subs[1..], effects)
  }

  /** With callbacks that always complete, the loop completes with every
      sub-package's effects, in list order. */
  lemma {:induction false} ForEachCompleting(subs: seq<Workspace.Subpackage>, effects: Workspace.Subpackage -> seq<Action>)
    ensures ForEachSubpackage(subs, Completing(effects)) == Emit(Acts(EachEffects(subs, effects)))
    decreases |subs|
  {
    if |subs| > 0 {
      ForEachCompleting(subs[1..], effects);
      ActsAppend(effects(subs[0]), EachEffects(subs[1..], effects));
    }
  }

  /** The sub-packages as the builder's source/destination pairs. */
  function InOuts(subs: seq<Workspace.Subpackage>): (r: seq<Builder.InOut>)
    ensures |r| == |subs|
    ensures forall i :: 0 <= i < |r| ==> r[i] == Builder.InOut(subs[i].source, subs[i].destination)
  {
    seq(|subs|, i requires 0 <= i < |subs| => Builder.InOut(subs[i].source, subs[i].destination))
  }

  function ReadFailure(path: string): string {
    "ENOENT: no such file or directory, open '" + path + "'"
  }

  const NoDevDependencies: string := "TypeError: Cannot convert undefined or null to object"

  /** Reading the package's `package.json` and testing
      `Object.keys(config.devDependencies).includes(config.name)`. */
  function SelfReference(w: World): (r: Result<bool>)
    ensures r.Ok? <==> w.root in w.packages && w.packages[w.root].devDependencies.Some?
    ensures r.Ok? ==> (r.value <==> w.packages[w.root].name in w.packages[w.root].devDependencies.value)
  {
    if w.root !in w.packages then Err(ReadFailure(Paths.PackageConfig(w.root)))
    else
      var config := w.packages[w.root];
      if config.devDependencies.None? then Err(NoDevDependencies)
      else Ok(config.name in config.devDependencies.value)
  }

  /** The `package.json` written back by the single-package prepare: the
      self-reference pinned to the package's own version. An absent version
      drops the entry, as JSON serialization drops `undefined`. */
  function PinSelfReference(config: PackageJson): (r: PackageJson)
    requires config.devDependencies.Some?
    ensures r.name == config.name && r.version == config.version && r.devDependencies.Some?
    ensures config.version.Some? ==>
              config.name in r.devDependencies.value && r.devDependencies.value[config.name] == VersionText(config.version)
    ensures config.version.None? ==> config.name !in r.devDependencies.value
    ensures forall k :: k != config.name ==>
              (k in r.devDependencies.value <==> k in config.devDependencies.value) &&
              (k in r.devDependencies.value ==> r.devDependencies.value[k] == config.devDependencies.value[k])
  {
    var deps := config.devDependencies.value;
    var pinned := if config.version.Some? then deps[config.name := VersionText(config.version)]
                  else deps - {config.name};
    config.(devDependencies := Some(pinned))
  }

  /** `npm test`; a failing suite is taken to reject like any failed command. */
  function TestGate(w: World): Run {
    Run([Act(RunTests)], if w.testsPass then Done else Failed("Command failed: npm test"))
  }

  //-- Bodies

  function InstallBody(m: Manager, w: World): Run {
    match m
    case Single(_) =>
      (match SelfReference(w)
       case Err(e) => Run([], Failed(e))
       case Ok(selfReferenced) =>
         if selfReferenced then
           var name := w.packages[w.root].name;
           Emit([Act(ReplaceWithSymlink(w.root + "/node_modules/" + name, w.root)), Echo("Symlink self-reference dependency")])
         else Emit([]))
    case Multi(_, _) =>
      Emit([Echo("Install subpackages dependencies and link siblings"), Act(RemoveSubpackageLockfiles), Act(BootstrapWorkspace)])
  }

  /** `util.npmOutdated(root)` as the managers call it: not verbose, on what
      npm-check reports in `root`. */
  function CheckOutdatedIn(w: World, root: string): Run {
    Util.NpmOutdated(root, w.dependencies(root), false)
  }

  /** The dependency check of `root` finds no uncoercible wanted range. */
  predicate CheckPasses(w: World, root: string) {
    Util.Rows(w.dependencies(root), false).Ok?
  }

  /** The callback of the multi-package outdated loop. */
  function OutdatedStep(w: World): Workspace.Subpackage -> Run {
    (s: Workspace.Subpackage) => CheckOutdatedIn(w, s.root)
  }

  function OutdatedBody(m: Manager, w: World): Run {
    match m
    case Single(_) => Emit([])
    case Multi(_, subs) => ForEachSubpackage(subs, OutdatedStep(w))
  }

  /** The sub-package list the builder receives: none for a single package. */
  function BuildInOut(m: Manager): Option<seq<Builder.InOut>> {
    match m
    case Single(_) => None
    case Multi(_, subs) => Some(InOuts(subs))
  }

  /** `builder.run` (or `builder.watch`) of `dist`, over the sub-packages for a multi package. */
  function BuildBody(m: Manager, dist: Builder.DistOptions, watch: bool): Run {
    Emit([Act(if watch then WatchDistributions(dist, BuildInOut(m)) else BuildDistributions(dist, BuildInOut(m)))])
  }

  /** API documentation at `depth` 2 and text documentation, both into `docs/<name>`. */
  function DocumentationEffects(root: string): Workspace.Subpackage -> seq<Action> {
    (s: Workspace.Subpackage) =>
      var destination := Paths.PackageDocumentation(root) + "/" + s.name;
      var source := s.root + "/" + Paths.SubpackageSources;
      [ApiDocs(s.root, source, destination, 2), TextDocs(source, destination)]
  }

  function DocumentationBody(m: Manager, w: World): Run {
    match m
    case Single(_) =>
      Emit(Acts([ApiDocs(w.root, Paths.PackageSources(w.root), Paths.PackageDocumentation(w.root), 1),
                 TextDocs(Paths.PackageSources(w.root), Paths.PackageDocumentation(w.root))]))
    case Multi(_, subs) => ForEachSubpackage(subs, Completing(DocumentationEffects(w.root)))
  }

  function LicenseEffects(s: Workspace.Subpackage): seq<Action> {
    [CopyLicense(s.root)]
  }

  /** The multi-package prepare with the license loop awaited: every license
      is copied, then the versions are synchronised. */
  function MultiPrepareBody(subs: seq<Workspace.Subpackage>, version: Option<SemVer>): Run {
    Then(ForEachSubpackage(subs, Completing(LicenseEffects)), Emit([Act(SyncVersions(VersionText(version)))]))
  }

  /** The multi-package prepare as written: the license loop is started but not
      awaited, so only the first copy happens before the version command; the
      others follow it. */
  function MultiPrepareBodyAsWritten(subs: seq<Workspace.Subpackage>, version: Option<SemVer>): Run {
    var sync := [SyncVersions(VersionText(version))];
    if |subs| == 0 then Emit(Acts(sync))
    else Emit(Acts(LicenseEffects(subs[0]) + sync + EachEffects(subs[1..], LicenseEffects)))
  }

  function PrepareBody(m: Manager, w: World): Run {
    match m
    case Single(_) =>
      Then(Emit([Act(UpdateNodeVersion)]),
        match SelfReference(w)
        case Err(e) => Run([], Failed(e))
        case Ok(selfReferenced) =>
          if selfReferenced then
            Emit([Act(WritePackageJson(PinSelfReference(w.packages[w.root]))),
                  Echo("Update self-reference version in " + Util.RelativizePath(w.root, Paths.PackageConfig(w.root)))])
          else Emit([]))
    case Multi(_, subs) => MultiPrepareBody(subs, w.lernaVersion)
  }

  /** Whether `npm pack` of `root` leaves the tarball where it is expected. */
  predicate Packable(root: string, w: World) {
    root in w.packages && Util.ExpectedTarball(w.packDirectory, w.packages[root], w.kebab) in w.tarballs
  }

  /** The first sub-package that cannot be packed, if any. */
  function FirstUnpackable(subs: seq<Workspace.Subpackage>, w: World): (r: Option<nat>)
    ensures r.Some? ==> r.value < |subs| && !Packable(subs[r.value].root, w)
    ensures r.Some? ==> forall i :: 0 <= i < r.value ==> Packable(subs[i].root, w)
    ensures r.None? ==> forall i :: 0 <= i < |subs| ==> Packable(subs[i].root, w)
  {
    if |subs| == 0 then None
    else if !Packable(subs[0].root, w) then Some(0)
    else match FirstUnpackable(subs[1..], w)
      case None => None
      case Some(k) => Some(k + 1)
  }

  /** How many sub-packages the pack loop reaches: all of them, or up to and
      including the first that cannot be packed. */
  function PackReach(subs: seq<Workspace.Subpackage>, w: World): (n: nat)
    ensures n <= |subs|
  {
    match FirstUnpackable(subs, w)
    case None => |subs|
    case Some(k) => k + 1
  }

  /** One `npm pack` per sub-package, in order. */
  function PackEffects(subs: seq<Workspace.Subpackage>): (r: seq<Action>)
    ensures |r| == |subs|
    ensures forall i :: 0 <= i < |r| ==> r[i] == Pack(subs[i].root)
  {
    seq(|subs|, i requires 0 <= i < |subs| => Pack(subs[i].root))
  }

  datatype PackedAll = PackedAll(run: Run, tarballs: seq<string>)

  /** Packing every sub-package in turn, collecting the tarballs; the first
      failure ends the loop. */
  function PackAll(subs: seq<Workspace.Subpackage>, w: World): (r: PackedAll)
    ensures r.run.outcome.Done? <==> FirstUnpackable(subs, w).None?
    ensures r.run.outcome.Done? ==> |r.tarballs| == |subs|
    ensures r.run.outcome.Done? ==> forall i :: 0 <= i < |subs| ==>
              r.tarballs[i] == Util.ExpectedTarball(w.packDirectory, w.packages[subs[i].root], w.kebab)
  {
    if |subs| == 0 then PackedAll(Emit([]), [])
    else
      var p := Util.NpmPack(subs[0].root, w.packDirectory, w.packages, w.tarballs, w.kebab);
      if p.packed.None? then PackedAll(p.run, [])
      else
        var rest := PackAll(subs[1..], w);
        PackedAll(Then(p.run, rest.run), [p.packed.value.tarball] + rest.tarballs)
  }

  /** The pack loop runs `npm pack` for the sub-packages in list order, up to
      and including the first that cannot be packed, and for no other. */
  lemma {:induction false} PackAllActions(subs: seq<Workspace.Subpackage>, w: World)
    ensures Actions(PackAll(subs, w).run.events) == PackEffects(subs[..PackReach(subs, w)])
    decreases |subs|
  {
    if |subs| > 0 {
      PackAllStep(subs, w);
      PackReachStep(subs, w);
      if Packable(subs[0].root, w) {
        PackAllActions(subs[1..], w);
        PackEffectsCons(subs, PackReach(subs[1..], w));
      } else {
        assert PackEffects(subs[..1]) == [Pack(subs[0].root)];
      }
    }
  }

  /** One turn of the pack loop: `npm pack` of the first sub-package, and the
      rest of the loop only when it was packed. */
  lemma {:induction false} PackAllStep(subs: seq<Workspace.Subpackage>, w: World)
    requires |subs| > 0
    ensures Actions(PackAll(subs, w).run.events) ==
              [Pack(subs[0].root)] + (if Packable(subs[0].root, w) then Actions(PackAll(subs[1..], w).run.events) else [])
  {
    var p := Util.NpmPack(subs[0].root, w.packDirectory, w.packages, w.tarballs, w.kebab);
    assert Actions(p.run.events) == [Pack(subs[0].root)] by {
      assert Acts([Pack(subs[0].root)]) == p.run.events;
    }
    ThenActions(p.run, PackAll(subs[1..], w).run);
  }

  lemma {:induction false} PackReachStep(subs: seq<Workspace.Subpackage>, w: World)
    requires |subs| > 0
    ensures PackReach(subs, w) == if Packable(subs[0].root, w) then PackReach(subs[1..], w) + 1 else 1
  {
  }

  lemma {:induction false} PackEffectsCons(subs: seq<Workspace.Subpackage>, n: nat)
    requires n < |subs|
    ensures [Pack(subs[0].root)] + PackEffects(subs[1..][..n]) == PackEffects(subs[..n + 1])
  {
    assert subs[..n + 1] == [subs[0]] + subs[1..][..n];
  }

  /** One `npm publish` per tarball, in order, all with the same settings. */
  function PublishEffects(tarballs: seq<string>, tag: string, restricted: bool, otp: Option<string>): (r: seq<Action>)
    ensures |r| == |tarballs|
    ensures forall i :: 0 <= i < |r| ==> r[i] == PublishTarball(tarballs[i], tag, restricted, otp)
  {
    seq(|tarballs|, i requires 0 <= i < |tarballs| => PublishTarball(tarballs[i], tag, restricted, otp))
  }

  /** After packing: the one prompt, then one `npm publish` per tarball when it was answered. */
  function Publication(packing: Run, tarballs: seq<string>, tag: string, ctx: Context, w: World): Run {
    var auth := Util.GetOtp(ctx.useOTP, w.otpAttempts, w.confirm);
    Then(packing, Then(auth.run, Emit(Acts(PublishEffects(tarballs, tag, ctx.restricted, auth.otp)))))
  }

  function PublishBody(m: Manager, w: World): Run {
    match m
    case Single(ctx) =>
      var p := Util.NpmPack(w.root, w.packDirectory, w.packages, w.tarballs, w.kebab);
      if p.packed.None? then p.run
      else Publication(p.run, [p.packed.value.tarball], Util.GetTag(p.packed.value.version), ctx, w)
    case Multi(ctx, subs) =>
      var packs := PackAll(subs, w);
      if !packs.run.outcome.Done? then packs.run
      else Publication(packs.run, packs.tarballs, Util.GetTag(w.lernaVersion), ctx, w)
  }

  //-- Tasks

  function Install(m: Manager, w: World, grouped: bool): Run {
    RunTask(m, InstallTask, "", grouped, InstallBody(m, w))
  }

  /** The root package is checked first, then the body's checks. */
  function Outdated(m: Manager, w: World, grouped: bool): Run {
    RunTask(m, OutdatedTask, "", grouped, Then(CheckOutdatedIn(w, w.root), OutdatedBody(m, w)))
  }

  /** The body runs only when `dist` options were given. */
  function Build(m: Manager, w: World, grouped: bool): Run {
    RunTask(m, BuildTask, "", grouped, if m.ctx.dist.Some? then BuildBody(m, m.ctx.dist.value, false) else Emit([]))
  }

  function Watch(m: Manager, w: World, grouped: bool): Run {
    RunTask(m, WatchTask, "", grouped, if m.ctx.dist.Some? then BuildBody(m, m.ctx.dist.value, true) else Emit([]))
  }

  /** The common documentation assets come first, then the body. */
  function Documentation(m: Manager, w: World, grouped: bool): Run {
    RunTask(m, DocumentationTask, "", grouped, Then(Emit([Act(CommonDocAssets)]), DocumentationBody(m, w)))
  }

  function Prepare(m: Manager, w: World, grouped: bool): Run {
    RunTask(m, PrepareTask, "", grouped, PrepareBody(m, w))
  }

  /** Build, prepare and documentation, each grouped, in that order. */
  function Rebuild(m: Manager, w: World, grouped: bool): Run {
    RunTask(m, RebuildTask, "", grouped, Then(Build(m, w, true), Then(Prepare(m, w, true), Documentation(m, w, true))))
  }

  /** The safeguards of a safe publication: outdated check, rebuild, tests. */
  function Safeguards(m: Manager, w: World): Run {
    Then(Outdated(m, w, true), Then(Rebuild(m, w, true), TestGate(w)))
  }

  /** A safe publication runs the safeguards before the body; an unsafe one
      runs the body alone, under the `publishUnsafe` identifier. */
  function Publish(m: Manager, w: World, grouped: bool, unsafe: bool): Run {
    RunTask(m, PublishTask, if unsafe then "Unsafe" else "", grouped,
      Then(if unsafe then Emit([]) else Safeguards(m, w), PublishBody(m, w)))
  }
}
