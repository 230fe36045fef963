/** Properties of the task compositions of src/managers/: which external
    effects each task has, in which order, and which it never has. Traces are
    compared through their effects, so hooks and terminal output do not
    disturb the statements. */
module ManagerProperties {
  import opened Common
  import opened Strings
  import opened Environment
  import opened Packages
  import opened Trace
  import Builder
  import BuilderProperties
  import Paths
  import Util
  import Workspace
  import opened RunnerProperties
  import opened Managers

  //-- Generic facts

  /** Every task name, with or without the unsafe suffix for publish, has a
      runner identifier. */
  lemma {:induction false} TaskKnown(t: TaskName)
    ensures TaskKey(t) in TASK && TASK[TaskKey(t)] in TASK_DATA
    ensures t == PublishTask ==> TaskKey(t) + "Unsafe" in TASK && TASK[TaskKey(t) + "Unsafe"] in TASK_DATA
  {
    TaskTableComplete();
    assert "publish" + "Unsafe" == "publishUnsafe";
  }

  /** A task's effects are its body's when its pre-runner does not reject. */
  lemma {:induction false} RunTaskActions(m: Manager, t: TaskName, subtask: string, grouped: bool, body: Run)
    requires subtask == "" || (t == PublishTask && subtask == "Unsafe")
    ensures Actions(RunTask(m, t, subtask, grouped, body).events) ==
              (if PreResolves(HooksFor(m, t)) then Actions(body.events) else [])
  {
    TaskKnown(t);
    assert TaskKey(t) + "" == TaskKey(t);
    RunnerActions(TaskIdentifier(t, subtask), HooksFor(m, t), grouped, body);
  }

  /** A task whose hooks resolve completes exactly when its body does, and fails as its body does otherwise. */
  lemma {:induction false} RunTaskOutcome(m: Manager, t: TaskName, subtask: string, grouped: bool, body: Run)
    requires subtask == "" || (t == PublishTask && subtask == "Unsafe")
    requires PreResolves(HooksFor(m, t)) && PostResolves(HooksFor(m, t))
    ensures RunTask(m, t, subtask, grouped, body).outcome.Done? <==> body.outcome.Done?
    ensures !body.outcome.Done? ==> RunTask(m, t, subtask, grouped, body).outcome == body.outcome
  {
    TaskKnown(t);
    assert TaskKey(t) + "" == TaskKey(t);
    RunnerOutcome(TaskIdentifier(t, subtask), HooksFor(m, t), grouped, body);
  }

  /** Per-sub-package effects of one action each, laid out one per sub-package. */
  lemma {:induction false} EachEffectsSingle(subs: seq<Workspace.Subpackage>, effects: Workspace.Subpackage -> seq<Action>)
    requires forall s :: |effects(s)| == 1
    ensures |EachEffects(subs, effects)| == |subs|
    ensures forall i :: 0 <= i < |subs| ==> EachEffects(subs, effects)[i] == effects(subs[i])[0]
    decreases |subs|
  {
    if |subs| > 0 {
      EachEffectsSingle(subs[1..], effects);
      assert forall i :: 1 <= i < |subs| ==> subs[1..][i - 1] == subs[i];
    }
  }

  /** Per-sub-package effects of two actions each, laid out pairwise. */
  lemma {:induction false} EachEffectsPairs(subs: seq<Workspace.Subpackage>, effects: Workspace.Subpackage -> seq<Action>)
    requires forall s :: |effects(s)| == 2
    ensures |EachEffects(subs, effects)| == 2 * |subs|
    ensures forall i :: 0 <= i < |subs| ==>
              EachEffects(subs, effects)[2 * i] == effects(subs[i])[0] &&
              EachEffects(subs, effects)[2 * i + 1] == effects(subs[i])[1]
    decreases |subs|
  {
    if |subs| > 0 {
      EachEffectsPairs(subs[1..], effects);
      assert forall i :: 1 <= i < |subs| ==> subs[1..][i - 1] == subs[i];
    }
  }

  //-- install

  /** Single package: the self-reference is replaced by a symlink to the
      package exactly when the package lists itself in `devDependencies`; a
      missing `package.json` or `devDependencies` fails the task. */
  lemma {:induction false} SingleInstall(ctx: Context, w: World)
    ensures Actions(InstallBody(Single(ctx), w).events) ==
              (if SelfReference(w) == Ok(true)
               then [ReplaceWithSymlink(w.root + "/node_modules/" + w.packages[w.root].name, w.root)] else [])
    ensures InstallBody(Single(ctx), w).outcome.Done? <==> SelfReference(w).Ok?
    ensures SelfReference(w).Err? ==> InstallBody(Single(ctx), w).outcome == Failed(SelfReference(w).error)
  {
    if SelfReference(w) == Ok(true) {
      var link := ReplaceWithSymlink(w.root + "/node_modules/" + w.packages[w.root].name, w.root);
      var notice := [Echo("Symlink self-reference dependency")];
      assert InstallBody(Single(ctx), w).events == [Act(link)] + notice;
      ActionsAppend([Act(link)], notice);
      NoActions(notice);
      assert Acts([link]) == [Act(link)];
    }
  }

  /** Multi package: lockfiles are removed before the workspace is bootstrapped. */
  lemma {:induction false} MultiInstall(ctx: Context, subs: seq<Workspace.Subpackage>, w: World)
    ensures Actions(InstallBody(Multi(ctx, subs), w).events) == [RemoveSubpackageLockfiles, BootstrapWorkspace]
    ensures InstallBody(Multi(ctx, subs), w).outcome.Done?
  {
  }

  //-- outdated

  /** Every dependency check, of the package root and of each sub-package, passes. */
  predicate ChecksPass(m: Manager, w: World) {
    CheckPasses(w, w.root) && forall i :: 0 <= i < |SubpackagesOf(m)| ==> CheckPasses(w, SubpackagesOf(m)[i].root)
  }

  /** How many sub-packages the outdated task checks: none when the root
      check fails, else up to and including the first failing one. */
  function CheckedSubpackages(m: Manager, w: World): (n: nat)
    ensures n <= |SubpackagesOf(m)|
  {
    if CheckPasses(w, w.root) then Reach(SubpackagesOf(m), OutdatedStep(w)) else 0
  }

  /** The directory whose check fails first: the package root, else the
      first sub-package in list order. */
  function FirstFailingCheck(m: Manager, w: World): (r: Option<string>)
    ensures r.None? <==> ChecksPass(m, w)
    ensures r.Some? ==> !CheckPasses(w, r.value)
    ensures !CheckPasses(w, w.root) ==> r == Some(w.root)
    ensures CheckPasses(w, w.root) && r.Some? ==>
              && 0 < CheckedSubpackages(m, w)
              && r.value == SubpackagesOf(m)[CheckedSubpackages(m, w) - 1].root
              && forall i :: 0 <= i < CheckedSubpackages(m, w) - 1 ==> CheckPasses(w, SubpackagesOf(m)[i].root)
  {
    StepPasses(SubpackagesOf(m), w);
    if !CheckPasses(w, w.root) then Some(w.root)
    else match FirstIncomplete(SubpackagesOf(m), OutdatedStep(w))
      case None => None
      case Some(k) => Some(SubpackagesOf(m)[k].root)
  }

  /** The loop's checks all complete exactly when every sub-package's check passes. */
  lemma StepPasses(subs: seq<Workspace.Subpackage>, w: World)
    ensures FirstIncomplete(subs, OutdatedStep(w)).None? <==> forall i :: 0 <= i < |subs| ==> CheckPasses(w, subs[i].root)
    ensures var k := FirstIncomplete(subs, OutdatedStep(w));
            k.Some? ==> !CheckPasses(w, subs[k.value].root) && forall i :: 0 <= i < k.value ==> CheckPasses(w, subs[i].root)
  {
    var k := FirstIncomplete(subs, OutdatedStep(w));
    if k.Some? {
      assert !CheckPasses(w, subs[k.value].root);
      forall i | 0 <= i < k.value ensures CheckPasses(w, subs[i].root) {
        assert OutdatedStep(w)(subs[i]).outcome.Done?;
      }
    }
    forall i | 0 <= i < |subs| && k.None? ensures CheckPasses(w, subs[i].root) {
      assert OutdatedStep(w)(subs[i]).outcome.Done?;
    }
  }

  /** The outdated task checks the package root first, then each sub-package
      in list order until a check fails; every check passes when all
      sub-packages are checked. */
  lemma {:induction false} OutdatedChecks(m: Manager, w: World, grouped: bool)
    requires PreResolves(HooksFor(m, OutdatedTask))
    ensures var a := Actions(Outdated(m, w, grouped).events); var n := CheckedSubpackages(m, w);
      |a| == 1 + n && a[0] == CheckOutdated(w.root) &&
      forall i :: 0 <= i < n ==> a[i + 1] == CheckOutdated(SubpackagesOf(m)[i].root)
    ensures ChecksPass(m, w) ==> CheckedSubpackages(m, w) == |SubpackagesOf(m)|
  {
    OutdatedActions(m, w, grouped);
    OutdatedBodyChecks(m, w);
    StepPasses(SubpackagesOf(m), w);
    PrefixedLayout(Actions(Outdated(m, w, grouped).events), w.root, CheckPasses(w, w.root),
                   Actions(OutdatedBody(m, w).events), SubpackagesOf(m), Reach(SubpackagesOf(m), OutdatedStep(w)));
  }

  /** The effects of the outdated task: the root check, then the body's
      checks only when the root check passed. */
  lemma {:induction false} OutdatedActions(m: Manager, w: World, grouped: bool)
    requires PreResolves(HooksFor(m, OutdatedTask))
    ensures Actions(Outdated(m, w, grouped).events) ==
              [CheckOutdated(w.root)] + (if CheckPasses(w, w.root) then Actions(OutdatedBody(m, w).events) else [])
  {
    var first := CheckOutdatedIn(w, w.root);
    var body := OutdatedBody(m, w);
    RunTaskActions(m, OutdatedTask, "", grouped, Then(first, body));
    ThenActions(first, body);
    assert Acts([CheckOutdated(w.root)]) == first.events;
  }

  lemma {:induction false} PrefixedLayout(a: seq<Action>, root: string, passes: bool, b: seq<Action>,
                                          subs: seq<Workspace.Subpackage>, n: nat)
    requires a == [CheckOutdated(root)] + (if passes then b else [])
    requires n <= |subs| && |b| == n && forall i :: 0 <= i < n ==> b[i] == CheckOutdated(subs[i].root)
    ensures var k := if passes then n else 0;
      |a| == 1 + k && a[0] == CheckOutdated(root) && forall i :: 0 <= i < k ==> a[i + 1] == CheckOutdated(subs[i].root)
  {
    if passes {
      forall i | 0 <= i < n ensures a[i + 1] == CheckOutdated(subs[i].root) {
        assert a[i + 1] == b[i];
      }
    }
  }

  /** Dependency checks and nothing else. */
  predicate OnlyChecks(a: seq<Action>) {
    forall i :: 0 <= i < |a| ==> a[i].CheckOutdated?
  }

  /** The outdated task has no effect besides dependency checks. */
  lemma {:induction false} OutdatedOnlyChecks(m: Manager, w: World, grouped: bool)
    ensures OnlyChecks(Actions(Outdated(m, w, grouped).events))
  {
    if PreResolves(HooksFor(m, OutdatedTask)) {
      OutdatedActions(m, w, grouped);
      OutdatedBodyChecks(m, w);
      PrefixedChecks(w.root, CheckPasses(w, w.root), Actions(OutdatedBody(m, w).events));
    } else {
      RunTaskActions(m, OutdatedTask, "", grouped, Then(CheckOutdatedIn(w, w.root), OutdatedBody(m, w)));
    }
  }

  lemma {:induction false} PrefixedChecks(root: string, passes: bool, b: seq<Action>)
    requires OnlyChecks(b)
    ensures OnlyChecks([CheckOutdated(root)] + (if passes then b else []))
  {
  }

  /** The body's checks: the sub-packages the loop reaches, in list order. */
  lemma {:induction false} OutdatedBodyChecks(m: Manager, w: World)
    ensures var a := Actions(OutdatedBody(m, w).events); var n := Reach(SubpackagesOf(m), OutdatedStep(w));
      |a| == n && forall i :: 0 <= i < n ==> a[i] == CheckOutdated(SubpackagesOf(m)[i].root)
  {
    var subs := SubpackagesOf(m);
    var n := Reach(subs, OutdatedStep(w));
    if m.Multi? {
      ForEachActions(subs, OutdatedStep(w));
      CheckLayout(subs[..n], w);
    }
  }

  /** One check per sub-package, in list order. */
  lemma {:induction false} CheckLayout(subs: seq<Workspace.Subpackage>, w: World)
    ensures var a := EachActions(subs, OutdatedStep(w));
      |a| == |subs| && forall i :: 0 <= i < |subs| ==> a[i] == CheckOutdated(subs[i].root)
    decreases |subs|
  {
    if |subs| > 0 {
      var rest := EachActions(subs[1..], OutdatedStep(w));
      CheckLayout(subs[1..], w);
      assert Acts([CheckOutdated(subs[0].root)]) == OutdatedStep(w)(subs[0]).events;
      assert EachActions(subs, OutdatedStep(w)) == [CheckOutdated(subs[0].root)] + rest;
      forall i | 1 <= i < |subs| ensures rest[i - 1] == CheckOutdated(subs[i].root) {
        assert subs[1..][i - 1] == subs[i];
      }
    }
  }

  /** How the outdated task ends: it fails whenever a check fails, with the
      first failing check's rejection when its pre-runner resolves, and
      completes when every check passes and its hooks resolve. */
  lemma {:induction false} OutdatedOutcome(m: Manager, w: World, grouped: bool)
    ensures !ChecksPass(m, w) ==> !Outdated(m, w, grouped).outcome.Done?
    ensures PreResolves(HooksFor(m, OutdatedTask)) && FirstFailingCheck(m, w).Some? ==>
              Outdated(m, w, grouped).outcome == CheckOutdatedIn(w, FirstFailingCheck(m, w).value).outcome
    ensures Resolves(m, OutdatedTask) ==> (Outdated(m, w, grouped).outcome.Done? <==> ChecksPass(m, w))
  {
    var first := CheckOutdatedIn(w, w.root);
    var body := Then(first, OutdatedBody(m, w));
    TaskKnown(OutdatedTask);
    assert TaskKey(OutdatedTask) + "" == TaskKey(OutdatedTask);
    RunnerOutcome(TaskIdentifier(OutdatedTask, ""), HooksFor(m, OutdatedTask), grouped, body);
    OutdatedBodyOutcome(m, w);
  }

  /** The body completes exactly when every check passes, and otherwise
      fails as the first failing check does. */
  lemma {:induction false} OutdatedBodyOutcome(m: Manager, w: World)
    ensures var body := Then(CheckOutdatedIn(w, w.root), OutdatedBody(m, w));
      (body.outcome.Done? <==> ChecksPass(m, w)) &&
      (FirstFailingCheck(m, w).Some? ==> body.outcome == CheckOutdatedIn(w, FirstFailingCheck(m, w).value).outcome)
  {
    StepPasses(SubpackagesOf(m), w);
  }

  //-- build / watch

  /** The builder is run, once, exactly when `dist` options were given; the
      multi package hands it every sub-package's source and destination. */
  lemma {:induction false} BuildOnlyWithDist(m: Manager, w: World, grouped: bool)
    requires PreResolves(HooksFor(m, BuildTask))
    ensures Actions(Build(m, w, grouped).events) ==
              (if m.ctx.dist.Some? then [BuildDistributions(m.ctx.dist.value, BuildInOut(m))] else [])
    ensures m.Multi? ==> BuildInOut(m) == Some(InOuts(m.subpackages))
  {
    var body := if m.ctx.dist.Some? then BuildBody(m, m.ctx.dist.value, false) else Emit([]);
    RunTaskActions(m, BuildTask, "", grouped, body);
    if m.ctx.dist.Some? {
      assert Acts([BuildDistributions(m.ctx.dist.value, BuildInOut(m))]) == body.events;
    }
  }

  /** A config reads the sub-package's sources (the package's own `src` when
      that path is empty) and writes under its distribution directory. */
  predicate BuiltIn(c: Builder.DistConfig, s: Workspace.Subpackage, root: string) {
    && c.packageRoot == (if s.source == "" then Paths.PackageSources(root) else s.source)
    && c.outputPath == s.destination + "/" + Builder.PlatformName(c.platform)
  }

  /** The configs webpack receives from a build: the package's own for a
      single package; for a multi package one per sub-package and recognised
      target, each reading that sub-package's sources and writing under its
      distribution directory. */
  lemma {:induction false} BuildTargets(m: Manager, w: World)
    requires m.ctx.dist.Some?
    ensures var dist := m.ctx.dist.value; var c := Builder.BuildConfigs(dist, BuildInOut(m), w.root);
      (m.Single? ==> c == Builder.GetAllDistributionsConfigs(dist, w.root)) &&
      (m.Multi? ==>
         && |c| == |m.subpackages| * |Builder.Recognised(Builder.TypeList(dist))|
         && forall k :: 0 <= k < |c| ==> exists i :: 0 <= i < |m.subpackages| && BuiltIn(c[k], m.subpackages[i], w.root))
  {
    if m.Multi? {
      var dist := m.ctx.dist.value;
      var subs := m.subpackages;
      var ios := InOuts(subs);
      var c := Builder.GetMultipleInOutConfigs(dist, ios, w.root);
      BuilderProperties.MultipleInOutCount(dist, ios, w.root);
      BuilderProperties.MultipleInOutPlacement(dist, ios, w.root);
      forall k | 0 <= k < |c|
        ensures exists i :: 0 <= i < |subs| && BuiltIn(c[k], subs[i], w.root)
      {
        assert c[k] in c;
        var io :| io in ios && c[k].packageRoot == BuilderProperties.PairSource(io, w.root) &&
                  c[k].outputPath == io.destination + "/" + Builder.PlatformName(c[k].platform);
        var j :| 0 <= j < |ios| && ios[j] == io;
        assert BuiltIn(c[k], subs[j], w.root);
      }
    }
  }

  /** The watcher is started exactly when `dist` options were given. */
  lemma {:induction false} WatchOnlyWithDist(m: Manager, w: World, grouped: bool)
    requires PreResolves(HooksFor(m, WatchTask))
    ensures Actions(Watch(m, w, grouped).events) ==
              (if m.ctx.dist.Some? then [WatchDistributions(m.ctx.dist.value, BuildInOut(m))] else [])
  {
    var body := if m.ctx.dist.Some? then BuildBody(m, m.ctx.dist.value, true) else Emit([]);
    RunTaskActions(m, WatchTask, "", grouped, body);
    if m.ctx.dist.Some? {
      assert Acts([WatchDistributions(m.ctx.dist.value, BuildInOut(m))]) == body.events;
    }
  }

  //-- documentation

  /** The effects of the documentation task: the common assets, then the body's. */
  lemma {:induction false} DocumentationActions(m: Manager, w: World, grouped: bool)
    requires PreResolves(HooksFor(m, DocumentationTask))
    ensures Actions(Documentation(m, w, grouped).events) == [CommonDocAssets] + Actions(DocumentationBody(m, w).events)
  {
    var first := Emit([Act(CommonDocAssets)]);
    RunTaskActions(m, DocumentationTask, "", grouped, Then(first, DocumentationBody(m, w)));
    ThenActions(first, DocumentationBody(m, w));
    assert Acts([CommonDocAssets]) == first.events;
  }

  /** A single package documents itself at depth 1 into `docs`. */
  lemma {:induction false} SingleDocumentation(ctx: Context, w: World)
    ensures Actions(DocumentationBody(Single(ctx), w).events) ==
              [ApiDocs(w.root, Paths.PackageSources(w.root), Paths.PackageDocumentation(w.root), 1),
               TextDocs(Paths.PackageSources(w.root), Paths.PackageDocumentation(w.root))]
  {
  }

  /** A multi package documents every sub-package, in list order, at depth 2
      into its own directory under `docs`, API before text. */
  lemma {:induction false} MultiDocumentation(ctx: Context, subs: seq<Workspace.Subpackage>, w: World)
    ensures var a := Actions(DocumentationBody(Multi(ctx, subs), w).events);
      |a| == 2 * |subs| &&
      forall i :: 0 <= i < |subs| ==>
        var destination := Paths.PackageDocumentation(w.root) + "/" + subs[i].name;
        a[2 * i] == ApiDocs(subs[i].root, subs[i].root + "/" + Paths.SubpackageSources, destination, 2) &&
        a[2 * i + 1] == TextDocs(subs[i].root + "/" + Paths.SubpackageSources, destination)
  {
    ForEachCompleting(subs, DocumentationEffects(w.root));
    EachEffectsPairs(subs, DocumentationEffects(w.root));
  }

  //-- prepare

  /** Single package: the Node.js version is updated first, then
      `package.json` is rewritten exactly when the package references itself;
      a missing `package.json` or `devDependencies` fails after the update. */
  lemma {:induction false} SinglePrepare(ctx: Context, w: World)
    ensures Actions(PrepareBody(Single(ctx), w).events) ==
              [UpdateNodeVersion] +
              (if SelfReference(w) == Ok(true) then [WritePackageJson(PinSelfReference(w.packages[w.root]))] else [])
    ensures PrepareBody(Single(ctx), w).outcome.Done? <==> SelfReference(w).Ok?
  {
    var first := Emit([Act(UpdateNodeVersion)]);
    var body := PrepareBody(Single(ctx), w);
    var rest := Run(body.events[1..], body.outcome);
    assert body == Then(first, rest);
    ThenActions(first, rest);
    assert Acts([UpdateNodeVersion]) == first.events;
    if SelfReference(w) == Ok(true) {
      var write := WritePackageJson(PinSelfReference(w.packages[w.root]));
      var notice := [rest.events[1]];
      assert rest.events == [Act(write)] + notice;
      ActionsAppend([Act(write)], notice);
      NoActions(notice);
      assert Acts([write]) == [Act(write)];
    }
  }

  /** Pinning is idempotent. */
  lemma {:induction false} PinSelfReferenceIdempotent(config: PackageJson)
    requires config.devDependencies.Some?
    ensures PinSelfReference(PinSelfReference(config)) == PinSelfReference(config)
  {
    var once := PinSelfReference(config);
    var twice := PinSelfReference(once);
    assert twice.devDependencies.value == once.devDependencies.value;
  }

  /** Preparing the package again after a prepare writes the same
      `package.json`, or nothing when the self-reference entry was dropped for
      lack of a version. */
  lemma {:induction false} SinglePrepareStable(w: World)
    requires SelfReference(w) == Ok(true)
    ensures var written := PinSelfReference(w.packages[w.root]);
      var again := w.(packages := w.packages[w.root := written]);
      SelfReference(again) == Ok(w.packages[w.root].version.Some?) &&
      (SelfReference(again) == Ok(true) ==> PinSelfReference(again.packages[again.root]) == written)
  {
    var written := PinSelfReference(w.packages[w.root]);
    PinSelfReferenceIdempotent(w.packages[w.root]);
  }

  /** Multi package (as corrected): every sub-package's license, in list
      order, then the version synchronisation. */
  lemma {:induction false} MultiPrepareOrder(subs: seq<Workspace.Subpackage>, version: Option<SemVer>)
    ensures var a := Actions(MultiPrepareBody(subs, version).events);
      |a| == |subs| + 1 && a[|subs|] == SyncVersions(VersionText(version)) &&
      forall i :: 0 <= i < |subs| ==> a[i] == CopyLicense(subs[i].root)
  {
    var licenses := ForEachSubpackage(subs, Completing(LicenseEffects));
    ForEachCompleting(subs, LicenseEffects);
    var sync := Emit([Act(SyncVersions(VersionText(version)))]);
    ThenActions(licenses, sync);
    assert Acts([SyncVersions(VersionText(version))]) == sync.events;
    EachEffectsSingle(subs, LicenseEffects);
  }

  /** The prepare as written: with two or more sub-packages the versions are
      synchronised after the first license copy and before the second. */
  lemma {:induction false} AsWrittenSyncsBeforeLaterLicenses(subs: seq<Workspace.Subpackage>, version: Option<SemVer>)
    requires |subs| >= 2
    ensures var a := Actions(MultiPrepareBodyAsWritten(subs, version).events);
      |a| == |subs| + 1 && a[0] == CopyLicense(subs[0].root) &&
      a[1] == SyncVersions(VersionText(version)) && a[2] == CopyLicense(subs[1].root)
  {
    EachEffectsSingle(subs[1..], LicenseEffects);
  }

  /** The prepare as written agrees with the corrected one exactly when there
      is at most one sub-package. */
  lemma {:induction false} AsWrittenAgreesOnlyWithOneSubpackage(subs: seq<Workspace.Subpackage>, version: Option<SemVer>)
    ensures MultiPrepareBodyAsWritten(subs, version) == MultiPrepareBody(subs, version) <==> |subs| <= 1
  {
    MultiPrepareOrder(subs, version);
    if |subs| >= 2 {
      AsWrittenSyncsBeforeLaterLicenses(subs, version);
      assert Actions(MultiPrepareBodyAsWritten(subs, version).events)[1] != Actions(MultiPrepareBody(subs, version).events)[1];
    } else if |subs| == 1 {
      ForEachCompleting(subs, LicenseEffects);
      var license := [CopyLicense(subs[0].root)];
      var sync := [SyncVersions(VersionText(version))];
      assert EachEffects(subs, LicenseEffects) == license;
      assert EachEffects(subs[1..], LicenseEffects) == [];
      ActsAppend(license, sync);
      assert license + sync + [] == license + sync;
    }
  }

  /** Two sub-packages: the version command runs while the second license is
      still to be copied. */
  lemma {:induction false} AsWrittenCounterexample()
    ensures var a := Workspace.Subpackage("./packages/a", "./packages/a/src", "./packages/a/dist", "a");
      var b := Workspace.Subpackage("./packages/b", "./packages/b/src", "./packages/b/dist", "b");
      var version := Some(SemVer("1.0.0", None));
      Actions(MultiPrepareBodyAsWritten([a, b], version).events) ==
        [CopyLicense("./packages/a"), SyncVersions("1.0.0"), CopyLicense("./packages/b")] &&
      Actions(MultiPrepareBody([a, b], version).events) ==
        [CopyLicense("./packages/a"), CopyLicense("./packages/b"), SyncVersions("1.0.0")]
  {
    var a := Workspace.Subpackage("./packages/a", "./packages/a/src", "./packages/a/dist", "a");
    var b := Workspace.Subpackage("./packages/b", "./packages/b/src", "./packages/b/dist", "b");
    var version := Some(SemVer("1.0.0", None));
    AsWrittenSyncsBeforeLaterLicenses([a, b], version);
    MultiPrepareOrder([a, b], version);
  }

  //-- rebuild

  /** The task's hooks are absent or resolve. */
  predicate Resolves(m: Manager, t: TaskName) {
    PreResolves(HooksFor(m, t)) && PostResolves(HooksFor(m, t))
  }

  /** The builder effect of a build, present only with `dist` options. */
  function BuildEffects(m: Manager): seq<Action> {
    if m.ctx.dist.Some? then [BuildDistributions(m.ctx.dist.value, BuildInOut(m))] else []
  }

  /** Rebuild is build, then prepare, then documentation; documentation is
      not started when prepare fails. */
  lemma {:induction false} RebuildOrder(m: Manager, w: World, grouped: bool)
    requires PreResolves(HooksFor(m, RebuildTask)) && Resolves(m, BuildTask) && Resolves(m, PrepareTask)
    requires PreResolves(HooksFor(m, DocumentationTask))
    ensures Actions(Rebuild(m, w, grouped).events) ==
              BuildEffects(m) + Actions(PrepareBody(m, w).events) +
              (if PrepareBody(m, w).outcome.Done? then [CommonDocAssets] + Actions(DocumentationBody(m, w).events) else [])
  {
    RebuildActions(m, w, grouped);
    BuildTaskFacts(m, w);
    PrepareTaskFacts(m, w);
    DocumentationActions(m, w, true);
    ThenAfterDone3(Build(m, w, true), Prepare(m, w, true), Documentation(m, w, true));
  }

  /** The effects of a rebuild are those of its three grouped tasks, in sequence. */
  lemma {:induction false} RebuildActions(m: Manager, w: World, grouped: bool)
    ensures Actions(Rebuild(m, w, grouped).events) ==
              (if PreResolves(HooksFor(m, RebuildTask))
               then Actions(Then(Build(m, w, true), Then(Prepare(m, w, true), Documentation(m, w, true))).events)
               else [])
  {
    RunTaskActions(m, RebuildTask, "", grouped, Then(Build(m, w, true), Then(Prepare(m, w, true), Documentation(m, w, true))));
  }

  /** A grouped build whose hooks resolve completes, with the builder effect only. */
  lemma {:induction false} BuildTaskFacts(m: Manager, w: World)
    requires Resolves(m, BuildTask)
    ensures Build(m, w, true).outcome.Done?
    ensures Actions(Build(m, w, true).events) == BuildEffects(m)
  {
    var buildBody := if m.ctx.dist.Some? then BuildBody(m, m.ctx.dist.value, false) else Emit([]);
    RunTaskOutcome(m, BuildTask, "", true, buildBody);
    BuildOnlyWithDist(m, w, true);
  }

  /** A grouped prepare whose hooks resolve has its body's effects and ends as its body does. */
  lemma {:induction false} PrepareTaskFacts(m: Manager, w: World)
    requires Resolves(m, PrepareTask)
    ensures Prepare(m, w, true).outcome.Done? <==> PrepareBody(m, w).outcome.Done?
    ensures Actions(Prepare(m, w, true).events) == Actions(PrepareBody(m, w).events)
  {
    RunTaskActions(m, PrepareTask, "", true, PrepareBody(m, w));
    RunTaskOutcome(m, PrepareTask, "", true, PrepareBody(m, w));
  }

  //-- publish

  /** Neither `npm pack` nor `npm publish`. */
  predicate NoPublication(a: seq<Action>) {
    forall i :: 0 <= i < |a| ==> !a[i].Pack? && !a[i].PublishTarball?
  }

  lemma {:induction false} EachEffectsNoPublication(subs: seq<Workspace.Subpackage>, effects: Workspace.Subpackage -> seq<Action>)
    requires forall s :: NoPublication(effects(s))
    ensures NoPublication(EachEffects(subs, effects))
    decreases |subs|
  {
    if |subs| > 0 {
      EachEffectsNoPublication(subs[1..], effects);
    }
  }

  lemma {:induction false} NoPublicationAppend(a: seq<Action>, b: seq<Action>)
    requires NoPublication(a) && NoPublication(b)
    ensures NoPublication(a + b)
  {
  }

  lemma {:induction false} OutdatedPublishesNothing(m: Manager, w: World, grouped: bool)
    ensures NoPublication(Actions(Outdated(m, w, grouped).events))
  {
    OutdatedOnlyChecks(m, w, grouped);
  }

  lemma {:induction false} BuildPublishesNothing(m: Manager, w: World, grouped: bool)
    ensures NoPublication(Actions(Build(m, w, grouped).events))
  {
    var body := if m.ctx.dist.Some? then BuildBody(m, m.ctx.dist.value, false) else Emit([]);
    if m.ctx.dist.Some? {
      assert Acts([BuildDistributions(m.ctx.dist.value, BuildInOut(m))]) == body.events;
    }
    RunTaskNoPublication(m, BuildTask, "", grouped, body);
  }

  lemma {:induction false} PreparePublishesNothing(m: Manager, w: World, grouped: bool)
    ensures NoPublication(Actions(Prepare(m, w, grouped).events))
  {
    RunTaskActions(m, PrepareTask, "", grouped, PrepareBody(m, w));
    PrepareBodyPublishesNothing(m, w);
  }

  lemma {:induction false} PrepareBodyPublishesNothing(m: Manager, w: World)
    ensures NoPublication(Actions(PrepareBody(m, w).events))
  {
    match m {
      case Single(ctx) =>
        SinglePrepare(ctx, w);
        var write := if SelfReference(w) == Ok(true) then [WritePackageJson(PinSelfReference(w.packages[w.root]))] else [];
        NoPublicationAppend([UpdateNodeVersion], write);
      case Multi(ctx, subs) =>
        var sync := Emit([Act(SyncVersions(VersionText(w.lernaVersion)))]);
        assert Actions(sync.events) == [SyncVersions(VersionText(w.lernaVersion))] by {
          assert Acts([SyncVersions(VersionText(w.lernaVersion))]) == sync.events;
        }
        ForEachCompleting(subs, LicenseEffects);
        EachEffectsNoPublication(subs, LicenseEffects);
        ThenNoPublication(ForEachSubpackage(subs, Completing(LicenseEffects)), sync);
    }
  }

  /** The runner adds no external effect of its own, so it keeps a body free of publication. */
  lemma {:induction false} RunTaskNoPublication(m: Manager, t: TaskName, subtask: string, grouped: bool, body: Run)
    requires subtask == "" || (t == PublishTask && subtask == "Unsafe")
    requires NoPublication(Actions(body.events))
    ensures NoPublication(Actions(RunTask(m, t, subtask, grouped, body).events))
  {
    RunTaskActions(m, t, subtask, grouped, body);
  }

  /** A completed step followed by another keeps both free of publication. */
  lemma {:induction false} ThenNoPublication(a: Run, b: Run)
    requires NoPublication(Actions(a.events)) && NoPublication(Actions(b.events))
    ensures NoPublication(Actions(Then(a, b).events))
  {
    ThenActions(a, b);
    NoPublicationAppend(Actions(a.events), Actions(b.events));
    NoPublicationAppend(Actions(a.events), []);
  }

  lemma {:induction false} DocumentationBodyPublishesNothing(m: Manager, w: World)
    ensures NoPublication(Actions(DocumentationBody(m, w).events))
  {
    match m {
      case Single(ctx) => SingleDocumentation(ctx, w);
      case Multi(ctx, subs) =>
        ForEachCompleting(subs, DocumentationEffects(w.root));
        EachEffectsNoPublication(subs, DocumentationEffects(w.root));
    }
  }

  lemma {:induction false} DocumentationPublishesNothing(m: Manager, w: World, grouped: bool)
    ensures NoPublication(Actions(Documentation(m, w, grouped).events))
  {
    var first := Emit([Act(CommonDocAssets)]);
    assert Actions(first.events) == [CommonDocAssets] by {
      assert Acts([CommonDocAssets]) == first.events;
    }
    DocumentationBodyPublishesNothing(m, w);
    ThenNoPublication(first, DocumentationBody(m, w));
    RunTaskNoPublication(m, DocumentationTask, "", grouped, Then(first, DocumentationBody(m, w)));
  }

  lemma {:induction false} RebuildPublishesNothing(m: Manager, w: World, grouped: bool)
    ensures NoPublication(Actions(Rebuild(m, w, grouped).events))
  {
    var build := Build(m, w, true);
    var prepare := Prepare(m, w, true);
    var documentation := Documentation(m, w, true);
    BuildPublishesNothing(m, w, true);
    PreparePublishesNothing(m, w, true);
    DocumentationPublishesNothing(m, w, true);
    ThenNoPublication(prepare, documentation);
    ThenNoPublication(build, Then(prepare, documentation));
    RunTaskNoPublication(m, RebuildTask, "", grouped, Then(build, Then(prepare, documentation)));
  }

  /** Nothing a safe publication runs before its body packs or publishes. */
  lemma {:induction false} SafeguardsPublishNothing(m: Manager, w: World)
    ensures NoPublication(Actions(Safeguards(m, w).events))
  {
    OutdatedPublishesNothing(m, w, true);
    RebuildPublishesNothing(m, w, true);
    TestGateFacts(w);
    ThenNoPublication(Rebuild(m, w, true), TestGate(w));
    ThenNoPublication(Outdated(m, w, true), Then(Rebuild(m, w, true), TestGate(w)));
  }

  /** A safeguarded run reaches the tests only after the outdated check and the rebuild, and completes only when they pass. */
  lemma {:induction false} SafeguardsEndWithTests(m: Manager, w: World)
    ensures Safeguards(m, w).outcome.Done? ==>
              w.testsPass &&
              Actions(Safeguards(m, w).events) ==
                Actions(Outdated(m, w, true).events) + Actions(Rebuild(m, w, true).events) + [RunTests]
  {
    if Safeguards(m, w).outcome.Done? {
      ThenDone3(Outdated(m, w, true), Rebuild(m, w, true), TestGate(w));
      TestGateFacts(w);
    }
  }

  lemma {:induction false} TestGateFacts(w: World)
    ensures Actions(TestGate(w).events) == [RunTests]
    ensures TestGate(w).outcome.Done? <==> w.testsPass
  {
    assert Acts([RunTests]) == TestGate(w).events;
  }

  /** A safe publication runs its body only after the safeguards completed. */
  lemma {:induction false} SafePublishSafeguardsFirst(m: Manager, w: World, grouped: bool)
    requires PreResolves(HooksFor(m, PublishTask))
    ensures Actions(Publish(m, w, grouped, false).events) ==
              Actions(Safeguards(m, w).events) +
              (if Safeguards(m, w).outcome.Done? then Actions(PublishBody(m, w).events) else [])
  {
    RunTaskActions(m, PublishTask, "", grouped, Then(Safeguards(m, w), PublishBody(m, w)));
    ThenActions(Safeguards(m, w), PublishBody(m, w));
  }

  /** An unsafe publication runs the body alone, under the unsafe banner but
      with the hooks configured for `publish`. */
  lemma {:induction false} UnsafePublishRunsBodyOnly(m: Manager, w: World, grouped: bool)
    ensures Publish(m, w, grouped, true) ==
              Util.TaskRunner("publish:unsafe", HooksFor(m, PublishTask), grouped, PublishBody(m, w))
    ensures Actions(Publish(m, w, grouped, true).events) ==
              (if PreResolves(HooksFor(m, PublishTask)) then Actions(PublishBody(m, w).events) else [])
  {
    TaskKnown(PublishTask);
    UnsafePublishEntry();
    ThenEmptyFirst(PublishBody(m, w));
    RunTaskActions(m, PublishTask, "Unsafe", grouped, PublishBody(m, w));
  }

  /** Failing tests stop a safe publication before anything is packed or published. */
  lemma {:induction false} FailingTestsPublishNothing(m: Manager, w: World, grouped: bool)
    requires !w.testsPass
    ensures NoPublication(Actions(Publish(m, w, grouped, false).events))
  {
    SafeguardsEndWithTests(m, w);
    SafeguardsPublishNothing(m, w);
    RunTaskActions(m, PublishTask, "", grouped, Then(Safeguards(m, w), PublishBody(m, w)));
    ThenActions(Safeguards(m, w), PublishBody(m, w));
  }

  /** A task whose body stops at a first step that does not complete has
      that step's effects only, and does not complete. */
  lemma {:induction false} StoppedTask(m: Manager, t: TaskName, subtask: string, grouped: bool, first: Run, rest: Run)
    requires subtask == "" || (t == PublishTask && subtask == "Unsafe")
    requires !first.outcome.Done?
    ensures Actions(RunTask(m, t, subtask, grouped, Then(first, rest)).events) ==
              (if PreResolves(HooksFor(m, t)) then Actions(first.events) else [])
    ensures !RunTask(m, t, subtask, grouped, Then(first, rest)).outcome.Done?
  {
    RunTaskActions(m, t, subtask, grouped, Then(first, rest));
    TaskKnown(t);
    assert TaskKey(t) + "" == TaskKey(t);
    RunnerOutcome(TaskIdentifier(t, subtask), HooksFor(m, t), grouped, Then(first, rest));
  }

  /** The safeguards complete only when every dependency check passed. */
  lemma {:induction false} SafeguardsPassChecks(m: Manager, w: World)
    ensures Safeguards(m, w).outcome.Done? ==> ChecksPass(m, w)
  {
    if Safeguards(m, w).outcome.Done? {
      ThenDone3(Outdated(m, w, true), Rebuild(m, w, true), TestGate(w));
      OutdatedOutcome(m, w, true);
    }
  }

  /** A failing dependency check ends a safe publication: it fails, and its
      only effects are dependency checks, so nothing is built, tested, packed
      or published. */
  lemma {:induction false} FailingCheckStopsPublish(m: Manager, w: World, grouped: bool)
    requires !ChecksPass(m, w)
    ensures !Publish(m, w, grouped, false).outcome.Done?
    ensures OnlyChecks(Actions(Publish(m, w, grouped, false).events))
  {
    SafeguardsStopAtChecks(m, w);
    StoppedTask(m, PublishTask, "", grouped, Safeguards(m, w), PublishBody(m, w));
  }

  lemma {:induction false} SafeguardsStopAtChecks(m: Manager, w: World)
    requires !ChecksPass(m, w)
    ensures !Safeguards(m, w).outcome.Done?
    ensures OnlyChecks(Actions(Safeguards(m, w).events))
  {
    OutdatedOutcome(m, w, true);
    OutdatedOnlyChecks(m, w, true);
  }

  /** A wanted range that does not coerce to a version, in the package's own
      dependencies, stops a safe publication before anything is packed. */
  lemma {:induction false} UncoercibleRangeStopsPublish(m: Manager, w: World, grouped: bool, i: nat)
    requires i < |w.dependencies(w.root)|
    requires Util.HasWanted(w.dependencies(w.root)[i]) && w.dependencies(w.root)[i].wanted.None?
    ensures !Publish(m, w, grouped, false).outcome.Done?
    ensures OnlyChecks(Actions(Publish(m, w, grouped, false).events))
  {
    assert Util.Classify(w.dependencies(w.root)[i], false).Err?;
    FailingCheckStopsPublish(m, w, grouped);
  }

  /** The one prompt of a publication: the OTP, or the confirmation. */
  function Prompt(useOTP: bool): Action {
    if useOTP then AskOtp else AskConfirmation
  }

  /** After a completed packing: the packing's effects, the one prompt, then
      the publications when the prompt was answered. */
  lemma {:induction false} PublicationActions(packing: Run, tarballs: seq<string>, tag: string, ctx: Context, w: World)
    requires packing.outcome.Done?
    ensures var auth := Util.GetOtp(ctx.useOTP, w.otpAttempts, w.confirm);
      Actions(Publication(packing, tarballs, tag, ctx, w).events) ==
        Actions(packing.events) + [Prompt(ctx.useOTP)] +
        (if auth.run.outcome.Done? then PublishEffects(tarballs, tag, ctx.restricted, auth.otp) else [])
  {
    var auth := Util.GetOtp(ctx.useOTP, w.otpAttempts, w.confirm);
    PromptedActions(packing, auth.run, Prompt(ctx.useOTP), PublishEffects(tarballs, tag, ctx.restricted, auth.otp));
  }

  /** Single package: pack, one prompt, then one publication of the packed
      tarball, tagged from the package version, when the prompt is answered. */
  lemma {:induction false} SinglePublishEffects(ctx: Context, w: World)
    requires Packable(w.root, w)
    ensures var auth := Util.GetOtp(ctx.useOTP, w.otpAttempts, w.confirm);
      var config := w.packages[w.root];
      Actions(PublishBody(Single(ctx), w).events) ==
        [Pack(w.root), Prompt(ctx.useOTP)] +
        (if auth.run.outcome.Done?
         then [PublishTarball(Util.ExpectedTarball(w.packDirectory, config, w.kebab),
                              Util.GetTag(Version(Single(ctx), w)), ctx.restricted, auth.otp)]
         else [])
  {
    var p := Util.NpmPack(w.root, w.packDirectory, w.packages, w.tarballs, w.kebab);
    PublicationActions(p.run, [p.packed.value.tarball], Util.GetTag(p.packed.value.version), ctx, w);
    assert Acts([Pack(w.root)]) == p.run.events;
  }

  /** Single package: a package that cannot be packed is neither prompted for nor published. */
  lemma {:induction false} SinglePackFailurePublishesNothing(ctx: Context, w: World)
    requires !Packable(w.root, w)
    ensures Actions(PublishBody(Single(ctx), w).events) == [Pack(w.root)]
    ensures !PublishBody(Single(ctx), w).outcome.Done?
  {
    assert Acts([Pack(w.root)]) == PublishBody(Single(ctx), w).events;
  }

  /** Multi package: every sub-package is packed, in list order, before the
      single prompt; then every tarball is published in the same order with
      one tag, taken from the repository version, and one password. */
  lemma {:induction false} MultiPublishEffects(ctx: Context, subs: seq<Workspace.Subpackage>, w: World)
    requires FirstUnpackable(subs, w).None?
    ensures var auth := Util.GetOtp(ctx.useOTP, w.otpAttempts, w.confirm);
      Actions(PublishBody(Multi(ctx, subs), w).events) ==
        PackEffects(subs) + [Prompt(ctx.useOTP)] +
        (if auth.run.outcome.Done?
         then PublishEffects(PackAll(subs, w).tarballs, Util.GetTag(Version(Multi(ctx, subs), w)), ctx.restricted, auth.otp)
         else [])
  {
    var packs := PackAll(subs, w);
    PackAllActions(subs, w);
    assert subs[..|subs|] == subs;
    PublicationActions(packs.run, packs.tarballs, Util.GetTag(w.lernaVersion), ctx, w);
  }

  /** Multi package: when a sub-package cannot be packed, the loop stops
      there; there is no prompt and nothing is published. */
  lemma {:induction false} MultiPackFailurePublishesNothing(ctx: Context, subs: seq<Workspace.Subpackage>, w: World)
    requires FirstUnpackable(subs, w).Some?
    ensures Actions(PublishBody(Multi(ctx, subs), w).events) == PackEffects(subs[..FirstUnpackable(subs, w).value + 1])
    ensures !PublishBody(Multi(ctx, subs), w).outcome.Done?
  {
    PackAllActions(subs, w);
  }

  /** No `npm publish`. */
  predicate NothingPublished(a: seq<Action>) {
    forall i :: 0 <= i < |a| ==> !a[i].PublishTarball?
  }

  lemma {:induction false} PackEffectsPublishNothing(subs: seq<Workspace.Subpackage>, extra: seq<Action>)
    requires NothingPublished(extra)
    ensures NothingPublished(PackEffects(subs) + extra)
  {
  }

  lemma {:induction false} SinglePublishBodyWithoutAnswer(ctx: Context, w: World)
    requires !Util.GetOtp(ctx.useOTP, w.otpAttempts, w.confirm).run.outcome.Done?
    ensures NothingPublished(Actions(PublishBody(Single(ctx), w).events))
  {
    if Packable(w.root, w) {
      SinglePublishEffects(ctx, w);
    } else {
      SinglePackFailurePublishesNothing(ctx, w);
    }
  }

  lemma {:induction false} MultiPublishBodyWithoutAnswer(ctx: Context, subs: seq<Workspace.Subpackage>, w: World)
    requires !Util.GetOtp(ctx.useOTP, w.otpAttempts, w.confirm).run.outcome.Done?
    ensures NothingPublished(Actions(PublishBody(Multi(ctx, subs), w).events))
  {
    if FirstUnpackable(subs, w).None? {
      MultiPublishEffects(ctx, subs, w);
      PackEffectsPublishNothing(subs, [Prompt(ctx.useOTP)]);
      assert PackEffects(subs) + [Prompt(ctx.useOTP)] + [] == PackEffects(subs) + [Prompt(ctx.useOTP)];
    } else {
      MultiPackFailurePublishesNothing(ctx, subs, w);
      PackEffectsPublishNothing(subs[..FirstUnpackable(subs, w).value + 1], []);
      assert PackEffects(subs[..FirstUnpackable(subs, w).value + 1]) + [] == PackEffects(subs[..FirstUnpackable(subs, w).value + 1]);
    }
  }

  lemma {:induction false} PublishBodyWithoutAnswer(m: Manager, w: World)
    requires !Util.GetOtp(m.ctx.useOTP, w.otpAttempts, w.confirm).run.outcome.Done?
    ensures NothingPublished(Actions(PublishBody(m, w).events))
  {
    match m {
      case Single(ctx) => SinglePublishBodyWithoutAnswer(ctx, w);
      case Multi(ctx, subs) => MultiPublishBodyWithoutAnswer(ctx, subs, w);
    }
  }

  lemma {:induction false} NoPublicationNothingPublished(a: seq<Action>)
    requires NoPublication(a)
    ensures NothingPublished(a)
  {
  }

  /** A task whose guard and body publish nothing publishes nothing. */
  lemma {:induction false} GuardedTaskNothingPublished(m: Manager, t: TaskName, subtask: string, grouped: bool, guard: Run, body: Run)
    requires subtask == "" || (t == PublishTask && subtask == "Unsafe")
    requires NothingPublished(Actions(guard.events)) && NothingPublished(Actions(body.events))
    ensures NothingPublished(Actions(RunTask(m, t, subtask, grouped, Then(guard, body)).events))
  {
    RunTaskActions(m, t, subtask, grouped, Then(guard, body));
    ThenActions(guard, body);
    var a := Actions(guard.events);
    var b := Actions(body.events);
    assert NothingPublished(a + b);
    assert NothingPublished(a + []);
  }

  /** Nothing is published when the prompt is not answered: a refused
      confirmation or no valid password. */
  lemma {:induction false} UnansweredPromptPublishesNothing(m: Manager, w: World, grouped: bool, unsafe: bool)
    requires !Util.GetOtp(m.ctx.useOTP, w.otpAttempts, w.confirm).run.outcome.Done?
    ensures NothingPublished(Actions(Publish(m, w, grouped, unsafe).events))
  {
    var guard := if unsafe then Emit([]) else Safeguards(m, w);
    if unsafe {
      assert Actions(guard.events) == [];
    } else {
      SafeguardsPublishNothing(m, w);
      NoPublicationNothingPublished(Actions(guard.events));
    }
    PublishBodyWithoutAnswer(m, w);
    GuardedTaskNothingPublished(m, PublishTask, if unsafe then "Unsafe" else "", grouped, guard, PublishBody(m, w));
  }
}
