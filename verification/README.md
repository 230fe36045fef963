# Package manager task orchestration, modelled in Dafny

This project models the core of `@absolunet/manager`, a tool that runs the
maintenance tasks of a JavaScript package or of a lerna multi-package
repository. The tasks are install, outdated, build, watch, documentation,
prepare, rebuild and publish. The model covers:

- **The task runner** (`taskRunner` of `src/helpers/util.js`). A task opens
  with a banner, awaits an optional pre-runner hook, runs its main body,
  awaits an optional post-runner hook, and closes with a completion banner
  when it is grouped inside another task.
- **The managers** (`src/managers/`). `AbstractManager` composes every task
  around a body, and `SingleManager` and `MultiManager` supply the bodies for
  the two repository layouts. Rebuild chains build, prepare and
  documentation. Publish runs the safeguards first (outdated check, rebuild,
  `npm test`) unless it is unsafe. It then packs every tarball before
  prompting once for a one-time password or a confirmation, and publishes
  every tarball with the same tag.
- **The helpers** the managers depend on: `getTag`, `getOTP`, `npmPack`, the
  row classification of `npmOutdated`, and `relativizePath`.
- **The environment tables** `TASK`, `TASK_DATA` and `REPOSITORY_TYPE`.
- **Distribution-config derivation** in both builder revisions.
  `dist/node/helpers/builder.js` provides `getDistributionConfig`,
  `getAllDistributionsConfigs` and `getMultipleInOutConfigs`.
  `src/helpers/builder.js` provides `getConfig`, `getConfigs` and
  `documentationTheme`.

A task run is a `Trace.Run`: the observable events it produces, and how it
ended (`Done`, `Failed`, `Exited` or `Stalled`). Events are terminal boxes and
notices, hook calls, and external effects (`Act(Action)`). Sequencing stops at
the first step that does not complete, because the source awaits each step
without any try/catch. Most properties are stated over `Actions(events)`, the
external effects of a run in order, so they hold whatever the hooks print.
The file system, `npm`, `lerna` and the prompts are read from a
`Managers.World` value.

Modules follow the source layout:

| module | file |
|---|---|
| `Common` and `Strings` | `common.dfy` |
| `Paths` | `paths.dfy` |
| `Environment` | `environment.dfy` |
| `Packages` | `packages.dfy` |
| `Builder` | `builder.dfy` |
| `SourceBuilder` | `source_builder.dfy` |
| `Trace` | `trace.dfy` |
| `Util` | `util.dfy` |
| `Workspace` | `workspace.dfy` |
| `Managers` | `managers.dfy` |

The properties are in `runner_properties.dfy`, `manager_properties.dfy` and
`builder_properties.dfy`.

The managers in `src/managers/` import `src/helpers/environment.js` and
`src/helpers/builder.js`, which are an older revision than the compiled
`dist/node/helpers/environment.js` and `dist/node/helpers/builder.js`. The
model deliberately pairs the source managers with the compiled task table and
the compiled builder, and keeps the source builder's derivation as a separate
module:

- The task table follows `dist/node/helpers/environment.js:54-113`, which has
  `install`, `publish` and `publish:unsafe` and no `fix` task. The table of
  `src/helpers/environment.js:89-97` has no `install`, `publish` or
  `publishUnsafe` key, so with it those tasks would stop at
  `src/helpers/util.js:80` (see Left out).
- The prepare task of a multi-package repository does not await its license
  loop (see Findings).
- The compiled builder compares type ids with `DISTRIBUTION_TYPE.<id>` and
  names web outputs `<DISTRIBUTION_TYPE.<id>>.js`. `DISTRIBUTION_TYPE` is not
  defined in `dist/node/helpers/environment.js`, so the model takes each entry
  to equal its own key (see Left out for what the code does as written). The ids are `node`, `browser`, `browserES5`, `kafe`
  and `kafeES5`, and the web filenames are `<id>.js`. The source builder uses
  the literal names `browser.js`, `browser-es5.js`, `kafe.js` and
  `kafe-es5.js`.
- The managers call `builder.run(dist, subpackages)` and
  `builder.watch(dist, subpackages)`. The compiled builder's `run` and
  `watch` (`dist/node/helpers/builder.js:295-309`) derive one config set per
  sub-package from that second argument; the source builder's `run(options)`
  (`src/helpers/builder.js:256-260`) ignores it. The model gives the calls the
  compiled behaviour (`Builder.BuildConfigs`, related to the managers by
  `ManagerProperties.BuildTargets`). The source revision's derivation is
  modelled on its own and related to the compiled one by
  `BuilderProperties.RevisionsAgree`.

## Model

| member | source | states |
|---|---|---|
| Common.MergeMaps | dist/node/helpers/builder.js:193 | webpack-merge of two optional external maps: the keys are exactly those of the maps given; the overriding map wins on shared keys; the base value is kept otherwise |
| Strings.SplitJoin | src/managers/MultiManager.js:32 | splitting a newline-joined list of lines that hold no newline gives the list back |
| Strings.NonEmpty | src/managers/MultiManager.js:34-37 | `filter(Boolean)` keeps exactly the non-empty strings of the list, with their multiplicities |
| Strings.NonEmptyAppend | src/managers/MultiManager.js:34-37 | filtering keeps the order: the filter of a concatenation is the concatenation of the filters |
| Strings.NonEmptyKeepsAll | src/managers/MultiManager.js:34-37 | filtering a list with no empty string changes nothing |
| Strings.JoinEmptyLast | src/managers/MultiManager.js:32 | joining a list with one more empty line appends one separator, so a trailing newline reads as a final empty line |
| Paths.DirnameBasename | src/helpers/builder.js:292-293 | `dirname` and `basename` of `d/b` give back `d` and `b` |
| Environment.RepositoryTypeValues | dist/node/helpers/environment.js:32-37 | the repository types are exactly `single-package` and `multi-package` |
| Environment.ParseRepositoryType | dist/node/helpers/environment.js:32-37 | a string selects a repository type iff it is one of the table's values, and the type's name is that string |
| Environment.RepositoryTypeRoundTrip | dist/node/helpers/environment.js:32-37 | each repository type parses back from its name |
| Environment.TaskDataFor | dist/node/helpers/environment.js:54-113 | a lookup key yields display data iff it is a `TASK` key, and the data is `TASK_DATA[TASK[key]]` |
| Environment.TaskTableComplete | dist/node/helpers/environment.js:54-113 | every task identifier has display data, and no two lookup keys share an identifier |
| Environment.UnsafePublishEntry | dist/node/helpers/environment.js:63-111 | `publish` + `Unsafe` is the key of `publish:unsafe`, which has the publish display name and a different banner |
| Util.RelativizePath | src/helpers/util.js:53-55 | the first occurrence of the package root becomes `.`; a leading root gives `.` plus the rest; a path without the root is unchanged |
| Util.GetTag | src/helpers/util.js:271-273 | `next` iff the version has a prerelease part, `latest` otherwise, including when the version is absent |
| Util.FirstValidOtp | src/helpers/util.js:284-293 | the first answer of exactly six digits, with every earlier answer invalid, or none when no answer is valid |
| Util.GetOtp | src/helpers/util.js:283-309 | exactly one prompt (OTP when `useOTP`, confirmation otherwise); completes iff a valid OTP is given or the confirmation is accepted; a refusal exits with `Publication cancelled`; the returned OTP is six digits and one of the answers |
| Util.NpmPack | src/helpers/util.js:226-242 | one `npm pack`; succeeds iff `package.json` is readable and the tarball named after the kebab-cased name and the version exists, and returns that tarball and the version; fails with ENOENT when `package.json` is unreadable, otherwise with `Tarball name mismatch '<tarball>'` |
| Util.Classify | src/helpers/util.js:147-183 | no row without a wanted range; a TypeError for an uncoercible range; not installed, up to date (verbose only), mismatch, or beyond latest, each exactly under the source's condition |
| Util.Rows | src/helpers/util.js:146-184 | the check succeeds iff every dependency classifies, and otherwise fails with the first dependency's TypeError; there are no rows iff every dependency contributes none |
| Util.RowsAppend | src/helpers/util.js:146-184 | the rows of a concatenation are the rows of the first part followed by those of the second, in order; an error in the first part is the error of the whole |
| Util.RowsSingle | src/helpers/util.js:146-184 | one dependency contributes its classified row, nothing, or its TypeError |
| Util.OutdatedReport | src/helpers/util.js:186-197 | "All is good" iff there is no row; otherwise a header line followed by every row, in order |
| Util.NpmOutdated | src/helpers/util.js:140-199 | one npm-check of the directory; completes iff no dependency has a wanted range that cannot be coerced, and otherwise rejects with that TypeError |
| RunnerProperties.PrePhaseShape | src/helpers/util.js:89-96 | the pre-runner phase has no external effect, and completes iff the hook is absent or resolves, failing with the hook's rejection otherwise |
| RunnerProperties.PostPhaseShape | src/helpers/util.js:101-107 | the post-runner phase has no external effect, and completes iff the hook is absent or resolves |
| RunnerProperties.RunnerActions | src/helpers/util.js:79-113 | the runner's effects are the main runner's when the identifier is known and the pre-runner resolves, and none otherwise |
| RunnerProperties.RunnerOutcome | src/helpers/util.js:79-113 | a run ends with the pre-runner's rejection, else the main runner's failure, else the post-runner's rejection, else completes |
| RunnerProperties.RunnerOpens | src/helpers/util.js:82-87 | the first event is an info box when grouped and a title box otherwise |
| RunnerProperties.RunnerCompletes | src/helpers/util.js:109-112 | a completed run ends with the completion banner iff it is grouped |
| RunnerProperties.RunnerStopsAfterFailedMain | src/helpers/util.js:98-99 | a failed main runner ends the run: its events are the last ones and its outcome is the run's |
| RunnerProperties.RunnerUnknownTask | src/helpers/util.js:80 | an unknown identifier fails before any event |
| Workspace.StripHeader | src/managers/MultiManager.js:32 | the result is a suffix of the output; when something is dropped, the output starts with `info cli`, the dropped part is exactly one line (`info cli`, at least one more character, no line terminator before its closing newline), and something remains |
| Workspace.DiscoveredPaths | src/managers/MultiManager.js:31-37 | every discovered path is non-empty and holds no newline |
| Workspace.DiscoveryWithHeader | src/managers/MultiManager.js:31-37 | an output with an `info cli` header line discovers exactly the listed paths, in order, with or without a trailing newline |
| Workspace.DiscoveryWithoutHeader | src/managers/MultiManager.js:31-37 | an output without a header line discovers exactly the listed paths, in order, with or without a trailing newline |
| Workspace.ListingLines | src/managers/MultiManager.js:32-37 | splitting a newline-joined listing gives its lines, plus one empty line when it ends with a newline, and the filter leaves exactly the listed paths |
| Workspace.SubpackageRecords | src/managers/MultiManager.js:34-48 | each discovered path under the package root gives, in order, a record rooted at `.` plus the path's remainder, with `src` and `dist` under that root, named after the path's last segment |
| Workspace.RootedSubpackage | src/managers/MultiManager.js:38-48 | a path under the package root gives a record rooted at `.` plus the rest of the path, with `src` and `dist` under that root, named after the last segment |
| Managers.NewContext | src/managers/AbstractManager.js:36-42 | publication is public unless `restricted` is true, uses an OTP unless `useOTP` is false, and there are no hooks unless `tasks` is given |
| Managers.NewMulti | src/managers/MultiManager.js:27-51 | the multi-package constructor records the context and one sub-package per discovered path, in discovery order |
| Managers.ForEachSubpackage | src/managers/MultiManager.js:87-91 | the callbacks are awaited in list order; the loop completes iff every callback does, and otherwise ends with the outcome of the first that does not |
| Managers.FirstIncomplete | src/managers/MultiManager.js:87-91 | the index of the first callback that does not complete, with every earlier one complete, or none when all complete |
| Managers.ForEachActions | src/managers/MultiManager.js:87-91 | the loop has the effects of the callbacks it starts, in list order: all of them, or up to and including the first that does not complete |
| Managers.ForEachCompleting | src/managers/MultiManager.js:87-91 | with callbacks that always complete, the loop completes with every sub-package's effects in list order |
| Managers.SelfReference | src/managers/SingleManager.js:43-44 | the check succeeds iff `package.json` is readable and has `devDependencies`, and is true iff those list the package's own name |
| Managers.PinSelfReference | src/managers/SingleManager.js:106-109 | the self-reference is set to the package's version, or dropped when the version is absent; every other entry is unchanged |
| Managers.PackAll | src/managers/MultiManager.js:203-207 | the pack loop completes iff every sub-package can be packed, and then yields each expected tarball in list order |
| Managers.PackAllActions | src/managers/MultiManager.js:203-207 | `npm pack` runs for the sub-packages in list order up to and including the first that cannot be packed, and for no other |
| Managers.PackAllStep | src/managers/MultiManager.js:203-207 | one turn of the pack loop packs the first sub-package and goes on to the rest only when that one was packed |
| ManagerProperties.TaskKnown | src/managers/AbstractManager.js:11-17 | every task key, and `publish` with the `Unsafe` subtask, names a task with display data |
| ManagerProperties.RunTaskActions | src/managers/AbstractManager.js:11-17 | a task's effects are its body's when its pre-runner resolves, and none otherwise |
| ManagerProperties.RunTaskOutcome | src/managers/AbstractManager.js:11-17 | with resolving hooks, a task completes iff its body does and otherwise ends as its body |
| ManagerProperties.RunTaskNoPublication | src/helpers/util.js:79-113 | the runner itself neither packs nor publishes: a body free of both gives a task free of both |
| ManagerProperties.SingleInstall | src/managers/SingleManager.js:39-51 | the self-reference is replaced by a symlink iff the package lists itself; a missing `package.json` or `devDependencies` fails the task |
| ManagerProperties.MultiInstall | src/managers/MultiManager.js:97-109 | lockfiles are removed, then the workspace is bootstrapped |
| ManagerProperties.OutdatedActions | src/managers/AbstractManager.js:83-93 | the root package is checked first; the body runs only when that check passes |
| ManagerProperties.OutdatedChecks | src/managers/MultiManager.js:115-124 | one check for the root, then one per sub-package in list order, stopping after the first check that fails; every sub-package is checked when all checks pass |
| ManagerProperties.OutdatedOutcome | src/managers/AbstractManager.js:83-93 | a failing check fails the task with the first failing check's TypeError; with resolving hooks, the task completes iff every check passes |
| ManagerProperties.OutdatedOnlyChecks | src/managers/MultiManager.js:115-124 | the outdated task's only effects are npm-check runs |
| ManagerProperties.FirstFailingCheck | src/managers/MultiManager.js:115-124 | none iff every check passes; otherwise a directory whose check fails: the root when its own check fails, else the last sub-package checked, with every earlier sub-package passing |
| ManagerProperties.BuildOnlyWithDist | src/managers/AbstractManager.js:105-116 | the builder runs, once, iff `dist` was given; a multi package hands it every sub-package's source and destination |
| ManagerProperties.BuildTargets | dist/node/helpers/builder.js:237-249 | a single package builds all distributions of the top-level options; a multi package builds one config per sub-package and recognised target, each reading that sub-package's sources (the package's `src` if that path is empty) and writing under its destination |
| ManagerProperties.WatchOnlyWithDist | src/managers/AbstractManager.js:128-139 | the watcher starts, once, iff `dist` was given |
| ManagerProperties.DocumentationActions | src/managers/AbstractManager.js:151-161 | the common assets are generated before the body's documentation |
| ManagerProperties.SingleDocumentation | src/managers/SingleManager.js:83-93 | API then text documentation of `src` into `docs` |
| ManagerProperties.MultiDocumentation | src/managers/MultiManager.js:156-175 | every sub-package, in list order, is documented at depth 2 into `docs/<name>`, API before text |
| ManagerProperties.SinglePrepare | src/managers/SingleManager.js:99-114 | the Node.js version is updated first; `package.json` is rewritten iff the package references itself; a missing `package.json` or `devDependencies` fails |
| ManagerProperties.PinSelfReferenceIdempotent | src/managers/SingleManager.js:106-109 | pinning twice equals pinning once |
| ManagerProperties.SinglePrepareStable | src/managers/SingleManager.js:99-114 | a second prepare after a prepare writes the same `package.json`, or nothing when the entry was dropped |
| ManagerProperties.MultiPrepareOrder | src/managers/MultiManager.js:181-193 | (corrected) every sub-package's license in list order, then the version synchronisation |
| ManagerProperties.AsWrittenSyncsBeforeLaterLicenses | src/managers/MultiManager.js:181-193 | (as written) with two or more sub-packages, the versions are synchronised after the first license copy and before the second |
| ManagerProperties.AsWrittenAgreesOnlyWithOneSubpackage | src/managers/MultiManager.js:181-193 | the as-written and corrected prepares agree iff there is at most one sub-package |
| ManagerProperties.AsWrittenCounterexample | src/managers/MultiManager.js:181-193 | for sub-packages `a` and `b`, the as-written order is license a, sync, license b; the corrected order is license a, license b, sync |
| ManagerProperties.RebuildOrder | src/managers/AbstractManager.js:192-204 | build, then prepare, then documentation; documentation is not started when prepare fails |
| ManagerProperties.RebuildActions | src/managers/AbstractManager.js:192-204 | a rebuild's effects are those of its three grouped tasks in sequence, and none when its pre-runner rejects |
| ManagerProperties.BuildTaskFacts | src/managers/AbstractManager.js:105-116 | a grouped build with resolving hooks completes with the builder effect only |
| ManagerProperties.PrepareTaskFacts | src/managers/AbstractManager.js:173-180 | a grouped prepare with resolving hooks has its body's effects and ends as its body |
| ManagerProperties.OutdatedPublishesNothing | src/managers/AbstractManager.js:83-93 | the outdated task neither packs nor publishes |
| ManagerProperties.BuildPublishesNothing | src/managers/AbstractManager.js:105-116 | the build task neither packs nor publishes |
| ManagerProperties.PreparePublishesNothing | src/managers/AbstractManager.js:173-180 | the prepare task neither packs nor publishes |
| ManagerProperties.DocumentationPublishesNothing | src/managers/AbstractManager.js:151-161 | the documentation task neither packs nor publishes |
| ManagerProperties.RebuildPublishesNothing | src/managers/AbstractManager.js:192-204 | the rebuild task neither packs nor publishes |
| ManagerProperties.SafeguardsPublishNothing | src/managers/AbstractManager.js:224-228 | the safeguards neither pack nor publish |
| ManagerProperties.SafeguardsEndWithTests | src/managers/AbstractManager.js:224-228 | completed safeguards mean the tests passed, after the outdated check and the rebuild |
| ManagerProperties.TestGateFacts | src/managers/AbstractManager.js:227 | the test step runs `npm test` once and completes iff the tests pass |
| ManagerProperties.SafePublishSafeguardsFirst | src/managers/AbstractManager.js:217-233 | a safe publication's body runs only after the safeguards complete |
| ManagerProperties.UnsafePublishRunsBodyOnly | src/managers/AbstractManager.js:217-233 | an unsafe publication is the runner of `publish:unsafe` with the publish hooks around the body alone |
| ManagerProperties.FailingTestsPublishNothing | src/managers/AbstractManager.js:224-230 | failing tests stop a safe publication before anything is packed or published |
| ManagerProperties.SafeguardsPassChecks | src/managers/AbstractManager.js:224-228 | completed safeguards mean every outdated check passed |
| ManagerProperties.FailingCheckStopsPublish | src/managers/AbstractManager.js:217-233 | a failing outdated check stops a safe publication: it does not complete and its only effects are npm-check runs |
| ManagerProperties.UncoercibleRangeStopsPublish | src/helpers/util.js:151 | a root dependency whose wanted range cannot be coerced makes a safe publication fail with nothing packed or published |
| ManagerProperties.StoppedTask | src/managers/AbstractManager.js:11-17 | a body whose first step does not complete gives a task with only that step's effects, and the task does not complete |
| ManagerProperties.PublicationActions | src/managers/MultiManager.js:209-218 | after packing: one prompt, then the publications only when it was answered |
| ManagerProperties.SinglePublishEffects | src/managers/SingleManager.js:120-135 | pack, one prompt, then one publication of the packed tarball, tagged from the package version, when the prompt is answered |
| ManagerProperties.SinglePackFailurePublishesNothing | src/managers/SingleManager.js:120-135 | a package that cannot be packed is neither prompted for nor published, and the task fails |
| ManagerProperties.MultiPublishEffects | src/managers/MultiManager.js:199-220 | every sub-package is packed in list order before the one prompt; then every tarball is published in the same order with one tag from the repository version and one OTP |
| ManagerProperties.MultiPackFailurePublishesNothing | src/managers/MultiManager.js:199-220 | the pack loop stops at the first failure; there is no prompt and nothing is published |
| ManagerProperties.UnansweredPromptPublishesNothing | src/helpers/util.js:302-304 | a refused confirmation or an OTP prompt never validly answered publishes nothing, safe or unsafe |
| Builder.ParseTargetId | dist/node/helpers/builder.js:194-228 | a type string names an id iff it is that id's name; other strings are skipped |
| Builder.Unrooted | dist/node/helpers/builder.js:157-159 | the kept `include` patterns are exactly the ones not starting with `/` or `.`, with their multiplicities, in their original order |
| Builder.UnrootedAppend | dist/node/helpers/builder.js:157-159 | the filter keeps the order: the kept patterns of a concatenation are those of each part, concatenated |
| Builder.GetDistributionConfig | dist/node/helpers/builder.js:125-174 | output under `<destination>/<target>`; pre-clean of the one output file or of the whole directory; the name and source injected; copy k takes the k-th kept pattern from the source into the output directory |
| Builder.TypeList | dist/node/helpers/builder.js:183-187 | `node` is appended last iff the node flag is set |
| Builder.ResolvedSource | dist/node/helpers/builder.js:189 | `options.source || paths.package.sources`: the given source unless it is absent or empty, else the package's `src`; never empty |
| Builder.WebTargetOptions | dist/node/helpers/builder.js:189-193 | web targets take the top-level name, else the web name; they read the given source, or the package's `src` when it is absent or empty; destination and includes are the top-level ones |
| Builder.ConfigsFor | dist/node/helpers/builder.js:194-229 | exactly one config per recognised id, in order |
| BuilderProperties.RecognisedMembership | dist/node/helpers/builder.js:194-228 | an id is produced iff its name is listed |
| BuilderProperties.ConfigsMatchIds | dist/node/helpers/builder.js:177-234 | the configs follow the recognised ids one to one, and only the node target is a node platform |
| BuilderProperties.NodeConfigLast | dist/node/helpers/builder.js:185-200 | with the node flag, the node config is last and clears its whole `<destination>/node` directory |
| BuilderProperties.NodeConfigOutput | dist/node/helpers/builder.js:125-141 | the node config writes to `<destination>/node` and clears that whole directory |
| BuilderProperties.NodeConfigPresent | dist/node/helpers/builder.js:183-200 | a node config is produced iff the node flag is set or `node` is among the web types |
| BuilderProperties.ConfigNames | dist/node/helpers/builder.js:189-224 | every target reads the resolved source (the package's `src` for an absent or empty `source`); the node target takes the top-level name and web targets the merged name |
| BuilderProperties.MultipleInOutCount | dist/node/helpers/builder.js:237-249 | the multi in/out variant yields one config per pair and recognised id |
| BuilderProperties.PairPlacement | dist/node/helpers/builder.js:238-245 | the configs of one pair read its source, or the package's `src` when that source is empty, and write under its destination |
| BuilderProperties.MultipleInOutPlacement | dist/node/helpers/builder.js:237-249 | every such config writes under one pair's destination and reads that pair's source, or the package's `src` when the pair's source is empty |
| BuilderProperties.RevisionsAgree | src/helpers/builder.js:148-194 | the source revision yields the same targets in the same order with the same output directories, names and externals; filenames differ only for the ES5 targets; the two read the same source iff `source` is not the empty string |
| BuilderProperties.TargetRevisionsAgree | src/helpers/builder.js:148-194 | for each target, the two revisions agree on every field compared and their filenames differ exactly for the ES5 targets; the source revision reads `source` when given, the compiled one the resolved source, and these agree iff `source` is not empty |
| SourceBuilder.SourceConfigsFor | src/helpers/builder.js:148-194 | exactly one config per recognised id, in order |
| SourceBuilder.DocumentationTheme | src/helpers/builder.js:286-296 | the one `browserES5` config in production mode, written to the destination's directory under its base name; the pre-clean still targets the package's own `dist/web/browser-es5.js` |
| SourceBuilder.ThemeBaseConfig | src/helpers/builder.js:286-296 | before the override, the theme config is the legacy web `browserES5` target reading the given source, with no name or externals, and its pre-clean removes the package's own `dist/web/browser-es5.js` |
| BuilderProperties.DocumentationThemeTarget | src/helpers/builder.js:286-296 | the theme is written exactly at the requested `directory/file` |

## Findings

| source | as written | input that shows it | evidently intended | confidence | as-written member | corrected member |
|---|---|---|---|---|---|---|
| src/managers/MultiManager.js:181-193 | the license loop's promise is neither awaited nor returned, so `lerna version` runs after only the first sub-package's license has been copied | two sub-packages `./packages/a` and `./packages/b`, version `1.0.0`: license a, `lerna version 1.0.0`, license b | every license is copied, then the versions are synchronised, as every other per-sub-package loop awaits | not executed | Managers.MultiPrepareBodyAsWritten (shown by ManagerProperties.AsWrittenCounterexample and ManagerProperties.AsWrittenSyncsBeforeLaterLicenses) | Managers.MultiPrepareBody (proved by ManagerProperties.MultiPrepareOrder) |

## Left out

- Process, file-system and registry I/O (`npm`, `lerna`, webpack, babel, npm-check, inquirer). What npm-check reports for a directory is `Managers.World.dependencies`, the other results are fields of `Managers.World`, and the commands they receive are `Trace.Action` values.
- Text printed inside the helpers (`npmPack`, `npmPublish`, `npmOutdated`, `updateLicense`, the builder's lines), colours, spacers and table formatting. Notices printed by the manager bodies are kept as `Echo` events. The `figures` glyphs are those printed on POSIX terminals (`❯` and `✔`); the Windows fallbacks are not modelled.
- `Util.Classify`: semver parsing and coercion are inputs. `wanted` is the coerced range and `latest` the coerced latest version, and the model does not check the `semver.coerce(latest)` guard separately from the presence of `latest`.
- The abstract `version` getter of `AbstractManager`, which only throws. The manager type is closed over the two layouts.
- `confirmUnsafePublish` and the front door (`src/Manager.js`), which are not part of this model. The unsafe confirmation happens before a manager task is called.
- Temporary directories and `realpath`. Packing uses one given directory, and paths are taken as already real.
- `lodash.kebabcase`, which is the `kebab` parameter of `Managers.World`.
- Managers.PrepareBody: `util.updateNodeVersion` is not defined in `src/helpers/util.js`, so as written the call at `src/managers/SingleManager.js:103` throws `TypeError: util.updateNodeVersion is not a function`: every single-package prepare fails before its first effect, and with it every single-package rebuild and safe publication. The model follows `dist/node/helpers/util.js:156-167`, which defines it, as the opaque `UpdateNodeVersion` effect that always completes; the `engines.node` edit it makes to `package.json` is not modelled.
- A failing `npm test` is taken to reject the task with `Command failed: npm test`. How the terminal library reports a failed command is not part of this model.
- The node target's option shape in the source builder: it passes the top-level options unchanged, and only the fields the config uses are modelled.
- Managers.MultiPrepareBodyAsWritten: only its effect order is modelled. The remaining license copies run after the version command, and the model places them immediately after it. It does not model their interleaving with the events the runner prints later.
- The paths helper is modelled only for the constants the managers use (`package.json`, `dist`, `docs`, `src` and the sub-package `src`/`dist`).
- The user hooks receive only a display handle, so a hook is modelled by whether it resolves or rejects.
- Environment.TaskDataFor: models the compiled table of `dist/node/helpers/environment.js`. Paired with `src/helpers/environment.js:89-97`, `Util.TaskRunner` would find no data for `install`, `publish` or `publish:unsafe` and stop before any event (the unknown-task path of `RunnerProperties.RunnerUnknownTask`), and `fix` would be a task no manager runs.
- Managers.BuildBody: gives `builder.run` and `builder.watch` the compiled builder's behaviour. With `src/helpers/builder.js:256-274`, a multi-package build or watch would ignore the sub-packages and derive the configs of the top-level options only.
- Builder.TypeList: both builders push `node` onto the caller's own `web.types` array (`dist/node/helpers/builder.js:183-187`, `src/helpers/builder.js:151-154`), so a second derivation from the same options object would list `node` twice. The model derives a fresh list each time and does not model that aliasing.
- BuilderProperties.RevisionsAgree: for `source: ""` the source revision's `realpath("")` is the process's working directory, which the model, taking paths as already real, writes as `""`; the compiled revision reads the package's `src`. The lemma states that the sources differ exactly then, not which directory the working directory is.
- Builder.ParseTargetId: as written, `dist/node/helpers/builder.js:80-86` reads `DISTRIBUTION_TYPE.browser` from the environment helper when the module loads, and that table has no `DISTRIBUTION_TYPE`, so loading the compiled builder throws a TypeError and no module that imports it can run. The model takes each `DISTRIBUTION_TYPE` entry to equal its own key instead.
