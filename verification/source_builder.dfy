/** Distribution-config derivation of the source builder
    (src/helpers/builder.js): the same target list, with literal output
    filenames, no `include` handling, and a node target whose babel copy
    always reads the package's own `src` directory. Also the
    `documentationTheme` override of the single `browserES5` config. */
module SourceBuilder {
  import opened Common
  import Paths
  import opened Builder

  /** The literal base configs: node has no output filename, so its whole
      directory is cleared; the four web targets each write one named file. */
  function SourceMainConfig(id: TargetId, packageRoot: string): (m: MainConfig)
    ensures m.platform == NodePlatform <==> id == NodeId
  {
    match id
    case NodeId => MainConfig(NodePlatform, "node.js", None, false, Some(Paths.PackageSources(packageRoot)))
    case BrowserId => MainConfig(WebPlatform, "browser.js", Some("browser.js"), false, None)
    case BrowserES5Id => MainConfig(WebPlatform, "browser.js", Some("browser-es5.js"), true, None)
    case KafeId => MainConfig(WebPlatform, "kafe.js", Some("kafe.js"), false, None)
    case KafeES5Id => MainConfig(WebPlatform, "kafe.js", Some("kafe-es5.js"), true, None)
  }

  /** `getConfig(mainConfig, options)`: `source` defaults to the package's
      `src`, `destination` to its `dist`, `name` to `''`, `externals` to `{}`. */
  function GetConfig(id: TargetId, main: MainConfig, source: Option<string>, destination: Option<string>,
                     name: Option<string>, externals: Option<map<string, string>>, packageRoot: string): DistConfig
  {
    var finalSource := source.GetOr(Paths.PackageSources(packageRoot));
    var finalDestination := destination.GetOr(Paths.PackageDistributions(packageRoot)) + "/" + PlatformName(main.platform);
    var clean := if main.filename.Some? then RemoveFile(finalDestination + "/" + main.filename.value)
                 else RemoveDirectory(finalDestination);
    DistConfig(id, main.platform, main.entry, main.legacyPreset, main.transpileFrom, NoMode,
               finalDestination, main.filename, clean, name.GetOr(""), finalSource,
               externals.GetOr(map[]), [])
  }

  /** The config a recognised id yields: node from the top-level options,
      web targets from `merge(web, options)`. */
  function SourceConfigFor(id: TargetId, o: DistOptions, packageRoot: string): DistConfig {
    var web := if o.web.Some? then o.web.value else WebOptions(None, None, None);
    if id == NodeId then
      GetConfig(id, SourceMainConfig(id, packageRoot), o.source, o.destination, o.name, o.externals, packageRoot)
    else
      GetConfig(id, SourceMainConfig(id, packageRoot), o.source, o.destination,
                Override(web.name, o.name), Some(MergeMaps(web.externals, o.externals)), packageRoot)
  }

  /** The configs for a list of type ids: one per recognised id, in order. */
  function SourceConfigsFor(types: seq<string>, o: DistOptions, packageRoot: string): (r: seq<DistConfig>)
    ensures |r| == |Recognised(types)|
    ensures forall i :: 0 <= i < |r| ==> r[i] == SourceConfigFor(Recognised(types)[i], o, packageRoot)
  {
    if |types| == 0 then []
    else
      var head := match ParseTargetId(types[0]) case None => [] case Some(id) => [SourceConfigFor(id, o, packageRoot)];
      head + SourceConfigsFor(types[1..], o, packageRoot)
  }

  /** `getConfigs(options)`. */
  function GetConfigs(o: DistOptions, packageRoot: string): seq<DistConfig> {
    SourceConfigsFor(TypeList(o), o, packageRoot)
  }

  /** The options `documentationTheme` derives its config from. */
  function ThemeOptions(source: string): DistOptions {
    DistOptions(false, Some(WebOptions(Some(["browserES5"]), None, None)), Some(source), None, None, None, None)
  }

  /** `documentationTheme({ source, destination })`: the single `browserES5`
      config, switched to production mode and written to `destination`. Its
      pre-clean still targets the package's own `dist/web/browser-es5.js`. */
  function DocumentationTheme(source: string, destination: string, packageRoot: string): (c: DistConfig)
    ensures c.id == BrowserES5Id && c.platform == WebPlatform && c.legacyPreset && c.mode == Production
    ensures c.outputPath == Paths.Dirname(destination) && c.filename == Some(Paths.Basename(destination))
    ensures c.packageRoot == source && c.packageName == "" && c.externals == map[]
    ensures c.clean == RemoveFile(Paths.PackageDistributions(packageRoot) + "/web/browser-es5.js")
  {
    var configs := GetConfigs(ThemeOptions(source), packageRoot);
    ThemeTargets(source);
    ThemeBaseConfig(source, packageRoot);
    configs[0].(mode := Production, filename := Some(Paths.Basename(destination)), outputPath := Paths.Dirname(destination))
  }

  /** The theme options name the single `browserES5` target. */
  lemma ThemeTargets(source: string)
    ensures Recognised(TypeList(ThemeOptions(source))) == [BrowserES5Id]
  {
    assert TypeList(ThemeOptions(source)) == ["browserES5"];
    assert ["browserES5"][1..] == [];
  }

  /** The `browserES5` config of the theme options, before the override. */
  lemma ThemeBaseConfig(source: string, packageRoot: string)
    ensures var c := SourceConfigFor(BrowserES5Id, ThemeOptions(source), packageRoot);
      c.id == BrowserES5Id && c.platform == WebPlatform && c.legacyPreset &&
      c.packageRoot == source && c.packageName == "" && c.externals == map[] &&
      c.clean == RemoveFile(Paths.PackageDistributions(packageRoot) + "/web/browser-es5.js")
  {
    assert Paths.PackageDistributions(packageRoot) + "/" + "web" + "/" + "browser-es5.js"
        == Paths.PackageDistributions(packageRoot) + "/web/browser-es5.js";
  }
}
