/** Distribution-config derivation of the compiled builder
    (dist/node/helpers/builder.js): from one options object to an ordered
    list of per-target config records. A config is a record, not a webpack
    object: webpack-merge is field override, and the pre-clean the builder
    performs while deriving a config is recorded in the config itself. */
module Builder {
  import opened Common
  import opened Strings
  import Paths

  /** The distribution ids the builder recognises. */
  datatype TargetId = NodeId | BrowserId | BrowserES5Id | KafeId | KafeES5Id

  function TargetIdName(id: TargetId): string {
    match id
    case NodeId => "node"
    case BrowserId => "browser"
    case BrowserES5Id => "browserES5"
    case KafeId => "kafe"
    case KafeES5Id => "kafeES5"
  }

  /** The id a `types` entry names; any other string is skipped by the builder. */
  function ParseTargetId(s: string): (r: Option<TargetId>)
    ensures r.Some? ==> TargetIdName(r.value) == s
    ensures r.None? ==> forall id :: TargetIdName(id) != s
  {
    if s == "node" then Some(NodeId)
    else if s == "browser" then Some(BrowserId)
    else if s == "browserES5" then Some(BrowserES5Id)
    else if s == "kafe" then Some(KafeId)
    else if s == "kafeES5" then Some(KafeES5Id)
    else None
  }

  /** webpack's `target`, which also names the output sub-directory. */
  datatype Platform = NodePlatform | WebPlatform

  function PlatformName(p: Platform): string {
    match p
    case NodePlatform => "node"
    case WebPlatform => "web"
  }

  datatype Mode = NoMode | Production

  /** A per-target base config (`nodeConfig`, `BROWSER_CONFIG`, ...). */
  datatype MainConfig = MainConfig(
    platform: Platform,
    entry: string,                  // entry file in the manager's entry-point directory
    filename: Option<string>,       // `output.filename`, when the target emits one file
    legacyPreset: bool,             // babel-loader rule with the ES5 preset
    transpileFrom: Option<string>)  // node only: directory whose sources are copied through babel

  /** What the builder deletes before a target is rebuilt. */
  datatype Clean = RemoveFile(file: string) | RemoveDirectory(directory: string)

  /** One copy-webpack-plugin pattern for an `include` entry. */
  datatype Copy = Copy(context: string, from: string, to: string)

  /** A derived per-target config. */
  datatype DistConfig = DistConfig(
    id: TargetId,
    platform: Platform,
    entry: string,
    legacyPreset: bool,
    transpileFrom: Option<string>,
    mode: Mode,
    outputPath: string,
    filename: Option<string>,
    clean: Clean,
    packageName: string,            // injected `__PACKAGE_NAME__`
    packageRoot: string,            // injected `__PACKAGE_ROOT__`
    externals: map<string, string>,
    copies: seq<Copy>)

  /** `web` distribution options. */
  datatype WebOptions = WebOptions(
    types: Option<seq<string>>,
    name: Option<string>,
    externals: Option<map<string, string>>)

  /** `dist` options as the manager receives them. */
  datatype DistOptions = DistOptions(
    node: bool,
    web: Option<WebOptions>,
    source: Option<string>,
    destination: Option<string>,
    name: Option<string>,
    externals: Option<map<string, string>>,
    includes: Option<seq<string>>)

  /** The options one target config is derived from, with the source already resolved. */
  datatype ConfigOptions = ConfigOptions(
    source: string,
    destination: Option<string>,
    name: Option<string>,
    externals: Option<map<string, string>>,
    includes: Option<seq<string>>)

  /** One sub-package's source/destination pair for the multi in/out variant. */
  datatype InOut = InOut(source: string, destination: string)

  //-- Base configs

  function NodeConfig(source: string): MainConfig {
    MainConfig(NodePlatform, "node.js", None, false, Some(source))
  }

  /** The web base configs; their filenames are the distribution id plus `.js`. */
  function WebConfig(id: TargetId): MainConfig
    requires id != NodeId
  {
    match id
    case BrowserId => MainConfig(WebPlatform, "browser.js", Some("browser.js"), false, None)
    case BrowserES5Id => MainConfig(WebPlatform, "browser.js", Some("browserES5.js"), true, None)
    case KafeId => MainConfig(WebPlatform, "kafe.js", Some("kafe.js"), false, None)
    case KafeES5Id => MainConfig(WebPlatform, "kafe.js", Some("kafeES5.js"), true, None)
  }

  //-- include filtering

  /** A pattern rooted at `/` or `.`, which the builder drops. */
  predicate IsRooted(pattern: string) {
    StartsWith(pattern, "/") || StartsWith(pattern, ".")
  }

  /** The `include` patterns that are kept, in their original order. */
  function Unrooted(patterns: seq<string>): (r: seq<string>)
    ensures forall x :: Count(r, x) == (if IsRooted(x) then 0 else Count(patterns, x))
    ensures forall x :: x in r <==> x in patterns && !IsRooted(x)
    ensures |r| <= |patterns|
  {
    if |patterns| == 0 then []
    else
      var rest := Unrooted(patterns[1..]);
      var r := if IsRooted(patterns[0]) then rest else [patterns[0]] + rest;
      forall x ensures Count(r, x) == (if IsRooted(x) then 0 else Count(patterns, x)) {
        assert patterns == [patterns[0]] + patterns[1..];
        CountAppend([patterns[0]], patterns[1..], x);
        if !IsRooted(patterns[0]) {
          CountAppend([patterns[0]], rest, x);
        }
      }
      forall x ensures x in r <==> x in patterns && !IsRooted(x) {
        CountAbsent(r, x);
        CountAbsent(patterns, x);
      }
      r
  }

  /** Filtering distributes over concatenation: the kept patterns stay in
      their original order. */
  lemma {:induction false} UnrootedAppend(a: seq<string>, b: seq<string>)
    ensures Unrooted(a + b) == Unrooted(a) + Unrooted(b)
    decreases |a|
  {
    if |a| == 0 {
      assert a + b == b;
    } else {
      assert (a + b)[1..] == a[1..] + b;
      UnrootedAppend(a[1..], b);
    }
  }

  /** One pattern is kept exactly when it is not rooted. */
  lemma UnrootedSingle(x: string)
    ensures Unrooted([x]) == if IsRooted(x) then [] else [x]
  {
    assert [x][1..] == [];
  }

  /** One copy pattern per kept `include` pattern, from `source` to `destination`. */
  function Copies(patterns: seq<string>, source: string, destination: string): (r: seq<Copy>)
    ensures |r| == |patterns|
    ensures forall i :: 0 <= i < |r| ==> r[i] == Copy(source, patterns[i], destination)
  {
    if |patterns| == 0 then [] else [Copy(source, patterns[0], destination)] + Copies(patterns[1..], source, destination)
  }

  //-- getDistributionConfig

  /** The config of one target: output directory `<destination>/<platform>`,
      pre-clean of the single output file or of the whole directory, the two
      injected constants, and the copies of the unrooted `include` patterns. */
  function GetDistributionConfig(id: TargetId, main: MainConfig, o: ConfigOptions, packageRoot: string): (c: DistConfig)
    ensures c.id == id && c.platform == main.platform && c.filename == main.filename
    ensures c.outputPath == o.destination.GetOr(Paths.PackageDistributions(packageRoot)) + "/" + PlatformName(main.platform)
    ensures c.clean.RemoveFile? <==> main.filename.Some?
    ensures c.clean.RemoveFile? ==> c.clean.file == c.outputPath + "/" + main.filename.value
    ensures c.clean.RemoveDirectory? ==> c.clean.directory == c.outputPath
    ensures c.packageName == o.name.GetOr("") && c.packageRoot == o.source
    ensures c.externals == o.externals.GetOr(map[])
    ensures |c.copies| == |Unrooted(o.includes.GetOr([]))|
    ensures forall k :: 0 <= k < |c.copies| ==>
              c.copies[k].context == o.source && c.copies[k].to == c.outputPath &&
              c.copies[k].from == Unrooted(o.includes.GetOr([]))[k] && !IsRooted(c.copies[k].from)
    ensures c.mode == NoMode
  {
    var destination := o.destination.GetOr(Paths.PackageDistributions(packageRoot));
    var finalDestination := destination + "/" + PlatformName(main.platform);
    var clean := if main.filename.Some? then RemoveFile(finalDestination + "/" + main.filename.value)
                 else RemoveDirectory(finalDestination);
    var kept := Unrooted(o.includes.GetOr([]));
    forall k | 0 <= k < |kept| ensures !IsRooted(kept[k]) {
      assert kept[k] in kept;
    }
    DistConfig(id, main.platform, main.entry, main.legacyPreset, main.transpileFrom, NoMode,
               finalDestination, main.filename, clean, o.name.GetOr(""), o.source,
               o.externals.GetOr(map[]), Copies(kept, o.source, finalDestination))
  }

  //-- getAllDistributionsConfigs

  /** `web.types` (empty by default) with `node` appended last when the node flag is set. */
  function TypeList(o: DistOptions): (types: seq<string>)
    ensures o.node ==> |types| >= 1 && types[|types| - 1] == "node"
    ensures !o.node ==> types == WebTypes(o)
  {
    WebTypes(o) + (if o.node then ["node"] else [])
  }

  function WebTypes(o: DistOptions): seq<string> {
    if o.web.Some? then o.web.value.types.GetOr([]) else []
  }

  /** The recognised ids of a type list, in order; unknown ids are skipped. */
  function Recognised(types: seq<string>): seq<TargetId> {
    if |types| == 0 then []
    else
      (match ParseTargetId(types[0]) case None => [] case Some(id) => [id]) + Recognised(types[1..])
  }

  /** The source every config of a derivation uses: `options.source || paths.package.sources`,
      so an absent or empty `source` falls back to the package's `src`. */
  function ResolvedSource(o: DistOptions, packageRoot: string): (r: string)
    ensures r != ""
    ensures o.source.Some? && o.source.value != "" ==> r == o.source.value
    ensures o.source.None? || o.source == Some("") ==> r == Paths.PackageSources(packageRoot)
  {
    if o.source.Some? && o.source.value != "" then o.source.value else Paths.PackageSources(packageRoot)
  }

  /** The top-level options the node target uses. */
  function NodeOptions(o: DistOptions, packageRoot: string): ConfigOptions {
    ConfigOptions(ResolvedSource(o, packageRoot), o.destination, o.name, o.externals, o.includes)
  }

  /** `merge(web, options)`: web options overridden by the top-level ones. */
  function WebTargetOptions(o: DistOptions, packageRoot: string): (w: ConfigOptions)
    ensures o.source.Some? && o.source.value != "" ==> w.source == o.source.value
    ensures o.source.None? || o.source == Some("") ==> w.source == Paths.PackageSources(packageRoot)
    ensures w.destination == o.destination && w.includes == o.includes
    ensures o.name.Some? ==> w.name == o.name
    ensures o.name.None? && o.web.Some? ==> w.name == o.web.value.name
  {
    var web := if o.web.Some? then o.web.value else WebOptions(None, None, None);
    ConfigOptions(ResolvedSource(o, packageRoot), o.destination, Override(web.name, o.name),
                  Some(MergeMaps(web.externals, o.externals)), o.includes)
  }

  /** The config a recognised id yields. */
  function ConfigFor(id: TargetId, o: DistOptions, packageRoot: string): DistConfig {
    if id == NodeId then
      GetDistributionConfig(NodeId, NodeConfig(ResolvedSource(o, packageRoot)), NodeOptions(o, packageRoot), packageRoot)
    else
      GetDistributionConfig(id, WebConfig(id), WebTargetOptions(o, packageRoot), packageRoot)
  }

  /** The configs for a list of type ids: exactly one per recognised id, in order. */
  function ConfigsFor(types: seq<string>, o: DistOptions, packageRoot: string): (r: seq<DistConfig>)
    ensures |r| == |Recognised(types)|
    ensures forall i :: 0 <= i < |r| ==> r[i] == ConfigFor(Recognised(types)[i], o, packageRoot)
  {
    if |types| == 0 then []
    else
      var head := match ParseTargetId(types[0]) case None => [] case Some(id) => [ConfigFor(id, o, packageRoot)];
      head + ConfigsFor(types[1..], o, packageRoot)
  }

  /** `getAllDistributionsConfigs(options)`. */
  function GetAllDistributionsConfigs(o: DistOptions, packageRoot: string): seq<DistConfig> {
    ConfigsFor(TypeList(o), o, packageRoot)
  }

  //-- getMultipleInOutConfigs

  /** `merge(options, { source, destination })` for one sub-package. */
  function WithInOut(o: DistOptions, io: InOut): DistOptions {
    o.(source := Some(io.source), destination := Some(io.destination))
  }

  /** The concatenation of the per-pair config lists, in pair order. */
  function GetMultipleInOutConfigs(o: DistOptions, inOut: seq<InOut>, packageRoot: string): seq<DistConfig> {
    if |inOut| == 0 then []
    else GetAllDistributionsConfigs(WithInOut(o, inOut[0]), packageRoot) + GetMultipleInOutConfigs(o, inOut[1..], packageRoot)
  }

  /** `builder.run(options, multipleInOut)`: the configs handed to webpack. */
  function BuildConfigs(o: DistOptions, inOut: Option<seq<InOut>>, packageRoot: string): seq<DistConfig> {
    match inOut
    case None => GetAllDistributionsConfigs(o, packageRoot)
    case Some(list) => GetMultipleInOutConfigs(o, list, packageRoot)
  }
}
