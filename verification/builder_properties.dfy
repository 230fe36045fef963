/** Properties of distribution-config derivation in both builder revisions:
    which targets are produced and in which order, where each writes, and how
    the two revisions and the multi in/out variant relate. */
module BuilderProperties {
  import opened Common
  import opened Strings
  import Paths
  import opened Builder
  import opened SourceBuilder

  //-- Recognised ids

  lemma {:induction false} RecognisedAppend(a: seq<string>, b: seq<string>)
    ensures Recognised(a + b) == Recognised(a) + Recognised(b)
    decreases |a|
  {
    if |a| == 0 {
      assert a + b == b;
    } else {
      assert (a + b)[1..] == a[1..] + b;
      RecognisedAppend(a[1..], b);
    }
  }

  /** An id is produced exactly when its name is listed. */
  lemma {:induction false} RecognisedMembership(types: seq<string>, id: TargetId)
    ensures id in Recognised(types) <==> TargetIdName(id) in types
    decreases |types|
  {
    if |types| > 0 {
      RecognisedMembership(types[1..], id);
      assert types == [types[0]] + types[1..];
    }
  }

  //-- getAllDistributionsConfigs

  /** One config per recognised id, in order, each of its id's platform. */
  lemma ConfigsMatchIds(o: DistOptions, root: string)
    ensures var c := GetAllDistributionsConfigs(o, root); var ids := Recognised(TypeList(o));
      |c| == |ids| &&
      forall i :: 0 <= i < |c| ==> c[i].id == ids[i] && (c[i].platform == NodePlatform <==> ids[i] == NodeId)
  {
  }

  /** With the node flag, the node config comes last and writes to `<destination>/node`. */
  lemma NodeConfigLast(o: DistOptions, root: string)
    requires o.node
    ensures var c := GetAllDistributionsConfigs(o, root);
      |c| >= 1 && c[|c| - 1].id == NodeId &&
      c[|c| - 1].outputPath == o.destination.GetOr(Paths.PackageDistributions(root)) + "/node" &&
      c[|c| - 1].clean == RemoveDirectory(c[|c| - 1].outputPath)
  {
    var ids := Recognised(TypeList(o));
    RecognisedAppend(WebTypes(o), ["node"]);
    RecognisedNode();
    assert ids == Recognised(WebTypes(o)) + [NodeId];
    NodeConfigOutput(o, root);
  }

  lemma RecognisedNode()
    ensures Recognised(["node"]) == [NodeId]
  {
    assert ["node"][1..] == [];
  }

  lemma NodeConfigOutput(o: DistOptions, root: string)
    ensures var c := ConfigFor(NodeId, o, root);
      c.id == NodeId &&
      c.outputPath == o.destination.GetOr(Paths.PackageDistributions(root)) + "/node" &&
      c.clean == RemoveDirectory(c.outputPath)
  {
  }

  /** A node config is produced exactly when the node flag is set or `node`
      is listed among the web types. */
  lemma NodeConfigPresent(o: DistOptions, root: string)
    ensures var c := GetAllDistributionsConfigs(o, root);
      (exists i :: 0 <= i < |c| && c[i].id == NodeId) <==> o.node || "node" in WebTypes(o)
  {
    var c := GetAllDistributionsConfigs(o, root);
    var ids := Recognised(TypeList(o));
    RecognisedMembership(TypeList(o), NodeId);
    if NodeId in ids {
      var i :| 0 <= i < |ids| && ids[i] == NodeId;
      assert c[i].id == NodeId;
    }
    assert "node" in TypeList(o) <==> o.node || "node" in WebTypes(o) by {
      if o.node {
        assert TypeList(o)[|TypeList(o)| - 1] == "node";
      }
    }
  }

  /** Web targets take the top-level name, else the web name; the node target
      takes only the top-level name. Every target reads the same source. */
  lemma ConfigNames(o: DistOptions, root: string)
    ensures var c := GetAllDistributionsConfigs(o, root);
      var web := if o.web.Some? then o.web.value.name else None;
      forall i :: 0 <= i < |c| ==>
        c[i].packageRoot == ResolvedSource(o, root) &&
        c[i].packageName == (if c[i].id == NodeId then o.name else Override(web, o.name)).GetOr("")
  {
  }

  //-- getMultipleInOutConfigs

  /** Overriding source and destination does not change the target list. */
  lemma WithInOutKeepsTypes(o: DistOptions, io: InOut)
    ensures TypeList(WithInOut(o, io)) == TypeList(o)
  {
  }

  lemma OneMoreTimes(n: nat, k: nat)
    ensures k + n * k == (n + 1) * k
  {
  }

  lemma PairCount(o: DistOptions, io: InOut, root: string)
    ensures |GetAllDistributionsConfigs(WithInOut(o, io), root)| == |Recognised(TypeList(o))|
  {
    WithInOutKeepsTypes(o, io);
  }

  /** Every pair contributes one config per recognised id. */
  lemma {:induction false} MultipleInOutCount(o: DistOptions, ios: seq<InOut>, root: string)
    ensures |GetMultipleInOutConfigs(o, ios, root)| == |ios| * |Recognised(TypeList(o))|
    decreases |ios|
  {
    if |ios| > 0 {
      var k := |Recognised(TypeList(o))|;
      var rest := ios[1..];
      MultipleInOutCount(o, rest, root);
      PairCount(o, ios[0], root);
      assert |GetMultipleInOutConfigs(o, ios, root)| == k + |rest| * k;
      OneMoreTimes(|rest|, k);
      assert |rest| + 1 == |ios|;
    }
  }

  /** The source a pair's configs read: its own, or the package's `src` when it is empty. */
  function PairSource(io: InOut, root: string): string {
    if io.source == "" then Paths.PackageSources(root) else io.source
  }

  /** The configs of one pair read its source and write under its destination. */
  lemma PairPlacement(o: DistOptions, io: InOut, root: string)
    ensures forall c :: c in GetAllDistributionsConfigs(WithInOut(o, io), root) ==>
              c.packageRoot == PairSource(io, root) && c.outputPath == io.destination + "/" + PlatformName(c.platform)
  {
    var first := GetAllDistributionsConfigs(WithInOut(o, io), root);
    assert ResolvedSource(WithInOut(o, io), root) == PairSource(io, root);
    forall c | c in first
      ensures c.packageRoot == PairSource(io, root) && c.outputPath == io.destination + "/" + PlatformName(c.platform)
    {
      var i :| 0 <= i < |first| && first[i] == c;
      ConfigNames(WithInOut(o, io), root);
    }
  }

  /** Every config reads from and writes under one of the pairs. */
  lemma {:induction false} MultipleInOutPlacement(o: DistOptions, ios: seq<InOut>, root: string)
    ensures forall c :: c in GetMultipleInOutConfigs(o, ios, root) ==>
              exists io :: io in ios && c.packageRoot == PairSource(io, root) &&
                c.outputPath == io.destination + "/" + PlatformName(c.platform)
    decreases |ios|
  {
    if |ios| > 0 {
      MultipleInOutPlacement(o, ios[1..], root);
      PairPlacement(o, ios[0], root);
      forall c | c in GetMultipleInOutConfigs(o, ios[1..], root)
        ensures exists io :: io in ios && c.packageRoot == PairSource(io, root) &&
                  c.outputPath == io.destination + "/" + PlatformName(c.platform)
      {
        var io :| io in ios[1..] && c.packageRoot == PairSource(io, root) &&
                  c.outputPath == io.destination + "/" + PlatformName(c.platform);
        assert io in ios;
      }
      assert ios[0] in ios;
    }
  }

  //-- The two revisions

  /** The source revision derives the same targets as the compiled one, in
      the same order, with the same output directories, names and externals;
      output filenames differ only for the ES5 targets. They read the same
      source except for an empty `source`, which only the compiled revision
      replaces with the package's `src`. */
  lemma RevisionsAgree(o: DistOptions, root: string)
    ensures var s := GetConfigs(o, root); var d := GetAllDistributionsConfigs(o, root);
      && |s| == |d|
      && (forall i :: 0 <= i < |s| ==> RevisionsAgreeOn(s[i], d[i]))
      && (forall i :: 0 <= i < |s| ==> (s[i].packageRoot == d[i].packageRoot <==> o.source != Some("")))
  {
    var ids := Recognised(TypeList(o));
    forall i | 0 <= i < |ids|
      ensures RevisionsAgreeOn(SourceConfigFor(ids[i], o, root), ConfigFor(ids[i], o, root))
      ensures SourceConfigFor(ids[i], o, root).packageRoot == ConfigFor(ids[i], o, root).packageRoot <==> o.source != Some("")
    {
      TargetRevisionsAgree(ids[i], o, root);
    }
  }

  /** The fields both revisions derive alike, and the filename, which only
      the ES5 targets change. */
  predicate RevisionsAgreeOn(s: DistConfig, d: DistConfig) {
    s.id == d.id && s.platform == d.platform && s.outputPath == d.outputPath &&
    s.packageName == d.packageName &&
    s.externals == d.externals && s.entry == d.entry && s.legacyPreset == d.legacyPreset &&
    (s.filename == d.filename <==> s.id != BrowserES5Id && s.id != KafeES5Id)
  }

  /** Both revisions agree on one target; the source revision keeps an empty
      `source` where the compiled one falls back to the package's `src`. */
  lemma TargetRevisionsAgree(id: TargetId, o: DistOptions, root: string)
    ensures var s := SourceConfigFor(id, o, root); var d := ConfigFor(id, o, root);
      && RevisionsAgreeOn(s, d)
      && s.packageRoot == o.source.GetOr(Paths.PackageSources(root))
      && d.packageRoot == ResolvedSource(o, root)
      && (s.packageRoot == d.packageRoot <==> o.source != Some(""))
  {
  }

  lemma DocumentationThemeTarget(source: string, directory: string, file: string, root: string)
    requires |directory| >= 1 && directory[|directory| - 1] != '/'
    requires |file| >= 1 && '/' !in file
    ensures var c := DocumentationTheme(source, directory + "/" + file, root);
      c.outputPath == directory && c.filename == Some(file)
  {
    Paths.DirnameBasename(directory, file);
  }
}
