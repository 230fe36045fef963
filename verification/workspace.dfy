/** Sub-package discovery of the multi-package manager: the output of
    `lerna exec -- pwd` (one absolute sub-package path per line, possibly
    preceded by an `info cli …` line) turned into sub-package records. */
module Workspace {
  import opened Common
  import opened Strings
  import Paths
  import Util

  datatype Subpackage = Subpackage(root: string, source: string, destination: string, name: string)

  const HeaderPrefix: string := "info cli"

  /** Characters JavaScript's `.` does not match. */
  predicate IsLineTerminator(c: char) {
    c == '\n' || c == '\r' || c == '\U{2028}' || c == '\U{2029}'
  }

  /** Index of the first newline of `s`, if any. */
  function FirstNewline(s: string): (r: Option<nat>)
    ensures r.Some? ==> r.value < |s| && s[r.value] == '\n' && '\n' !in s[..r.value]
    ensures r.None? ==> '\n' !in s
  {
    if |s| == 0 then None
    else if s[0] == '\n' then Some(0)
    else match FirstNewline(s[1..])
      case None => None
      case Some(k) => assert s[..k + 1] == [s[0]] + s[1..][..k]; Some(k + 1)
  }

  /** The replacement of `/^(info cli.+\n)([\s\S]+)/u` by its second group:
      a first line that is `info cli` followed by at least one non-terminator
      character is dropped when at least one character follows it. */
  function StripHeader(raw: string): (r: string)
    ensures |r| <= |raw| && r == raw[|raw| - |r|..]
    ensures r != raw ==> StartsWith(raw, HeaderPrefix) && r != [] && |r| < |raw| && raw[|raw| - |r| - 1] == '\n'
    ensures r != raw ==>
              && |HeaderPrefix| < |raw| - |r| - 1
              && '\n' !in raw[..|raw| - |r| - 1]
              && forall i :: |HeaderPrefix| <= i < |raw| - |r| - 1 ==> !IsLineTerminator(raw[i])
  {
    if !StartsWith(raw, HeaderPrefix) then raw
    else match FirstNewline(raw)
      case None => raw
      case Some(k) =>
        if k > |HeaderPrefix| && (forall i :: |HeaderPrefix| <= i < k ==> !IsLineTerminator(raw[i])) && k + 1 < |raw|
        then raw[k + 1..]
        else raw
  }

  /** The discovered sub-package paths: header stripped, split on newlines,
      empty lines dropped, order kept. */
  function DiscoveredPaths(raw: string): (paths: seq<string>)
    ensures forall i :: 0 <= i < |paths| ==> paths[i] != "" && '\n' !in paths[i]
  {
    var lines := Split(StripHeader(raw), '\n');
    var r := NonEmpty(lines);
    assert forall i :: 0 <= i < |r| ==> r[i] in lines;
    r
  }

  /** One path per line, ending with a newline when `trailing` is set, as
      the output of a command usually does. */
  function Listing(paths: seq<string>, trailing: bool): string
    requires |paths| >= 1
  {
    Join(paths, '\n') + (if trailing then "\n" else "")
  }

  /** The lines a listing splits into: the paths, and one empty line after
      a trailing newline. */
  lemma ListingLines(paths: seq<string>, trailing: bool)
    requires |paths| >= 1 && forall i :: 0 <= i < |paths| ==> paths[i] != [] && '\n' !in paths[i]
    ensures var parts := paths + (if trailing then [""] else []);
      Split(Listing(paths, trailing), '\n') == parts && NonEmpty(parts) == paths
  {
    var parts := paths + (if trailing then [""] else []);
    NonEmptyKeepsAll(paths);
    if trailing {
      JoinEmptyLast(paths, '\n');
      NonEmptyAppend(paths, [""]);
      NonEmptySingle("");
      assert NonEmpty(parts) == paths + [];
    } else {
      assert parts == paths;
      assert Listing(paths, trailing) == Join(paths, '\n') + "";
      assert Join(paths, '\n') + "" == Join(paths, '\n');
    }
    assert forall i :: 0 <= i < |parts| ==> '\n' !in parts[i] by {
      assert forall i :: 0 <= i < |paths| ==> parts[i] == paths[i];
    }
    SplitJoin(parts, '\n');
  }

  /** With an `info cli` header line, discovery returns exactly the listed
      paths, in order, with or without a final newline. */
  lemma {:induction false} DiscoveryWithHeader(header: string, paths: seq<string>, trailing: bool)
    requires header != [] && forall i :: 0 <= i < |header| ==> !IsLineTerminator(header[i])
    requires |paths| >= 1 && forall i :: 0 <= i < |paths| ==> paths[i] != [] && '\n' !in paths[i]
    ensures DiscoveredPaths(HeaderPrefix + header + "\n" + Listing(paths, trailing)) == paths
  {
    var body := Listing(paths, trailing);
    var raw := HeaderPrefix + header + "\n" + body;
    var k := |HeaderPrefix| + |header|;
    assert StartsWith(raw, HeaderPrefix) by { assert raw[..|HeaderPrefix|] == HeaderPrefix; }
    assert raw[k] == '\n';
    forall i | 0 <= i < k ensures raw[i] != '\n' {
      if i >= |HeaderPrefix| { assert raw[i] == header[i - |HeaderPrefix|]; }
    }
    assert '\n' !in raw[..k];
    var n := FirstNewline(raw);
    assert n == Some(k);
    forall i | |HeaderPrefix| <= i < k ensures !IsLineTerminator(raw[i]) {
      assert raw[i] == header[i - |HeaderPrefix|];
    }
    JoinNonEmpty(paths);
    assert raw[k + 1..] == body;
    assert StripHeader(raw) == body;
    ListingLines(paths, trailing);
  }

  /** Without a header line, discovery returns exactly the listed paths, with
      or without a final newline. */
  lemma DiscoveryWithoutHeader(paths: seq<string>, trailing: bool)
    requires |paths| >= 1 && forall i :: 0 <= i < |paths| ==> paths[i] != [] && '\n' !in paths[i]
    requires !StartsWith(paths[0], HeaderPrefix)
    ensures DiscoveredPaths(Listing(paths, trailing)) == paths
  {
    NoHeaderKept(paths);
    var joined := Join(paths, '\n');
    assert Listing(paths, trailing)[..|joined|] == joined;
    ListingLines(paths, trailing);
  }

  lemma NoHeaderKept(paths: seq<string>)
    requires |paths| >= 1 && '\n' !in paths[0]
    requires !StartsWith(paths[0], HeaderPrefix)
    ensures !StartsWith(Join(paths, '\n'), HeaderPrefix)
  {
    var j := Join(paths, '\n');
    var p := paths[0];
    var h := |HeaderPrefix|;
    JoinPrefix(paths);
    if |p| >= h {
      assert j[..h] == p[..h];
    } else if |paths| > 1 {
      if h <= |j| {
        assert j[..h][|p|] == '\n' != HeaderPrefix[|p|];
      }
    } else {
      assert j == p;
    }
  }

  lemma {:induction false} JoinNonEmpty(paths: seq<string>)
    requires |paths| >= 1 && paths[0] != []
    ensures |Join(paths, '\n')| >= 1
  {
  }

  /** A joined list starts with its first part, followed by a separator when more parts follow. */
  lemma JoinPrefix(paths: seq<string>)
    requires |paths| >= 1
    ensures |paths[0]| <= |Join(paths, '\n')| && Join(paths, '\n')[..|paths[0]|] == paths[0]
    ensures |paths| > 1 ==> |paths[0]| < |Join(paths, '\n')| && Join(paths, '\n')[|paths[0]|] == '\n'
  {
  }

  /** The record of one discovered path. */
  function SubpackageOf(packageRoot: string, item: string): (s: Subpackage)
    ensures s.root == Util.RelativizePath(packageRoot, item)
    ensures s.source == s.root + "/" + Paths.SubpackageSources
    ensures s.destination == s.root + "/" + Paths.SubpackageDistributions
    ensures s.name == Paths.Basename(item)
  {
    var root := Util.RelativizePath(packageRoot, item);
    Subpackage(root, root + "/" + Paths.SubpackageSources, root + "/" + Paths.SubpackageDistributions, Paths.Basename(item))
  }

  /** The `subpackages` list the multi-package constructor records. */
  function Subpackages(packageRoot: string, raw: string): (subs: seq<Subpackage>)
    ensures |subs| == |DiscoveredPaths(raw)|
    ensures forall i :: 0 <= i < |subs| ==> subs[i] == SubpackageOf(packageRoot, DiscoveredPaths(raw)[i])
  {
    var paths := DiscoveredPaths(raw);
    seq(|paths|, i requires 0 <= i < |paths| => SubpackageOf(packageRoot, paths[i]))
  }

  /** Whatever listing discovers a list of paths under the package root
      yields, in that order, one record per path: its root is the path with
      the package root replaced by `.`, its sources and distributions sit
      under that root, and its name is the path's last segment. */
  lemma {:induction false} SubpackageRecords(packageRoot: string, raw: string, paths: seq<string>)
    requires DiscoveredPaths(raw) == paths
    requires forall i :: 0 <= i < |paths| ==> StartsWith(paths[i], packageRoot)
    ensures var subs := Subpackages(packageRoot, raw);
      |subs| == |paths| &&
      forall i :: 0 <= i < |paths| ==>
        && subs[i].root == "." + paths[i][|packageRoot|..]
        && subs[i].source == subs[i].root + "/src"
        && subs[i].destination == subs[i].root + "/dist"
        && subs[i].name == Paths.Basename(paths[i])
  {
    var subs := Subpackages(packageRoot, raw);
    forall i | 0 <= i < |paths|
      ensures SubpackageRecord(subs[i], packageRoot, paths[i])
    {
      RootedSubpackage(packageRoot, paths[i]);
    }
  }

  /** The record of one path under the package root. */
  predicate SubpackageRecord(s: Subpackage, packageRoot: string, item: string)
    requires |packageRoot| <= |item|
  {
    && s.root == "." + item[|packageRoot|..]
    && s.source == s.root + "/src"
    && s.destination == s.root + "/dist"
    && s.name == Paths.Basename(item)
  }

  lemma RootedSubpackage(packageRoot: string, item: string)
    requires StartsWith(item, packageRoot)
    ensures SubpackageRecord(SubpackageOf(packageRoot, item), packageRoot, item)
  {
    var s := SubpackageOf(packageRoot, item);
    assert s.source == s.root + "/" + "src";
    assert s.root + "/" + "src" == s.root + "/src";
    assert s.root + "/" + "dist" == s.root + "/dist";
  }
}
