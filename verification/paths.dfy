/** The package layout the manager assumes, and the two POSIX path helpers
    (`path.basename`, `path.dirname`) whose results reach the model.
    Paths are plain strings: `realpath` is the identity here. */
module Paths {
  import opened Common

  /** `paths.package.config`, `.distributions`, `.documentation`, `.sources`. */
  function PackageConfig(root: string): string { root + "/package.json" }
  function PackageDistributions(root: string): string { root + "/dist" }
  function PackageDocumentation(root: string): string { root + "/docs" }
  function PackageSources(root: string): string { root + "/src" }

  /** `paths.subpackage.sources` and `.distributions`, relative to a sub-package root. */
  const SubpackageSources: string := "src"
  const SubpackageDistributions: string := "dist"

  /** End of `p[..e]` once its trailing slashes are dropped. */
  function TrimmedEnd(p: string, e: nat): (r: nat)
    requires e <= |p|
    ensures r <= e
    ensures r == 0 || p[r - 1] != '/'
    ensures forall j :: r <= j < e ==> p[j] == '/'
  {
    if e == 0 || p[e - 1] != '/' then e else TrimmedEnd(p, e - 1)
  }

  /** Largest index `i` with `low <= i < e` that holds a slash. */
  function LastSlash(p: string, low: nat, e: nat): (r: Option<nat>)
    requires e <= |p|
    ensures r.Some? ==> low <= r.value < e && p[r.value] == '/'
    ensures r.Some? ==> forall j :: r.value < j < e ==> p[j] != '/'
    ensures r.None? ==> forall j :: low <= j < e ==> p[j] != '/'
  {
    if e <= low then None
    else if p[e - 1] == '/' then Some(e - 1)
    else LastSlash(p, low, e - 1)
  }

  /** Node's POSIX `path.basename(p)`: the last segment, trailing slashes ignored. */
  function Basename(p: string): (r: string)
    ensures '/' !in r
  {
    var e := TrimmedEnd(p, |p|);
    match LastSlash(p, 0, e)
    case None => p[..e]
    case Some(i) => p[i + 1..e]
  }

  /** Node's POSIX `path.dirname(p)`: everything before the last segment; the
      slash at index 0 is the root and never ends the directory part. */
  function Dirname(p: string): string {
    if |p| == 0 then "."
    else
      var hasRoot := p[0] == '/';
      var e := TrimmedEnd(p, |p|);
      var e1 := if e < 1 then 1 else e;
      match LastSlash(p, 1, e1)
      case None => if hasRoot then "/" else "."
      case Some(i) => if hasRoot && i == 1 then "//" else p[..i]
  }

  /** `dirname` and `basename` split `d/b` back into `d` and `b`. */
  lemma DirnameBasename(d: string, b: string)
    requires |d| >= 1 && d[|d| - 1] != '/'
    requires |b| >= 1 && '/' !in b
    ensures Dirname(d + "/" + b) == d
    ensures Basename(d + "/" + b) == b
  {
    var p := d + "/" + b;
    assert p[|p| - 1] == b[|b| - 1];
    assert TrimmedEnd(p, |p|) == |p|;
    forall j | |d| < j < |p|
      ensures p[j] != '/'
    {
      assert p[j] == b[j - |d| - 1];
    }
    assert p[|d|] == '/';
    assert LastSlash(p, 0, |p|) == Some(|d|);
    assert p[|d| + 1..] == b;
    if |d| == 1 {
      assert d[0] != '/';
      assert LastSlash(p, 1, |p|) == Some(|d|);
    } else {
      assert LastSlash(p, 1, |p|) == Some(|d|);
    }
    assert p[..|d|] == d;
  }
}
