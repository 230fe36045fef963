/** What the manager reads from a package's `package.json` and `lerna.json`.
    Versions are abstract: a release part and an optional prerelease part,
    which is all that publish-tag classification looks at. */
module Packages {
  import opened Common

  /** A version such as `1.2.0` (no prerelease) or `1.2.0-beta.1`. */
  datatype SemVer = SemVer(release: string, prerelease: Option<string>)

  /** The version as it appears in a template literal; an absent version
      prints as `undefined`, as JavaScript does. */
  function VersionText(v: Option<SemVer>): string {
    match v
    case None => "undefined"
    case Some(SemVer(release, None)) => release
    case Some(SemVer(release, Some(pre))) => release + "-" + pre
  }

  /** The fields of `package.json` the manager uses. `version` and
      `devDependencies` may be missing from the file. */
  datatype PackageJson = PackageJson(
    name: string,
    version: Option<SemVer>,
    devDependencies: Option<map<string, string>>)
}
