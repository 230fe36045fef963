/** The constant tables of the environment helper: task identifiers
    (`TASK`), their display name and banner (`TASK_DATA`) and the repository
    types (`REPOSITORY_TYPE`). */
module Environment {
  import opened Common

  datatype TaskData = TaskData(name: string, banner: string)

  /** `TASK`: lookup key to task identifier. */
  const TASK: map<string, string> := map[
    "install" := "install",
    "outdated" := "outdated",
    "build" := "build",
    "watch" := "watch",
    "documentation" := "documentation",
    "prepare" := "prepare",
    "rebuild" := "rebuild",
    "publish" := "publish",
    "publishUnsafe" := "publish:unsafe"
  ]

  /** `TASK_DATA`: task identifier to display name and banner. */
  const TASK_DATA: map<string, TaskData> := map[
    "install" := TaskData("Install", "Install extra stuff"),
    "outdated" := TaskData("Outdated", "Check for outdated package dependencies"),
    "build" := TaskData("Build", "Generate package distributions"),
    "watch" := TaskData("Watch", "Watch changes in sources"),
    "documentation" := TaskData("Documentation", "Generate documentation"),
    "prepare" := TaskData("Prepare", "Prepare package for publication"),
    "rebuild" := TaskData("Rebuild", "Rebuild package"),
    "publish" := TaskData("Publish", "Publish package"),
    "publish:unsafe" := TaskData("Publish", "Publish package (unsafe)")
  ]

  /** The repository kinds the front door accepts, as a closed type. */
  datatype RepositoryType = SinglePackage | MultiPackage

  /** `REPOSITORY_TYPE`: property name to repository type value. */
  const REPOSITORY_TYPE: map<string, string> := map[
    "singlePackage" := "single-package",
    "multiPackage" := "multi-package"
  ]

  /** The table holds exactly the two repository type values. */
  lemma RepositoryTypeValues()
    ensures REPOSITORY_TYPE.Values == {"single-package", "multi-package"}
  {
    assert REPOSITORY_TYPE.Keys == {"singlePackage", "multiPackage"};
    assert REPOSITORY_TYPE["singlePackage"] == "single-package";
    assert REPOSITORY_TYPE["multiPackage"] == "multi-package";
  }

  function RepositoryTypeName(t: RepositoryType): string {
    match t
    case SinglePackage => REPOSITORY_TYPE["singlePackage"]
    case MultiPackage => REPOSITORY_TYPE["multiPackage"]
  }

  /** The repository type a configuration string selects, if any. */
  function ParseRepositoryType(s: string): (r: Option<RepositoryType>)
    ensures r.Some? <==> s in REPOSITORY_TYPE.Values
    ensures r.Some? ==> RepositoryTypeName(r.value) == s
  {
    RepositoryTypeValues();
    if s == "single-package" then Some(SinglePackage)
    else if s == "multi-package" then Some(MultiPackage)
    else None
  }

  /** The two repository types round-trip through their names. */
  lemma RepositoryTypeRoundTrip(t: RepositoryType)
    ensures ParseRepositoryType(RepositoryTypeName(t)) == Some(t)
  {
    RepositoryTypeValues();
  }

  /** `TASK_DATA[TASK[key]]`: the display data a lookup key resolves to, or
      the TypeError the source raises when destructuring `undefined`. */
  function TaskDataFor(key: string): (r: Result<TaskData>)
    ensures r.Ok? <==> key in TASK
    ensures r.Ok? ==> r.value == TASK_DATA[TASK[key]]
  {
    if key in TASK && TASK[key] in TASK_DATA then Ok(TASK_DATA[TASK[key]])
    else Err("TypeError: Cannot destructure property 'name' of undefined")
  }

  /** Every task identifier has display data, and no two lookup keys share one. */
  lemma TaskTableComplete()
    ensures forall k :: k in TASK ==> TASK[k] in TASK_DATA
    ensures forall k, k' :: k in TASK && k' in TASK && k != k' ==> TASK[k] != TASK[k']
  {
  }

  /** The unsafe publish key is the publish key followed by `Unsafe`, and it
      shares the publish display name but not its banner. */
  lemma UnsafePublishEntry()
    ensures "publish" + "Unsafe" in TASK && TASK["publish" + "Unsafe"] == "publish:unsafe"
    ensures TaskDataFor("publish" + "Unsafe") == Ok(TaskData("Publish", "Publish package (unsafe)"))
    ensures TaskDataFor("publish").value.name == TaskDataFor("publishUnsafe").value.name
    ensures TaskDataFor("publish").value.banner != TaskDataFor("publishUnsafe").value.banner
  {
    assert "publish" + "Unsafe" == "publishUnsafe";
  }
}
