/** Properties of the task runner (`taskRunner` of src/helpers/util.js): what
    it shows, when it runs the main runner, and that it adds no external
    effect of its own. */
module RunnerProperties {
  import opened Common
  import opened Environment
  import opened Trace
  import opened Util

  /** The pre-runner hook is absent or resolves. */
  predicate PreResolves(hooks: TaskHooks) {
    hooks.preRun.None? || hooks.preRun.value.rejection.None?
  }

  /** The post-runner hook is absent or resolves. */
  predicate PostResolves(hooks: TaskHooks) {
    hooks.postRun.None? || hooks.postRun.value.rejection.None?
  }

  lemma PrePhaseShape(name: string, hook: Option<Hook>)
    ensures Actions(PrePhase(name, hook).events) == []
    ensures PrePhase(name, hook).outcome.Done? <==> hook.None? || hook.value.rejection.None?
    ensures hook.Some? && hook.value.rejection.Some? ==>
              PrePhase(name, hook).outcome == Failed(hook.value.rejection.value)
  {
    NoActions(PrePhase(name, hook).events);
  }

  lemma PostPhaseShape(name: string, hook: Option<Hook>)
    ensures Actions(PostPhase(name, hook).events) == []
    ensures PostPhase(name, hook).outcome.Done? <==> hook.None? || hook.value.rejection.None?
    ensures |PostPhase(name, hook).events| >= 1
    ensures !PostPhase(name, hook).events[|PostPhase(name, hook).events| - 1].InfoBox?
  {
    NoActions(PostPhase(name, hook).events);
  }

  /** The runner's effects are exactly those of the main runner when the
      identifier is known and the pre-runner does not reject, and there are none
      otherwise: the main runner is not started. */
  lemma {:induction false} RunnerActions(task: string, hooks: TaskHooks, grouped: bool, main: Run)
    ensures Actions(TaskRunner(task, hooks, grouped, main).events) ==
              (if task in TASK_DATA && PreResolves(hooks) then Actions(main.events) else [])
  {
    if task in TASK_DATA {
      var data := TASK_DATA[task];
      var pre := PrePhase(data.name, hooks.preRun);
      var post := PostPhase(data.name, hooks.postRun);
      var tail := Emit(if grouped then [CompletionBanner(data)] else []);
      PrePhaseShape(data.name, hooks.preRun);
      PostPhaseShape(data.name, hooks.postRun);
      ThenActions(post, tail);
      ThenActions(main, Then(post, tail));
      ThenActions(pre, Then(main, Then(post, tail)));
      ThenActions(Emit([OpeningBanner(data, grouped)]), Then(pre, Then(main, Then(post, tail))));
    }
  }

  /** How a run with a known identifier ends: with the pre-runner's rejection,
      else with the main runner's failure, else as the post-runner ends. */
  lemma RunnerOutcome(task: string, hooks: TaskHooks, grouped: bool, main: Run)
    requires task in TASK_DATA
    ensures var r := TaskRunner(task, hooks, grouped, main);
      if !PreResolves(hooks) then r.outcome == Failed(hooks.preRun.value.rejection.value)
      else if !main.outcome.Done? then r.outcome == main.outcome
      else if !PostResolves(hooks) then r.outcome == Failed(hooks.postRun.value.rejection.value)
      else r.outcome.Done?
  {
    var data := TASK_DATA[task];
    PrePhaseShape(data.name, hooks.preRun);
  }

  /** Every run with a known identifier opens with the task's banner: an info
      box when grouped, a title box otherwise. */
  lemma RunnerOpens(task: string, hooks: TaskHooks, grouped: bool, main: Run)
    requires task in TASK_DATA
    ensures var r := TaskRunner(task, hooks, grouped, main);
      |r.events| >= 1 && r.events[0] == OpeningBanner(TASK_DATA[task], grouped)
  {
  }

  /** A completed run ends with the completion banner exactly when it is grouped. */
  lemma RunnerCompletes(task: string, hooks: TaskHooks, grouped: bool, main: Run)
    requires task in TASK_DATA
    ensures var r := TaskRunner(task, hooks, grouped, main);
      r.outcome.Done? ==> (r.events[|r.events| - 1] == CompletionBanner(TASK_DATA[task]) <==> grouped)
  {
    var data := TASK_DATA[task];
    var post := PostPhase(data.name, hooks.postRun);
    PostPhaseShape(data.name, hooks.postRun);
    var r := TaskRunner(task, hooks, grouped, main);
    if r.outcome.Done? && !grouped {
      assert r.events[|r.events| - 1] == post.events[|post.events| - 1];
    }
  }

  /** When the main runner does not complete, nothing follows its events: no
      post-runner and no completion banner. */
  lemma RunnerStopsAfterFailedMain(task: string, hooks: TaskHooks, grouped: bool, main: Run)
    requires task in TASK_DATA && PreResolves(hooks) && !main.outcome.Done?
    ensures var r := TaskRunner(task, hooks, grouped, main);
      r.outcome == main.outcome && |main.events| <= |r.events| && r.events[|r.events| - |main.events|..] == main.events
  {
    var data := TASK_DATA[task];
    PrePhaseShape(data.name, hooks.preRun);
  }

  /** An unknown identifier fails before anything is shown. */
  lemma RunnerUnknownTask(task: string, hooks: TaskHooks, grouped: bool, main: Run)
    requires task !in TASK_DATA
    ensures TaskRunner(task, hooks, grouped, main).events == []
    ensures TaskRunner(task, hooks, grouped, main).outcome.Failed?
  {
  }
}
