/** Event traces. A task run is modelled as the sequence of observable
    events it produces (terminal boxes and notices, user-hook calls, and
    external effects such as packing or publishing) together with how it
    ended. Sequencing stops at the first step that does not complete, which
    is what awaiting promises without try/catch gives. */
module Trace {
  import opened Common
  import opened Strings
  import Builder
  import Packages

  /** A user hook (`preRun` / `postRun`): it either resolves or rejects with a message. */
  datatype Hook = Hook(rejection: Option<string>)

  /** The hooks configured for one task; absence is distinct from a no-op hook. */
  datatype TaskHooks = TaskHooks(preRun: Option<Hook>, postRun: Option<Hook>)

  const NoHooks: TaskHooks := TaskHooks(None, None)

  datatype Phase = Pre | Post

  /** External effects, in the terms of the collaborator they are handed to. */
  datatype Action =
    | CheckOutdated(root: string)                       // util.npmOutdated(root)
    | CommonDocAssets                                   // documenter.generateCommonAssets()
    | ApiDocs(root: string, source: string, destination: string, depth: nat)
    | TextDocs(source: string, destination: string)
    | BuildDistributions(options: Builder.DistOptions, inOut: Option<seq<Builder.InOut>>)
    | WatchDistributions(options: Builder.DistOptions, inOut: Option<seq<Builder.InOut>>)
    | RunTests                                          // `npm test`
    | RemoveSubpackageLockfiles                         // multi install
    | BootstrapWorkspace                                // `lerna clean` + `lerna bootstrap`
    | ReplaceWithSymlink(link: string, target: string)
    | UpdateNodeVersion
    | WritePackageJson(config: Packages.PackageJson)
    | CopyLicense(root: string)
    | SyncVersions(version: string)                     // `lerna version <version>`
    | Pack(root: string)                                // `npm pack`
    | AskOtp
    | AskConfirmation
    | PublishTarball(tarball: string, tag: string, restricted: bool, otp: Option<string>)

  datatype Event =
    | TitleBox(text: string)
    | InfoBox(text: string)
    | Echo(text: string)
    | HookCalled(task: string, phase: Phase)   // the hook receives the display handle only
    | Act(action: Action)

  datatype Outcome =
    | Done
    | Failed(error: string)     // an error propagates to the caller
    | Exited(message: string)   // the process exits with a message
    | Stalled                   // waiting on input that never becomes acceptable

  datatype Run = Run(events: seq<Event>, outcome: Outcome)

  function Emit(events: seq<Event>): Run {
    Run(events, Done)
  }

  /** `await a; await b;`: `b` only contributes when `a` completed. */
  function Then(a: Run, b: Run): Run {
    if a.outcome.Done? then Run(a.events + b.events, b.outcome) else a
  }

  /** The external effects of a trace, in order. */
  function Actions(events: seq<Event>): seq<Action> {
    if |events| == 0 then []
    else (if events[0].Act? then [events[0].action] else []) + Actions(events[1..])
  }

  lemma {:induction false} ActionsAppend(a: seq<Event>, b: seq<Event>)
    ensures Actions(a + b) == Actions(a) + Actions(b)
    decreases |a|
  {
    if |a| == 0 {
      assert a + b == b;
    } else {
      assert (a + b)[0] == a[0];
      assert (a + b)[1..] == a[1..] + b;
      ActionsAppend(a[1..], b);
    }
  }

  /** Terminal output and hook calls carry no external effect. */
  lemma {:induction false} NoActions(events: seq<Event>)
    requires forall i :: 0 <= i < |events| ==> !events[i].Act?
    ensures Actions(events) == []
    decreases |events|
  {
    if |events| > 0 {
      NoActions(events[1..]);
    }
  }

  /** The events of a list of external effects, one each, in order. */
  function Acts(actions: seq<Action>): (events: seq<Event>)
    ensures |events| == |actions|
    ensures Actions(events) == actions
  {
    if |actions| == 0 then []
    else
      var rest := Acts(actions[1..]);
      assert ([Act(actions[0])] + rest)[1..] == rest;
      [Act(actions[0])] + rest
  }

  lemma {:induction false} ActsAppend(a: seq<Action>, b: seq<Action>)
    ensures Acts(a + b) == Acts(a) + Acts(b)
    decreases |a|
  {
    if |a| == 0 {
      assert a + b == b;
    } else {
      assert (a + b)[1..] == a[1..] + b;
      ActsAppend(a[1..], b);
    }
  }

  /** The effects of `await a; await b;`: those of `a`, then those of `b` only when `a` completed. */
  lemma ThenActions(a: Run, b: Run)
    ensures Actions(Then(a, b).events) == Actions(a.events) + (if a.outcome.Done? then Actions(b.events) else [])
  {
    if a.outcome.Done? {
      ActionsAppend(a.events, b.events);
    }
  }

  /** The effects of three awaited steps: each contributes only when every earlier one completed. */
  lemma ThenActions3(a: Run, b: Run, c: Run)
    ensures Actions(Then(a, Then(b, c)).events) ==
              Actions(a.events) +
              (if a.outcome.Done? then Actions(b.events) + (if b.outcome.Done? then Actions(c.events) else []) else [])
    ensures Then(a, Then(b, c)).outcome.Done? <==> a.outcome.Done? && b.outcome.Done? && c.outcome.Done?
  {
    ThenActions(b, c);
    ThenActions(a, Then(b, c));
  }

  /** Sequencing is associative, so nested task bodies can be regrouped. */
  lemma ThenAssociative(a: Run, b: Run, c: Run)
    ensures Then(Then(a, b), c) == Then(a, Then(b, c))
  {
    if a.outcome.Done? && b.outcome.Done? {
      assert (a.events + b.events) + c.events == a.events + (b.events + c.events);
    }
  }

  /** A completed step, a one-event prompt, then effects that run only when
      the prompt completed. */
  lemma PromptedActions(first: Run, prompt: Run, asked: Action, effects: seq<Action>)
    requires first.outcome.Done? && prompt.events == [Act(asked)]
    ensures Actions(Then(first, Then(prompt, Emit(Acts(effects)))).events) ==
              Actions(first.events) + [asked] + (if prompt.outcome.Done? then effects else [])
  {
    ThenActions3(first, prompt, Emit(Acts(effects)));
    assert Actions(prompt.events) == [asked] by {
      assert Acts([asked]) == prompt.events;
    }
    var tail := if prompt.outcome.Done? then effects else [];
    assert Actions(first.events) + ([asked] + tail) == Actions(first.events) + [asked] + tail;
  }

  /** Three awaited steps that complete together: each completed, and the
      effects are theirs in order. */
  lemma ThenDone3(a: Run, b: Run, c: Run)
    requires Then(a, Then(b, c)).outcome.Done?
    ensures a.outcome.Done? && b.outcome.Done? && c.outcome.Done?
    ensures Actions(Then(a, Then(b, c)).events) == Actions(a.events) + Actions(b.events) + Actions(c.events)
  {
    ThenActions3(a, b, c);
  }

  /** Three awaited steps of which the first completes: the effects of the
      first, of the second, and of the third only when the second completed. */
  lemma ThenAfterDone3(a: Run, b: Run, c: Run)
    requires a.outcome.Done?
    ensures Actions(Then(a, Then(b, c)).events) ==
              Actions(a.events) + Actions(b.events) + (if b.outcome.Done? then Actions(c.events) else [])
  {
    ThenActions3(a, b, c);
    var tail := if b.outcome.Done? then Actions(c.events) else [];
    assert Actions(a.events) + (Actions(b.events) + tail) == Actions(a.events) + Actions(b.events) + tail;
  }

  /** A first step with no events leaves the second as it is. */
  lemma ThenEmptyFirst(b: Run)
    ensures Then(Emit([]), b) == b
  {
    assert [] + b.events == b.events;
  }
}
