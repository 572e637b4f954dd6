/**
Assembling the adapter set of one workflow definition: which adapters are rebuilt,
which are carried forward from the previous set, and why the result is coherent.
*/
module Assembly {
  import opened Outcomes

  /** The slice of configuration an adapter is bound to. Strings stand for values compared whole. */
  datatype Leg = Leg(kind: string, binding: string)

  datatype Substrate = Substrate(remote: bool, declaration: string)

  /** Everything a load yields; `rest` is the prompt, the provenance and what no adapter is bound to. */
  datatype Content = Content(
    tracker: Leg, agent: Leg, workspace: string,
    deployment: string, substrate: Substrate, review: string, rest: string)

  datatype Change = Change(tracker: bool, agent: bool, workspace: bool) {
    predicate Any() { tracker || agent || workspace }
  }

  const EVERYTHING := Change(true, true, true)

  function AdapterChange(current: Content, next: Content): Change {
    Change(current.tracker != next.tracker, current.agent != next.agent, current.workspace != next.workspace)
  }

  // Each adapter carries what it was built from.

  datatype Tracker = Tracker(id: nat, leg: Leg)

  datatype Workspaces = Workspaces(id: nat, remote: bool, tracker: Tracker, config: string, writes: Option<Leg>)

  datatype Verifier = Verifier(workspaces: Workspaces, tracker: Tracker)

  datatype Runner = Runner(id: nat, remote: bool, leg: Leg, workspaces: Workspaces)

  datatype Bundle = Bundle(tracker: Tracker, workspaces: Workspaces, verifier: Verifier, runner: Runner)

  /** The adapters were built for these bindings, from one another, and all on one side. */
  predicate Coherent(b: Bundle, c: Content) {
    && b.tracker.leg == c.tracker
    && b.workspaces.tracker == b.tracker
    && b.workspaces.config == c.workspace
    && b.workspaces.remote == c.substrate.remote
    && (!c.substrate.remote ==> b.workspaces.writes == Some(c.agent))
    && b.verifier == Verifier(b.workspaces, b.tracker)
    && b.runner.leg == c.agent
    && b.runner.workspaces == b.workspaces
    && b.runner.remote == c.substrate.remote
  }

  /** Where a build may be refused: nothing is returned then. */
  datatype Stage = Structural | Sources | Backend | TrackerReady | WriteScope | WorkspaceReady | RunnerReady | Survey | Review

  // ---- what is rebuilt ----

  predicate RebuildsTracker(prev: Option<Bundle>, changed: Change) {
    changed.tracker || prev.None?
  }

  predicate RebuildsWorkspace(def: Content, prev: Option<Bundle>, changed: Change) {
    RebuildsTracker(prev, changed) || changed.workspace || (changed.agent && !def.substrate.remote)
  }

  predicate RebuildsRunner(def: Content, prev: Option<Bundle>, changed: Change) {
    changed.agent || RebuildsWorkspace(def, prev, changed) || prev.None?
  }

  /** Every part is the previous one, or was built now from the parts beside it. */
  predicate Assembled(def: Content, prev: Option<Bundle>, changed: Change, from: nat, b: Bundle) {
    && (if RebuildsTracker(prev, changed) then b.tracker == Tracker(from, def.tracker) else b.tracker == prev.value.tracker)
    && (if RebuildsWorkspace(def, prev, changed) then
          && b.workspaces == Workspaces(from + 1, def.substrate.remote, b.tracker, def.workspace,
               if def.substrate.remote then None else Some(def.agent))
          && b.verifier == Verifier(b.workspaces, b.tracker)
        else
          b.workspaces == prev.value.workspaces && b.verifier == prev.value.verifier)
    && (if RebuildsRunner(def, prev, changed) then
          && b.runner == Runner(from + 2, def.substrate.remote, def.agent, b.workspaces)
          && (def.substrate.remote ==> b.workspaces.remote)
        else
          b.runner == prev.value.runner)
  }

  /** The stages a build goes through, in order. */
  function StagesOf(def: Content, prev: Option<Bundle>, changed: Change): seq<Stage> {
    [Structural, Sources]
    + (if def.substrate.remote then [Backend] else [])
    + (if RebuildsTracker(prev, changed) then [TrackerReady] else [])
    + (if !RebuildsWorkspace(def, prev, changed) then []
       else if def.substrate.remote then [WorkspaceReady] else [WriteScope, WorkspaceReady])
    + (if RebuildsRunner(def, prev, changed) then [RunnerReady] else [])
    + (if def.substrate.remote then [Survey] else [])
    + [Review]
  }

  /** A remote runner is refused over a local workspace strategy. */
  predicate Mixes(def: Content, prev: Option<Bundle>, changed: Change) {
    && def.substrate.remote && RebuildsRunner(def, prev, changed)
    && !RebuildsWorkspace(def, prev, changed) && !prev.value.workspaces.remote
  }

  predicate Buildable(def: Content, prev: Option<Bundle>, changed: Change, refused: set<Stage>) {
    !Mixes(def, prev, changed) && forall stage | stage in StagesOf(def, prev, changed) :: stage !in refused
  }

  class Builder {
    var minted: nat

    constructor ()
      ensures minted == 0
    {
      minted := 0;
    }

    method Build(def: Content, prev: Option<Bundle>, changed: Change, refused: set<Stage>)
        returns (r: Result<Bundle, Stage>)
      modifies this
      ensures minted == old(minted) + 3
      ensures r.Ok? ==> Assembled(def, prev, changed, old(minted), r.value)
      ensures r.Ok? <==> Buildable(def, prev, changed, refused)
      ensures r.Err? ==> r.error in StagesOf(def, prev, changed) && (r.error in refused || Mixes(def, prev, changed))
    {
      var id := minted;
      minted := minted + 3;
      if Structural in refused { return Err(Structural); }
      if Sources in refused { return Err(Sources); }
      var remote := def.substrate.remote;
      if remote && Backend in refused { return Err(Backend); }

      var rebuildTracker := changed.tracker || prev.None?;
      var rebuildWorkspace := rebuildTracker || changed.workspace || (changed.agent && !remote);
      var rebuildRunner := changed.agent || rebuildWorkspace || prev.None?;

      var tracker, workspaces, verifier, runner := None, None, None, None;
      if !rebuildTracker {
        tracker := Some(prev.value.tracker);
      }
      if !rebuildWorkspace {
        workspaces, verifier := Some(prev.value.workspaces), Some(prev.value.verifier);
      }
      if !rebuildRunner {
        runner := Some(prev.value.runner);
      }

      if rebuildTracker {
        if TrackerReady in refused { return Err(TrackerReady); }
        tracker := Some(Tracker(id, def.tracker));
      }
      if rebuildWorkspace {
        if remote {
          if WorkspaceReady in refused { return Err(WorkspaceReady); }
          workspaces := Some(Workspaces(id + 1, true, tracker.value, def.workspace, None));
        } else {
          if WriteScope in refused { return Err(WriteScope); }
          if WorkspaceReady in refused { return Err(WorkspaceReady); }
          workspaces := Some(Workspaces(id + 1, false, tracker.value, def.workspace, Some(def.agent)));
        }
        verifier := Some(Verifier(workspaces.value, tracker.value));
      }
      if rebuildRunner {
        if remote && !workspaces.value.remote { return Err(RunnerReady); }
        if RunnerReady in refused { return Err(RunnerReady); }
        runner := Some(Runner(id + 2, remote, def.agent, workspaces.value));
      }
      if remote && Survey in refused { return Err(Survey); }
      if Review in refused { return Err(Review); }
      r := Ok(Bundle(tracker.value, workspaces.value, verifier.value, runner.value));
    }
  }

  /** The one set an assembly can be. */
  function Assemble(def: Content, prev: Option<Bundle>, changed: Change, from: nat): (b: Bundle)
    requires !Mixes(def, prev, changed)
    ensures Assembled(def, prev, changed, from, b)
    ensures forall other | Assembled(def, prev, changed, from, other) :: other == b
  {
    var tracker := if RebuildsTracker(prev, changed) then Tracker(from, def.tracker) else prev.value.tracker;
    var anew := RebuildsWorkspace(def, prev, changed);
    var workspaces :=
      if anew then
        Workspaces(from + 1, def.substrate.remote, tracker, def.workspace, if def.substrate.remote then None else Some(def.agent))
      else prev.value.workspaces;
    var verifier := if anew then Verifier(workspaces, tracker) else prev.value.verifier;
    var runner :=
      if RebuildsRunner(def, prev, changed) then Runner(from + 2, def.substrate.remote, def.agent, workspaces)
      else prev.value.runner;
    Bundle(tracker, workspaces, verifier, runner)
  }

  // ---- coherence ----

  lemma FirstBuildIsCoherent(def: Content, from: nat, b: Bundle)
    requires Assembled(def, None, EVERYTHING, from, b)
    ensures Coherent(b, def)
  {
  }

  /**
  A set assembled over a coherent one is coherent exactly when the two definitions run on
  the same side or the workspace strategy was rebuilt.
  */
  lemma RebuildIsCoherent(c: Content, prev: Bundle, def: Content, from: nat, b: Bundle)
    requires Coherent(prev, c) && Assembled(def, Some(prev), AdapterChange(c, def), from, b)
    ensures Coherent(b, def)
      <==> c.substrate.remote == def.substrate.remote || RebuildsWorkspace(def, Some(prev), AdapterChange(c, def))
  {
  }

  /** A set carried unchanged stays coherent exactly when the side does. */
  lemma CarryIsCoherent(c: Content, prev: Bundle, def: Content)
    requires Coherent(prev, c) && !AdapterChange(c, def).Any()
    ensures Coherent(prev, def) <==> c.substrate.remote == def.substrate.remote
  {
  }
}
