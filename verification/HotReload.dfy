/**
The reload transaction of a watched workflow file and the one cell its result is
published through: what is in force, what is blocked, and what a reader is told
when it moves, over every history of reloads.
*/
module HotReload {
  import opened Outcomes
  import opened Assembly

  /** A loaded definition. Two loads never share a serial, so equal serials are one object. */
  datatype Definition = Definition(serial: nat, content: Content)

  datatype Fault = LoadFailed | BuildRefused | DeploymentChanged | SubstrateChanged | ReviewChanged | WorkOutstanding | BarrierRefused

  datatype Snapshot = Snapshot(definition: Definition, runtime: Bundle, blocked: Option<Fault>, revision: nat)

  // ---- the published cell ----

  /** A transition: another definition, or a change in whether dispatch is blocked. */
  predicate Moves(was: Snapshot, def: Definition, blocked: Option<Fault>) {
    def.serial != was.definition.serial || blocked.Some? != was.blocked.Some?
  }

  /** A cell: what is in force, the channel readers wait on, and the channels closed so far. */
  datatype Cell = Cell(snap: Snapshot, wake: nat, closed: set<nat>)

  function Stored(s: Cell, def: Definition, runtime: Bundle, blocked: Option<Fault>): Cell {
    if Moves(s.snap, def, blocked) then
      Cell(Snapshot(def, runtime, blocked, s.snap.revision + 1), s.wake + 1, s.closed + {s.wake})
    else
      Cell(Snapshot(def, runtime, blocked, s.snap.revision), s.wake, s.closed)
  }

  class RuntimeSource {
    var snap: Snapshot
    var wake: nat
    var closed: set<nat>

    function Contents(): Cell
      reads this
    {
      Cell(snap, wake, closed)
    }

    constructor (def: Definition, runtime: Bundle)
      ensures Contents() == Cell(Snapshot(def, runtime, None, 1), 0, {})
    {
      snap := Snapshot(def, runtime, None, 1);
      wake := 0;
      closed := {};
    }

    method Load() returns (s: Snapshot, w: nat)
      ensures s == snap && w == wake
    {
      s, w := snap, wake;
    }

    method Store(def: Definition, runtime: Bundle, blocked: Option<Fault>) returns (next: Snapshot)
      modifies this
      ensures Contents() == Stored(old(Contents()), def, runtime, blocked) && next == snap
    {
      next := Snapshot(def, runtime, blocked, snap.revision);
      if def.serial == snap.definition.serial && blocked.None? == snap.blocked.None? {
        snap := next;
        return;
      }
      next := next.(revision := next.revision + 1);
      snap := next;
      closed := closed + {wake};
      wake := wake + 1;
    }
  }

  // ---- one reload ----

  /** How the caller's barrier answers; it runs the commit exactly when it answers `Runs`. */
  datatype Verdict = Runs | Outstanding | Refuses

  /** What one attempt meets: the file, the caller's quiescence, the refusing build stages, the barrier. */
  datatype Attempt = Attempt(loaded: Option<Content>, quiescent: bool, refused: set<Stage>, barrier: Verdict)

  datatype Deferral = Deferral(content: Content, fault: Fault)

  datatype Outcome = Unchanged | Adopt(def: Definition, runtime: Bundle) | Fail(fault: Fault)

  /** `serials` and `minted` supply new objects; `builds` counts the builds started. */
  datatype State = State(cell: Cell, deferred: Option<Deferral>, serials: nat, minted: nat, builds: nat) {
    function Content(): Content { cell.snap.definition.content }
    function Blocked(): Option<Fault> { cell.snap.blocked }
  }

  /** The process-lifetime declarations a reload may not move. */
  function Lifetime(current: Content, next: Content): Option<Fault> {
    if current.deployment != next.deployment then Some(DeploymentChanged)
    else if current.substrate != next.substrate then Some(SubstrateChanged)
    else if current.review != next.review then Some(ReviewChanged)
    else None
  }

  predicate Deferred(s: State, a: Attempt) {
    s.deferred.Some? && a.loaded == Some(s.deferred.value.content) && !a.quiescent
  }

  /** A build is started exactly for a new, undeferred, adoptable file that moves an adapter. */
  predicate Builds(s: State, a: Attempt) {
    && a.loaded.Some? && a.loaded.value != s.Content() && !Deferred(s, a)
    && Lifetime(s.Content(), a.loaded.value).None? && AdapterChange(s.Content(), a.loaded.value).Any()
  }

  function Conclude(s: State, a: Attempt): Outcome {
    if a.loaded.None? then Fail(LoadFailed)
    else
      var next, changed := a.loaded.value, AdapterChange(s.Content(), a.loaded.value);
      var prev := Some(s.cell.snap.runtime);
      if next == s.Content() then Unchanged
      else if Deferred(s, a) then Fail(s.deferred.value.fault)
      else if Lifetime(s.Content(), next).Some? then Fail(Lifetime(s.Content(), next).value)
      else if !changed.Any() then Adopt(Definition(s.serials, next), s.cell.snap.runtime)
      else if Buildable(next, prev, changed, a.refused) then
        Adopt(Definition(s.serials, next), Assemble(next, prev, changed, s.minted))
      else Fail(BuildRefused)
  }

  /** A failure is published against the standing definition and adapters. */
  function Block(s: State, fault: Fault): State {
    s.(cell := Stored(s.cell, s.cell.snap.definition, s.cell.snap.runtime, Some(fault)))
  }

  function Applied(s: State, a: Attempt): State {
    var read := s.(
      serials := if a.loaded.Some? then s.serials + 1 else s.serials,
      minted := if Builds(s, a) then s.minted + 3 else s.minted,
      builds := if Builds(s, a) then s.builds + 1 else s.builds);
    match Conclude(s, a)
    case Unchanged =>
      if s.Blocked().None? then read
      else read.(deferred := None, cell := Stored(s.cell, s.cell.snap.definition, s.cell.snap.runtime, None))
    case Fail(fault) => Block(read, fault)
    case Adopt(def, runtime) =>
      match a.barrier
      case Runs => read.(deferred := None, cell := Stored(s.cell, def, runtime, None))
      case Outstanding => Block(read.(deferred := Some(Deferral(def.content, WorkOutstanding))), WorkOutstanding)
      case Refuses => Block(read, BarrierRefused)
  }

  class Watcher {
    const src: RuntimeSource
    const builder: Builder
    var deferred: Option<Deferral>
    var serials: nat
    var builds: nat

    constructor (def: Content, runtime: Bundle, builder: Builder)
      ensures Standing() == Started(def, runtime, builder.minted) && this.builder == builder && fresh(src)
    {
      this.src := new RuntimeSource(Definition(0, def), runtime);
      this.builder := builder;
      deferred := None;
      serials := 1;
      builds := 1;
    }

    function Standing(): State
      reads this, src, builder
    {
      State(src.Contents(), deferred, serials, builder.minted, builds)
    }

    /** Reads the file, decides what moved and rebuilds it. Publishes nothing. */
    method Transaction(a: Attempt, cur: Snapshot) returns (out: Outcome)
      requires cur == src.snap
      modifies this, builder
      ensures out == Conclude(old(Standing()), a)
      ensures deferred == old(deferred)
      ensures serials == (if a.loaded.Some? then old(serials) + 1 else old(serials))
      ensures builder.minted == (if Builds(old(Standing()), a) then old(builder.minted) + 3 else old(builder.minted))
      ensures builds == (if Builds(old(Standing()), a) then old(builds) + 1 else old(builds))
    {
      if a.loaded.None? {
        return Fail(LoadFailed);
      }
      var def := Definition(serials, a.loaded.value);
      serials := serials + 1;
      var current := cur.definition.content;
      var changed := AdapterChange(current, def.content);
      if !changed.Any() && current == def.content {
        return Unchanged;
      }
      if deferred.Some? && deferred.value.content == def.content && !a.quiescent {
        return Fail(deferred.value.fault);
      }
      if current.deployment != def.content.deployment {
        return Fail(DeploymentChanged);
      }
      if current.substrate != def.content.substrate {
        return Fail(SubstrateChanged);
      }
      if current.review != def.content.review {
        return Fail(ReviewChanged);
      }
      var runtime := cur.runtime;
      if changed.Any() {
        builds := builds + 1;
        var built := builder.Build(def.content, Some(cur.runtime), changed, a.refused);
        if built.Err? {
          return Fail(BuildRefused);
        }
        runtime := built.value;
      }
      out := Adopt(def, runtime);
    }

    method Commit(def: Definition, runtime: Bundle, barrier: Verdict) returns (refused: Option<Fault>)
      modifies src
      ensures barrier.Runs? ==> refused.None? && src.Contents() == Stored(old(src.Contents()), def, runtime, None)
      ensures !barrier.Runs? ==>
        refused == Some(if barrier.Outstanding? then WorkOutstanding else BarrierRefused) && src.Contents() == old(src.Contents())
    {
      match barrier
      case Runs =>
        var _ := src.Store(def, runtime, None);
        refused := None;
      case Outstanding => refused := Some(WorkOutstanding);
      case Refuses => refused := Some(BarrierRefused);
    }

    method ClearBlock(cur: Snapshot)
      requires cur == src.snap
      modifies this, src
      ensures serials == old(serials) && builds == old(builds)
      ensures cur.blocked.None? ==> deferred == old(deferred) && src.Contents() == old(src.Contents())
      ensures cur.blocked.Some? ==>
        deferred.None? && src.Contents() == Stored(old(src.Contents()), cur.definition, cur.runtime, None)
    {
      if cur.blocked.None? {
        return;
      }
      deferred := None;
      var _ := src.Store(cur.definition, cur.runtime, None);
    }

    method Apply(a: Attempt)
      modifies this, src, builder
      ensures Standing() == Applied(old(Standing()), a)
    {
      var cur, _ := src.Load();
      var out := Transaction(a, cur);
      if out.Unchanged? {
        ClearBlock(cur);
        return;
      }
      var fault := LoadFailed;
      if out.Adopt? {
        var refused := Commit(out.def, out.runtime, a.barrier);
        if refused.None? {
          deferred := None;
          return;
        }
        fault := refused.value;
        if fault.WorkOutstanding? {
          deferred := Some(Deferral(out.def.content, fault));
        }
      } else {
        fault := out.fault;
      }
      var _ := src.Store(cur.definition, cur.runtime, Some(fault));
    }
  }

  /** The state a daemon starts in: one build done, nothing blocked, revision one. */
  function Started(def: Content, runtime: Bundle, minted: nat): State {
    State(Cell(Snapshot(Definition(0, def), runtime, None, 1), 0, {}), None, 1, minted, 1)
  }
}
