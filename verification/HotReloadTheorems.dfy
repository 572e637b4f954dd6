/**
What holds over every history of reloads of a daemon, from the set its startup built.
*/
module HotReloadTheorems {
  import opened Outcomes
  import opened Assembly
  import opened HotReload

  /** Startup builds everything for the loaded definition and publishes it. */
  ghost predicate Starts(s: State) {
    exists def, from: nat :: s == Started(def, Assemble(def, None, EVERYTHING, from), from + 3)
  }

  lemma StartIsOk(s: State)
    requires Starts(s)
    ensures Inv(s)
  {
    var def, from: nat :| s == Started(def, Assemble(def, None, EVERYTHING, from), from + 3);
    FirstBuildIsCoherent(def, from, s.cell.snap.runtime);
  }

  /** The states of a history: the starting state, then one per attempt. */
  ghost predicate History(tr: seq<State>, attempts: seq<Attempt>) {
    && |tr| == |attempts| + 1
    && Starts(tr[0])
    && forall i | 0 <= i < |attempts| :: tr[i + 1] == Applied(tr[i], attempts[i])
  }

  predicate Inv(s: State) {
    && Coherent(s.cell.snap.runtime, s.Content())
    && s.cell.snap.definition.serial < s.serials
    && (s.deferred.Some? ==>
          s.Blocked().Some? && s.deferred.value.content != s.Content() && s.deferred.value.fault == WorkOutstanding)
    && s.cell.snap.runtime.tracker.id < s.minted && s.cell.snap.runtime.workspaces.id < s.minted
    && s.cell.snap.runtime.runner.id < s.minted
    && (forall c :: c in s.cell.closed ==> c < s.cell.wake)
    && s.cell.snap.revision == s.cell.wake + 1
  }

  lemma StepCoherent(s: State, a: Attempt)
    requires Inv(s)
    ensures Coherent(Applied(s, a).cell.snap.runtime, Applied(s, a).Content())
  {
    if Conclude(s, a).Adopt? {
      var next, prev := a.loaded.value, s.cell.snap.runtime;
      if AdapterChange(s.Content(), next).Any() {
        RebuildIsCoherent(s.Content(), prev, next, s.minted, Conclude(s, a).runtime);
      } else {
        CarryIsCoherent(s.Content(), prev, next);
      }
    }
  }

  /** Every adapter in force was minted before now. */
  lemma StepMints(s: State, a: Attempt)
    requires Inv(s)
    ensures
      var t := Applied(s, a);
      && t.cell.snap.runtime.tracker.id < t.minted && t.cell.snap.runtime.workspaces.id < t.minted
      && t.cell.snap.runtime.runner.id < t.minted
  {
    hide Coherent;
  }

  lemma StepKeeps(s: State, a: Attempt)
    requires Inv(s)
    ensures Inv(Applied(s, a))
  {
    StepCoherent(s, a);
    StepMints(s, a);
    hide Coherent, Assemble, Buildable;
  }

  lemma {:induction false} HistoryKeeps(tr: seq<State>, attempts: seq<Attempt>, i: nat)
    requires History(tr, attempts) && i < |tr|
    ensures Inv(tr[i])
  {
    if i == 0 {
      StartIsOk(tr[0]);
    } else {
      HistoryKeeps(tr, attempts, i - 1);
      StepKeeps(tr[i - 1], attempts[i - 1]);
    }
  }

  // ---- what a reload decides ----

  /** Dispatch is open exactly when the file loaded and is the definition in force. */
  lemma OpenExactlyWhenInForce(tr: seq<State>, attempts: seq<Attempt>, i: nat)
    requires History(tr, attempts) && i < |attempts|
    ensures tr[i + 1].Blocked().None? <==> attempts[i].loaded == Some(tr[i + 1].Content())
  {
    HistoryKeeps(tr, attempts, i);
  }

  /** A refused candidate stays refused, is not in force, and is not rebuilt until the caller is quiescent. */
  lemma DeferralStands(tr: seq<State>, attempts: seq<Attempt>, i: nat)
    requires History(tr, attempts) && i < |tr| && tr[i].deferred.Some?
    ensures tr[i].Blocked().Some? && tr[i].deferred.value.content != tr[i].Content()
    ensures i < |attempts| && attempts[i].loaded == Some(tr[i].deferred.value.content) && !attempts[i].quiescent ==>
      && tr[i + 1].builds == tr[i].builds && tr[i + 1].minted == tr[i].minted
      && tr[i + 1].deferred == tr[i].deferred
      && tr[i + 1].cell.snap.definition == tr[i].cell.snap.definition
      && tr[i + 1].cell.snap.runtime == tr[i].cell.snap.runtime
      && tr[i + 1].cell.snap.revision == tr[i].cell.snap.revision
  {
    HistoryKeeps(tr, attempts, i);
  }

  /** What is in force changes only by a reload the barrier let through, and then to the file. */
  lemma OnlyTheBarrierAdopts(tr: seq<State>, attempts: seq<Attempt>, i: nat)
    requires History(tr, attempts) && i < |attempts| && tr[i + 1].Content() != tr[i].Content()
    ensures attempts[i].barrier.Runs? && attempts[i].loaded == Some(tr[i + 1].Content())
    ensures tr[i + 1].Blocked().None? && tr[i + 1].deferred.None?
  {
    HistoryKeeps(tr, attempts, i);
  }

  /** Deployment, substrate and review are those of startup. */
  lemma {:induction false} LifetimeNeverMoves(tr: seq<State>, attempts: seq<Attempt>, i: nat)
    requires History(tr, attempts) && i < |tr|
    ensures Lifetime(tr[0].Content(), tr[i].Content()).None?
  {
    if i > 0 {
      LifetimeNeverMoves(tr, attempts, i - 1);
      assert tr[i] == Applied(tr[i - 1], attempts[i - 1]);
    }
  }

  /** Every published set is coherent with the definition it is published beside. */
  lemma EverySnapshotIsCoherent(tr: seq<State>, attempts: seq<Attempt>, i: nat)
    requires History(tr, attempts) && i < |tr|
    ensures Coherent(tr[i].cell.snap.runtime, tr[i].Content())
  {
    HistoryKeeps(tr, attempts, i);
  }

  // ---- what becomes of a file, on the file's own fields ----

  predicate SameLegs(x: Content, y: Content) {
    x.tracker == y.tracker && x.agent == y.agent && x.workspace == y.workspace
  }

  /** The workspace strategy is bound to the tracker, its own section and, on this host, the agent's write roots. */
  predicate WorkspaceMoves(current: Content, next: Content) {
    next.tracker != current.tracker || next.workspace != current.workspace || (next.agent != current.agent && !next.substrate.remote)
  }

  /** No stage that rebuilding for this change goes through is refused. */
  predicate NothingRefused(current: Content, next: Content, refused: set<Stage>) {
    && Structural !in refused && Sources !in refused && RunnerReady !in refused && Stage.Review !in refused
    && (next.substrate.remote ==> Backend !in refused && Survey !in refused)
    && (next.tracker != current.tracker ==> TrackerReady !in refused)
    && (WorkspaceMoves(current, next) ==> WorkspaceReady !in refused && (next.substrate.remote || WriteScope !in refused))
  }

  /** A new file the watcher may offer to the barrier. */
  predicate Offerable(s: State, a: Attempt, next: Content) {
    var current := s.cell.snap.definition.content;
    && next.deployment == current.deployment && next.substrate == current.substrate && next.review == current.review
    && !(s.deferred.Some? && s.deferred.value.content == next && !a.quiescent)
    && (SameLegs(current, next) || NothingRefused(current, next, a.refused))
  }

  lemma BuildableIs(s: State, a: Attempt, next: Content)
    requires Inv(s) && next.substrate == s.Content().substrate && !SameLegs(s.Content(), next)
    ensures Buildable(next, Some(s.cell.snap.runtime), AdapterChange(s.Content(), next), a.refused)
      <==> NothingRefused(s.Content(), next, a.refused)
  {
  }

  /** A new file is adopted, and dispatch open, exactly when it moves no lifetime declaration, is not standing deferred, can be built and is let through. */
  lemma AdoptedExactlyWhen(tr: seq<State>, attempts: seq<Attempt>, i: nat, next: Content)
    requires History(tr, attempts) && i < |attempts| && attempts[i].loaded == Some(next) && next != tr[i].Content()
    ensures tr[i + 1].Content() == next && tr[i + 1].Blocked().None? <==> Offerable(tr[i], attempts[i], next) && attempts[i].barrier.Runs?
  {
    HistoryKeeps(tr, attempts, i);
    var s, a := tr[i], attempts[i];
    if next.substrate == s.Content().substrate && !SameLegs(s.Content(), next) {
      BuildableIs(s, a, next);
    }
    hide Coherent, Assemble, Buildable, NothingRefused;
  }

  /** A file that is not adopted blocks dispatch over what stood, with the reason. */
  lemma BlockedFor(tr: seq<State>, attempts: seq<Attempt>, i: nat, next: Content)
    requires History(tr, attempts) && i < |attempts| && attempts[i].loaded == Some(next) && next != tr[i].Content()
    requires !(Offerable(tr[i], attempts[i], next) && attempts[i].barrier.Runs?)
    ensures
      var s, t, a := tr[i], tr[i + 1], attempts[i];
      var current := s.Content();
      && t.cell.snap.definition == s.cell.snap.definition && t.cell.snap.runtime == s.cell.snap.runtime
      && t.Blocked() == Some(
           if s.deferred.Some? && s.deferred.value.content == next && !a.quiescent then WorkOutstanding
           else if next.deployment != current.deployment then DeploymentChanged
           else if next.substrate != current.substrate then SubstrateChanged
           else if next.review != current.review then ReviewChanged
           else if !SameLegs(current, next) && !NothingRefused(current, next, a.refused) then BuildRefused
           else if a.barrier.Outstanding? then WorkOutstanding
           else BarrierRefused)
  {
    HistoryKeeps(tr, attempts, i);
    var s, a := tr[i], attempts[i];
    if next.substrate == s.Content().substrate && !SameLegs(s.Content(), next) {
      BuildableIs(s, a, next);
    }
    hide Coherent, Assemble, Buildable, NothingRefused;
  }

  /** An adopted file keeps every adapter none of whose bindings moved, and replaces every other. */
  lemma OnlyWhatMovedIsRebuilt(tr: seq<State>, attempts: seq<Attempt>, i: nat, next: Content)
    requires History(tr, attempts) && i < |attempts| && attempts[i].loaded == Some(next) && next != tr[i].Content()
    requires tr[i + 1].Content() == next
    ensures
      var was, now, current := tr[i].cell.snap.runtime, tr[i + 1].cell.snap.runtime, tr[i].Content();
      && (now == was <==> SameLegs(current, next))
      && (now.tracker == was.tracker <==> next.tracker == current.tracker)
      && (now.workspaces == was.workspaces <==> !WorkspaceMoves(current, next))
      && (now.verifier == was.verifier <==> !WorkspaceMoves(current, next))
      && (now.runner == was.runner <==> SameLegs(current, next))
  {
    HistoryKeeps(tr, attempts, i);
    var s, a := tr[i], attempts[i];
    if next.substrate == s.Content().substrate && !SameLegs(s.Content(), next) {
      BuildableIs(s, a, next);
    }
    hide Buildable, NothingRefused;
  }

  /** A file that does not load blocks; the file in force lifts any block and any deferral. */
  lemma NothingNewIsAdopted(tr: seq<State>, attempts: seq<Attempt>, i: nat)
    requires History(tr, attempts) && i < |attempts| && (attempts[i].loaded.None? || attempts[i].loaded == Some(tr[i].Content()))
    ensures
      var s, t := tr[i], tr[i + 1];
      && t.cell.snap.definition == s.cell.snap.definition && t.cell.snap.runtime == s.cell.snap.runtime && t.builds == s.builds
      && (attempts[i].loaded.None? ==> t.Blocked() == Some(LoadFailed) && t.deferred == s.deferred)
      && (attempts[i].loaded.Some? ==> t.Blocked().None? && t.deferred.None?)
  {
    HistoryKeeps(tr, attempts, i);
    hide Coherent, Assemble, Buildable;
  }

  /** A candidate is remembered exactly when only outstanding work held it back, and a build is started exactly for a new adoptable one that moves an adapter. */
  lemma DeferredExactlyWhen(tr: seq<State>, attempts: seq<Attempt>, i: nat, next: Content)
    requires History(tr, attempts) && i < |attempts| && attempts[i].loaded == Some(next) && next != tr[i].Content()
    ensures
      var s, t, a := tr[i], tr[i + 1], attempts[i];
      var current := s.Content();
      && (t.deferred ==
           if !Offerable(s, a, next) || a.barrier.Refuses? then s.deferred
           else if a.barrier.Outstanding? then Some(Deferral(next, WorkOutstanding))
           else None)
      && (t.builds == s.builds + 1 <==>
           && next.deployment == current.deployment && next.substrate == current.substrate && next.review == current.review
           && !(s.deferred.Some? && s.deferred.value.content == next && !a.quiescent) && !SameLegs(current, next))
      && s.builds <= t.builds <= s.builds + 1
  {
    HistoryKeeps(tr, attempts, i);
    var s, a := tr[i], attempts[i];
    if next.substrate == s.Content().substrate && !SameLegs(s.Content(), next) {
      BuildableIs(s, a, next);
    }
    hide Coherent, Assemble, Buildable, NothingRefused;
  }

  // ---- what a reader is told ----

  /** What a reader may rely on between two states. */
  predicate Told(s: State, t: State) {
    && s.cell.snap.revision <= t.cell.snap.revision
    && s.cell.wake <= t.cell.wake && s.cell.closed <= t.cell.closed
    && (s.cell.snap.revision == t.cell.snap.revision ==>
          && s.cell.snap.definition == t.cell.snap.definition
          && s.cell.snap.runtime == t.cell.snap.runtime
          && s.Blocked().Some? == t.Blocked().Some?
          && s.cell.wake == t.cell.wake)
    && (s.cell.snap.revision < t.cell.snap.revision ==> s.cell.wake in t.cell.closed)
  }

  /** A revision counts the changes of content or of blockedness, and nothing else. */
  lemma RevisionCountsChanges(tr: seq<State>, attempts: seq<Attempt>, i: nat)
    requires History(tr, attempts) && i < |attempts|
    ensures
      var moved := tr[i].Content() != tr[i + 1].Content() || tr[i].Blocked().Some? != tr[i + 1].Blocked().Some?;
      tr[i + 1].cell.snap.revision == tr[i].cell.snap.revision + (if moved then 1 else 0)
  {
    HistoryKeeps(tr, attempts, i);
  }

  lemma StepTells(s: State, a: Attempt)
    requires Inv(s)
    ensures Told(s, Applied(s, a))
  {
    hide Coherent, Assemble, Buildable;
  }

  lemma {:induction false} ReadersAreTold(tr: seq<State>, attempts: seq<Attempt>, i: nat, j: nat)
    requires History(tr, attempts) && i <= j < |tr|
    ensures Told(tr[i], tr[j])
    ensures tr[i].cell.wake in tr[j].cell.closed <==> tr[i].cell.snap.revision < tr[j].cell.snap.revision
  {
    HistoryKeeps(tr, attempts, j);
    if i < j {
      ReadersAreTold(tr, attempts, i, j - 1);
      HistoryKeeps(tr, attempts, j - 1);
      StepTells(tr[j - 1], attempts[j - 1]);
    }
  }
}
