/**
What a report lists: the cells, cases and runs named in it, on the runs of the manifest
and the records they claim, each list in its order.
*/
module BenchCoverage {
  import opened BenchTally
  import opened CellOrder
  import opened BenchManifest
  import opened BenchCompare
  import opened BenchReport
  import opened BenchMeaning

  /** Some record is claimed by the cell's run of the case. */
  ghost predicate Ran(runs: seq<Run>, logs: seq<Log>, cell: Cell, id: string) {
    exists r, a :: RunOf(runs, cell, id, r) && Claims(logs, r, a)
  }

  lemma BackedIsRan(runs: seq<Run>, logs: Logs, cell: Cell, id: string)
    ensures Backed(runs, JoinedAll(logs, runs), (cell, id)) <==> Ran(runs, logs, cell, id)
  {
    hide Joined, Claims;
    if Backed(runs, JoinedAll(logs, runs), (cell, id)) {
      var i :| 0 <= i < |runs| && SlotOf(runs[i]) == (cell, id) && JoinedAll(logs, runs)[i] != [];
      var a := Joined(logs, runs[i])[0];
      assert a in Joined(logs, runs[i]);
      JoinedAreClaimed(logs, runs[i], a);
      assert RunOf(runs, cell, id, runs[i]);
    }
    if r, a :| RunOf(runs, cell, id, r) && Claims(logs, r, a) {
      JoinedAreClaimed(logs, r, a);
      var i :| 0 <= i < |runs| && runs[i] == r;
      assert JoinedAll(logs, runs)[i] != [];
    }
  }

  /** A record is joined to a run once for every time it stands in the run's directory. */
  lemma ClaimedTimes(logs: Logs, l: Log, r: Run, a: Attempt)
    requires l in logs && l.dir == r.stateDir
    ensures multiset(Joined(logs, r))[a] == if a.issue == r.issue then multiset(l.attempts)[a] else 0
  {
    RecordsAre(logs, l);
    CountOfIssue(l.attempts, r.issue, a);
  }

  // ---- lists in their order ----

  lemma IncreasingSnoc(s: seq<Cell>, c: Cell)
    requires Increasing(s) && forall x | x in s :: CellBefore(x, c)
    ensures Increasing(s + [c])
  {
    hide CellBefore;
    assert forall i | 0 <= i < |s| :: s[i] in s;
  }

  lemma {:induction false} BackedCells(cells: seq<Cell>, runs: seq<Run>, done: seq<seq<Attempt>>, id: string)
    requires Increasing(cells)
    ensures Increasing(CellsBacked(cells, runs, done, id))
    ensures forall x :: x in CellsBacked(cells, runs, done, id) <==> x in cells && Backed(runs, done, (x, id))
  {
    hide CellBefore, Backed;
    if cells != [] {
      var front, last := cells[..|cells| - 1], cells[|cells| - 1];
      assert cells == front + [last];
      BackedCells(front, runs, done, id);
      IncreasingSnoc(CellsBacked(front, runs, done, id), last);
    }
  }

  lemma {:induction false} UndispatchedCells(cells: seq<Cell>, runs: seq<Run>)
    requires Increasing(cells)
    ensures Increasing(Undispatched(cells, runs))
    ensures forall x :: x in Undispatched(cells, runs) <==> x in cells && forall r | r in runs :: r.cell != x
  {
    hide CellBefore;
    if cells != [] {
      var front, last := cells[..|cells| - 1], cells[|cells| - 1];
      assert cells == front + [last];
      UndispatchedCells(front, runs);
      IncreasingSnoc(Undispatched(front, runs), last);
    }
  }

  predicate Ascending(s: seq<nat>) {
    forall i, j | 0 <= i < j < |s| :: s[i] < s[j]
  }

  lemma AscendingSnoc(s: seq<nat>, n: nat)
    requires Ascending(s) && forall x | x in s :: x < n
    ensures Ascending(s + [n])
  {
    assert forall i | 0 <= i < |s| :: s[i] in s;
  }

  lemma {:induction false} UnbackedRuns(done: seq<seq<Attempt>>)
    ensures Ascending(Unbacked(done))
    ensures forall i: nat :: i in Unbacked(done) <==> i < |done| && done[i] == []
  {
    if done != [] {
      var n := |done| - 1;
      UnbackedRuns(done[..n]);
      AscendingSnoc(Unbacked(done[..n]), n);
    }
  }

  predicate PickedFrom(cases: seq<Case>, picks: seq<nat>, ids: seq<string>) {
    |ids| == |picks| && forall j | 0 <= j < |picks| :: picks[j] < |cases| && ids[j] == cases[picks[j]].id
  }

  lemma PickedSnoc(cases: seq<Case>, picks: seq<nat>, ids: seq<string>, n: nat)
    requires n < |cases| && PickedFrom(cases[..n], picks, ids) && Ascending(picks)
    ensures PickedFrom(cases, picks, ids) && PickedFrom(cases, picks + [n], ids + [cases[n].id]) && Ascending(picks + [n])
  {
    AscendingSnoc(picks, n);
  }

  /** The matched cases are picked from the cohort in its own order. */
  lemma {:induction false} MatchedPicks(cases: seq<Case>, cells: seq<Cell>, runs: seq<Run>, done: seq<seq<Attempt>>)
      returns (picks: seq<nat>)
    ensures Ascending(picks) && forall i: nat :: i in picks <==> i < |cases| && Matched(cells, runs, done, cases[i].id)
    ensures PickedFrom(cases, picks, MatchedIds(cases, cells, runs, done))
  {
    hide Matched, Ascending, PickedFrom;
    if cases == [] {
      picks := [];
      NonePicked(cases);
    } else {
      var n := |cases| - 1;
      picks := MatchedPicks(cases[..n], cells, runs, done);
      PickedSnoc(cases, picks, MatchedIds(cases[..n], cells, runs, done), n);
      if Matched(cells, runs, done, cases[n].id) {
        picks := picks + [n];
      } else {
        assert MatchedIds(cases, cells, runs, done) == MatchedIds(cases[..n], cells, runs, done);
      }
    }
  }

  lemma NonePicked(cases: seq<Case>)
    ensures Ascending([]) && PickedFrom(cases, [], [])
  {
  }

  // ---- the report ----

  lemma CellsListed(m: Manifest)
    requires Valid(m)
    ensures Increasing(Sorted(m.cells)) && forall x :: x in Sorted(m.cells) <==> x in m.cells
  {
    hide FieldsOk, Blank, RunsApart, CellBefore;
    SortedIncreasing(m.cells);
  }

  /** A case is covered by exactly the declared cells that ran it, and matched when every declared cell did. */
  lemma CoverageMeans(c: Cohort, m: Manifest, logs: Logs, rep: Report, k: nat)
    requires Valid(m) && Reports(c, m, logs, rep) && k < |c.cases|
    ensures |rep.coverage| == |c.cases| && rep.coverage[k].caseId == c.cases[k].id
    ensures
      var cov, id := rep.coverage[k], c.cases[k].id;
      && Increasing(cov.cells) && (forall x :: x in cov.cells <==> x in m.cells && Ran(m.runs, logs, x, id))
      && (cov.matched <==> forall x | x in m.cells :: Ran(m.runs, logs, x, id))
  {
    var done, cells, id := JoinedAll(logs, m.runs), Sorted(m.cells), c.cases[k].id;
    assert CoverageOf(rep.coverage[k], id, cells, m.runs, done);
    CellsListed(m);
    BackedCells(cells, m.runs, done, id);
    hide Valid, Reports, CellsBacked, JoinedAll, Sorted, Backed, Ran, Increasing;
    forall x {
      BackedIsRan(m.runs, logs, x, id);
    }
  }

  /** The report names the declared cells, those without a run and the runs without a record, each in order. */
  lemma MissingMeans(c: Cohort, m: Manifest, logs: Logs, rep: Report)
    requires Valid(m) && Reports(c, m, logs, rep)
    ensures Increasing(rep.expectedCells) && forall x :: x in rep.expectedCells <==> x in m.cells
    ensures Increasing(rep.cellsWithoutRuns)
    ensures forall x :: x in rep.cellsWithoutRuns <==> x in m.cells && forall r | r in m.runs :: r.cell != x
    ensures Ascending(rep.runsWithoutAttempts)
    ensures forall i: nat :: i in rep.runsWithoutAttempts <==> i < |m.runs| && forall a :: !Claims(logs, m.runs[i], a)
  {
    hide *;
    Lists(c, m, logs, rep);
    CellsListed(m);
    UndispatchedCells(Sorted(m.cells), m.runs);
    UnbackedRuns(JoinedAll(logs, m.runs));
    forall i: nat | i < |m.runs| {
      NoneClaimed(m.runs, logs, i);
    }
    JoinedSize(logs, m.runs);
  }

  lemma Lists(c: Cohort, m: Manifest, logs: seq<Log>, rep: Report)
    requires Reports(c, m, logs, rep)
    ensures rep.expectedCells == Sorted(m.cells) && rep.cellsWithoutRuns == Undispatched(Sorted(m.cells), m.runs)
    ensures rep.runsWithoutAttempts == Unbacked(JoinedAll(logs, m.runs))
  {
  }

  lemma NoneClaimed(runs: seq<Run>, logs: Logs, i: nat)
    requires i < |runs|
    ensures |JoinedAll(logs, runs)| == |runs|
    ensures JoinedAll(logs, runs)[i] == [] <==> forall a :: !Claims(logs, runs[i], a)
  {
    hide Joined, Claims;
    forall a {
      JoinedAreClaimed(logs, runs[i], a);
    }
    assert Joined(logs, runs[i]) == [] || Joined(logs, runs[i])[0] in Joined(logs, runs[i]);
  }

  /** The matched cases are those every declared cell ran, in the cohort's order. */
  lemma MatchedMeans(c: Cohort, m: Manifest, logs: Logs, rep: Report) returns (picks: seq<nat>)
    requires Valid(m) && Reports(c, m, logs, rep)
    ensures Ascending(picks) && PickedFrom(c.cases, picks, rep.matched)
    ensures forall i: nat :: i in picks <==> i < |c.cases| && forall x | x in m.cells :: Ran(m.runs, logs, x, c.cases[i].id)
  {
    var done, cells := JoinedAll(logs, m.runs), Sorted(m.cells);
    CellsListed(m);
    picks := MatchedPicks(c.cases, cells, m.runs, done);
    hide Valid, Sorted, Increasing, Ascending, RowsAre, CoverageOf, MatchedIds, Total, TotalRead, JoinedAll, Undispatched, Unbacked,
         Backed, Ran;
    forall i: nat, x | i < |c.cases| {
      BackedIsRan(m.runs, logs, x, c.cases[i].id);
    }
  }

  function Sizes(logs: seq<Log>): seq<int> {
    seq(|logs|, i requires 0 <= i < |logs| => |logs[i].attempts|)
  }

  function Lengths(parts: seq<seq<Attempt>>): seq<int> {
    seq(|parts|, i requires 0 <= i < |parts| => |parts[i]|)
  }

  lemma {:induction false} ReadIsSum(logs: seq<Log>)
    ensures TotalRead(logs) == Sum(Sizes(logs))
  {
    if logs != [] {
      ReadIsSum(logs[..|logs| - 1]);
      assert Sizes(logs) == Sizes(logs[..|logs| - 1]) + [|logs[|logs| - 1].attempts|];
      SumOf(Sizes(logs[..|logs| - 1]), |logs[|logs| - 1].attempts|);
    }
  }

  lemma {:induction false} TotalIsSum(parts: seq<seq<Attempt>>)
    ensures Total(parts) == Sum(Lengths(parts))
  {
    if parts != [] {
      TotalIsSum(parts[..|parts| - 1]);
      assert Lengths(parts) == Lengths(parts[..|parts| - 1]) + [|parts[|parts| - 1]|];
      SumOf(Lengths(parts[..|parts| - 1]), |parts[|parts| - 1]|);
    }
  }

  /** Every record of every log was read; those joined are the records the runs claim, and the rest are unjoined. */
  lemma RecordsAreCounted(c: Cohort, m: Manifest, logs: Logs, rep: Report)
    requires Reports(c, m, logs, rep)
    ensures rep.read == Sum(Sizes(logs)) && rep.read == rep.joined + rep.unjoined
    ensures rep.joined == Sum(seq(|m.runs|, i requires 0 <= i < |m.runs| => |Joined(logs, m.runs[i])|))
  {
    ReadIsSum(logs);
    TotalIsSum(JoinedAll(logs, m.runs));
    assert Lengths(JoinedAll(logs, m.runs)) == seq(|m.runs|, i requires 0 <= i < |m.runs| => |Joined(logs, m.runs[i])|);
  }
}
