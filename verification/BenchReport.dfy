/**
The whole comparison: which sessions are refused, which cases are matched, and what
the report's figures are in terms of the runs and the records they claim.
*/
module BenchReport {
  import opened Outcomes
  import opened BenchTally
  import opened CellOrder
  import opened BenchManifest
  import opened BenchCompare

  /** A session that can be compared. */
  predicate Comparable(c: Cohort, m: Manifest, logs: seq<Log>) {
    && Valid(m) && c.version == m.cohort
    && (forall r | r in m.runs :: RunAccepted(c, r))
    && LogsAgree(m.runs, logs)
    && (forall r | r in m.runs && r.checks != [] :: AnyPublished(Joined(logs, r)))
  }

  // ---- coverage ----

  function CellsBacked(cells: seq<Cell>, runs: seq<Run>, done: seq<seq<Attempt>>, id: string): seq<Cell> {
    if cells == [] then []
    else
      var last := cells[|cells| - 1];
      CellsBacked(cells[..|cells| - 1], runs, done, id) + (if Backed(runs, done, (last, id)) then [last] else [])
  }

  function MatchedIds(cases: seq<Case>, cells: seq<Cell>, runs: seq<Run>, done: seq<seq<Attempt>>): seq<string> {
    if cases == [] then []
    else
      var last := cases[|cases| - 1].id;
      MatchedIds(cases[..|cases| - 1], cells, runs, done) + (if Matched(cells, runs, done, last) then [last] else [])
  }

  lemma {:induction false} MatchedIdsAre(cases: seq<Case>, cells: seq<Cell>, runs: seq<Run>, done: seq<seq<Attempt>>)
    ensures forall id | id in MatchedIds(cases, cells, runs, done) :: Matched(cells, runs, done, id)
    ensures forall cs | cs in cases && Matched(cells, runs, done, cs.id) :: cs.id in MatchedIds(cases, cells, runs, done)
  {
    if cases != [] {
      var n := |cases| - 1;
      MatchedIdsAre(cases[..n], cells, runs, done);
      assert cases == cases[..n] + [cases[n]];
    }
  }

  predicate CoverageOf(cov: Coverage, id: string, cells: seq<Cell>, runs: seq<Run>, done: seq<seq<Attempt>>) {
    && cov.caseId == id
    && cov.cells == CellsBacked(cells, runs, done, id)
    && (cov.matched <==> Matched(cells, runs, done, id))
  }

  /** A bucket stands exactly where a run has records. */
  lemma BucketIffBacked(runs: seq<Run>, done: seq<seq<Attempt>>, buckets: map<Slot, Bucket>, counts: map<Slot, nat>, slot: Slot)
    requires Tallied(runs, done, buckets, counts)
    ensures slot in buckets <==> Backed(runs, done, slot)
  {
    if Backed(runs, done, slot) {
      var i :| 0 <= i < |runs| && SlotOf(runs[i]) == slot && done[i] != [];
      assert Filed(buckets, counts, SlotOf(runs[i]), Tally(done[i], i));
    }
  }

  method CoverCase(
      runs: seq<Run>, ghost done: seq<seq<Attempt>>, buckets: map<Slot, Bucket>, ghost counts: map<Slot, nat>, cells: seq<Cell>, id: string)
      returns (cov: Coverage)
    requires Tallied(runs, done, buckets, counts) && |cells| > 0
    ensures CoverageOf(cov, id, cells, runs, done)
  {
    hide Tallied, Backed;
    var matched, covered := |cells| > 0, [];
    for k := 0 to |cells|
      invariant covered == CellsBacked(cells[..k], runs, done, id)
      invariant matched <==> Matched(cells[..k], runs, done, id)
    {
      assert cells[..k + 1] == cells[..k] + [cells[k]] && cells[..k + 1][..k] == cells[..k];
      BucketIffBacked(runs, done, buckets, counts, (cells[k], id));
      if (cells[k], id) in buckets {
        covered := covered + [cells[k]];
      } else {
        matched := false;
      }
    }
    assert cells[..|cells|] == cells;
    cov := Coverage(id, matched, covered);
  }

  method Cover(
      cases: seq<Case>, runs: seq<Run>, ghost done: seq<seq<Attempt>>, buckets: map<Slot, Bucket>, ghost counts: map<Slot, nat>,
      cells: seq<Cell>) returns (coverage: seq<Coverage>, matched: seq<string>)
    requires Tallied(runs, done, buckets, counts) && |cells| > 0
    ensures |coverage| == |cases| && forall k | 0 <= k < |cases| :: CoverageOf(coverage[k], cases[k].id, cells, runs, done)
    ensures matched == MatchedIds(cases, cells, runs, done)
  {
    hide Tallied, Matched, CellsBacked;
    coverage, matched := [], [];
    for k := 0 to |cases|
      invariant |coverage| == k && forall j | 0 <= j < k :: CoverageOf(coverage[j], cases[j].id, cells, runs, done)
      invariant matched == MatchedIds(cases[..k], cells, runs, done)
    {
      assert cases[..k + 1][..k] == cases[..k];
      var cov := CoverCase(runs, done, buckets, counts, cells, cases[k].id);
      coverage := coverage + [cov];
      if cov.matched {
        matched := matched + [cases[k].id];
      }
    }
    assert cases[..|cases|] == cases;
  }

  // ---- what is missing ----

  function Unbacked(done: seq<seq<Attempt>>): seq<nat> {
    if done == [] then []
    else
      var n := |done| - 1;
      Unbacked(done[..n]) + (if done[n] == [] then [n] else [])
  }

  method RunsWithoutAttempts(ghost done: seq<seq<Attempt>>, seen: seq<bool>, ghost published: seq<bool>) returns (missing: seq<nat>)
    requires Flagged(done, seen, published)
    ensures missing == Unbacked(done)
  {
    missing := [];
    for i := 0 to |seen|
      invariant missing == Unbacked(done[..i])
    {
      assert done[..i + 1][..i] == done[..i];
      if !seen[i] {
        missing := missing + [i];
      }
    }
    assert done[..|done|] == done;
  }

  predicate HasRun(runs: seq<Run>, cell: Cell) {
    exists r | r in runs :: r.cell == cell
  }

  function Undispatched(cells: seq<Cell>, runs: seq<Run>): seq<Cell> {
    if cells == [] then []
    else
      var last := cells[|cells| - 1];
      Undispatched(cells[..|cells| - 1], runs) + (if HasRun(runs, last) then [] else [last])
  }

  method CellsWithoutRuns(cells: seq<Cell>, runs: seq<Run>) returns (missing: seq<Cell>)
    ensures missing == Undispatched(cells, runs)
  {
    var dispatched: set<Cell> := {};
    for i := 0 to |runs|
      invariant forall c :: c in dispatched <==> HasRun(runs[..i], c)
    {
      assert runs[..i + 1] == runs[..i] + [runs[i]];
      dispatched := dispatched + {runs[i].cell};
    }
    assert runs[..|runs|] == runs;
    missing := [];
    for k := 0 to |cells|
      invariant missing == Undispatched(cells[..k], runs)
    {
      assert cells[..k + 1][..k] == cells[..k];
      if cells[k] !in dispatched {
        missing := missing + [cells[k]];
      }
    }
    assert cells[..|cells|] == cells;
  }

  // ---- the observed cells ----

  predicate Observed(runs: seq<Run>, done: seq<seq<Attempt>>, cell: Cell) {
    exists i | 0 <= i < |runs| && i < |done| :: runs[i].cell == cell && done[i] != []
  }

  function CellsOf(buckets: map<Slot, Bucket>): set<Cell> {
    set slot | slot in buckets :: slot.0
  }

  lemma AllObserved(runs: seq<Run>, done: seq<seq<Attempt>>, buckets: map<Slot, Bucket>, counts: map<Slot, nat>)
    requires Tallied(runs, done, buckets, counts)
    ensures forall cell :: cell in CellsOf(buckets) <==> Observed(runs, done, cell)
  {
    forall cell
      ensures cell in CellsOf(buckets) <==> Observed(runs, done, cell)
    {
      if cell in CellsOf(buckets) {
        var slot :| slot in buckets && slot.0 == cell;
        assert Backed(runs, done, slot);
      }
      if Observed(runs, done, cell) {
        var i :| 0 <= i < |runs| && runs[i].cell == cell && done[i] != [];
        assert Filed(buckets, counts, SlotOf(runs[i]), Tally(done[i], i));
      }
    }
  }

  function CellsIn(rows: seq<CellResult>): seq<Cell> {
    seq(|rows|, k requires 0 <= k < |rows| => rows[k].cell)
  }

  /** One row for each cell with records, in the stable order, each the figures of its own shares. */
  ghost predicate RowsAre(runs: seq<Run>, done: seq<seq<Attempt>>, ids: seq<string>, rows: seq<CellResult>) {
    && |done| == |runs|
    && Increasing(CellsIn(rows))
    && (forall cell :: cell in CellsIn(rows) <==> Observed(runs, done, cell))
    && forall k | 0 <= k < |rows| :: rows[k] == Row(rows[k].cell, SharesOf(runs, done, rows[k].cell, ids))
  }

  /** The observed cells, in the stable order, however the set is walked. */
  method Order(cells: set<Cell>) returns (order: seq<Cell>)
    ensures Increasing(order) && forall cell :: cell in order <==> cell in cells
  {
    var todo, listed := cells, [];
    while todo != {}
      invariant todo <= cells && CellsApart(listed)
      invariant forall cell :: cell in listed <==> cell in cells && cell !in todo
    {
      var cell :| cell in todo;
      assert forall i | 0 <= i < |listed| :: listed[i] in listed;
      listed := listed + [cell];
      todo := todo - {cell};
    }
    SortedIncreasing(listed);
    order := Sorted(listed);
  }

  /** An observed cell was declared, so it has records for every matched case. */
  lemma MatchedForCell(cells: seq<Cell>, runs: seq<Run>, done: seq<seq<Attempt>>, ids: seq<string>, cell: Cell)
    requires Observed(runs, done, cell) && RunsDeclared(cells, runs)
    requires forall id | id in ids :: Matched(cells, runs, done, id)
    ensures forall id | id in ids :: Backed(runs, done, (cell, id))
  {
    hide FieldsOk;
    assert cell in cells;
  }

  method SummarizeCells(
      runs: seq<Run>, ghost done: seq<seq<Attempt>>, buckets: map<Slot, Bucket>, counts: map<Slot, nat>, evidence: seq<Evidence>,
      ghost cells: seq<Cell>, ids: seq<string>) returns (rows: seq<CellResult>)
    requires RunsApart(runs) && Tallied(runs, done, buckets, counts) && Evidences(evidence, runs) && RunsDeclared(cells, runs)
    requires forall id | id in ids :: Matched(cells, runs, done, id)
    ensures RowsAre(runs, done, ids, rows)
  {
    hide *;
    TalliedSize(runs, done, buckets, counts);
    AllObserved(runs, done, buckets, counts);
    var order := Order(CellsOf(buckets));
    rows := [];
    for k := 0 to |order|
      invariant |rows| == k
      invariant forall j | 0 <= j < k :: rows[j] == Row(order[j], SharesOf(runs, done, order[j], ids))
    {
      assert order[k] in order;
      MatchedForCell(cells, runs, done, ids, order[k]);
      var row := SummarizeCell(runs, done, buckets, counts, evidence, order[k], ids);
      rows := rows + [row];
    }
    RowsInOrder(runs, done, ids, order, rows);
  }

  lemma RowsInOrder(runs: seq<Run>, done: seq<seq<Attempt>>, ids: seq<string>, order: seq<Cell>, rows: seq<CellResult>)
    requires |done| == |runs| && |rows| == |order| && Increasing(order)
    requires forall cell :: cell in order <==> Observed(runs, done, cell)
    requires forall j | 0 <= j < |order| :: rows[j] == Row(order[j], SharesOf(runs, done, order[j], ids))
    ensures RowsAre(runs, done, ids, rows)
  {
    hide SharesOf, Row, Observed;
    forall j | 0 <= j < |rows|
      ensures rows[j].cell == order[j]
    {
      RowConserves(order[j], SharesOf(runs, done, order[j], ids));
    }
    assert CellsIn(rows) == order;
  }

  // ---- the report ----

  /** What a report says, told by the runs and the records they claim. */
  ghost predicate Reports(c: Cohort, m: Manifest, logs: seq<Log>, rep: Report) {
    var done, cells := JoinedAll(logs, m.runs), Sorted(m.cells);
    && rep.expectedCells == cells
    && rep.read == TotalRead(logs) && rep.joined == Total(done) && rep.read == rep.joined + rep.unjoined
    && rep.cellsWithoutRuns == Undispatched(cells, m.runs)
    && rep.runsWithoutAttempts == Unbacked(done)
    && rep.matched == MatchedIds(c.cases, cells, m.runs, done)
    && |rep.coverage| == |c.cases|
    && (forall k | 0 <= k < |c.cases| :: CoverageOf(rep.coverage[k], c.cases[k].id, cells, m.runs, done))
    && RowsAre(m.runs, done, rep.matched, rep.cells)
  }

  method CheckPublished(runs: seq<Run>, evidence: seq<Evidence>, published: seq<bool>, ghost logs: seq<Log>, ghost seen: seq<bool>)
      returns (ok: bool)
    requires Evidences(evidence, runs) && Flagged(JoinedAll(logs, runs), seen, published)
    ensures ok <==> forall r | r in runs && r.checks != [] :: AnyPublished(Joined(logs, r))
  {
    for i := 0 to |evidence|
      invariant forall j | 0 <= j < i && runs[j].checks != [] :: AnyPublished(Joined(logs, runs[j]))
    {
      if evidence[i].recorded && !published[i] {
        assert runs[i] in runs;
        return false;
      }
    }
    ok := true;
  }

  lemma BookKept(runs: seq<Run>, done: seq<seq<Attempt>>, book: Book)
    requires Kept(runs, done, book)
    ensures Tallied(runs, done, book.buckets, book.counts) && Flagged(done, book.seen, book.published)
    ensures book.joined == Total(done) && book.read == book.joined + book.unjoined
  {
  }

  lemma ValidGives(m: Manifest)
    requires Valid(m)
    ensures RunsApart(m.runs) && RunsDeclared(Sorted(m.cells), m.runs) && |Sorted(m.cells)| > 0
  {
    hide FieldsOk, Blank, RunsApart;
    assert m.cells[0] in Sorted(m.cells);
  }

  /** The report of a session that was accepted. */
  method Summarize(c: Cohort, m: Manifest, ghost logs: Logs, evidence: seq<Evidence>, book: Book) returns (rep: Report)
    requires Valid(m) && Evidences(evidence, m.runs) && Kept(m.runs, JoinedAll(logs, m.runs), book) && book.read == TotalRead(logs)
    ensures Reports(c, m, logs, rep)
  {
    hide Valid, Evidences, Kept, JoinedAll, TotalRead, Total, Tallied, Flagged, RunsApart, RunsDeclared, Sorted, Undispatched,
         Unbacked, MatchedIds, CoverageOf, RowsAre, Matched, LogsApart;
    ghost var done := JoinedAll(logs, m.runs);
    ValidGives(m);
    BookKept(m.runs, done, book);
    var cells := Sorted(m.cells);
    var without := CellsWithoutRuns(cells, m.runs);
    var missing := RunsWithoutAttempts(done, book.seen, book.published);
    var coverage, matched := Cover(c.cases, m.runs, done, book.buckets, book.counts, cells);
    MatchedIdsAre(c.cases, cells, m.runs, done);
    var rows := SummarizeCells(m.runs, done, book.buckets, book.counts, evidence, cells, matched);
    rep := Report(cells, without, matched, coverage, rows, book.read, book.joined, book.unjoined, missing);
  }

  method Compare(c: Cohort, m: Manifest, logs: Logs) returns (r: Result<Report, Refusal>)
    ensures r.Ok? <==> Comparable(c, m, logs)
    ensures r.Ok? ==> Reports(c, m, logs, r.value)
  {
    hide Valid, RunAccepted, LogsAgree, JoinedAll, Evidences, JoinsRuns, Joined, LogsApart, Kept, AnyPublished, Reports;
    var refusal := Validate(m);
    if refusal.Some? {
      return Err(refusal.value);
    }
    if c.version != m.cohort {
      return Err(CohortMismatch);
    }
    ValidGives(m);
    var joins, evidence;
    joins, evidence, refusal := JoinRuns(c, m.runs);
    if refusal.Some? {
      return Err(refusal.value);
    }
    var book;
    book, refusal := ReadLogs(m.runs, joins, logs);
    if refusal.Some? {
      return Err(refusal.value);
    }
    BookKept(m.runs, JoinedAll(logs, m.runs), book);
    var ok := CheckPublished(m.runs, evidence, book.published, logs, book.seen);
    if !ok {
      return Err(CheckMismatch);
    }
    var rep := Summarize(c, m, logs, evidence, book);
    r := Ok(rep);
  }

  // ---- what every report obeys ----

  lemma {:induction false} SharesNamed(runs: seq<Run>, done: seq<seq<Attempt>>, cell: Cell, ids: seq<string>)
    requires |done| == |runs| && forall id | id in ids :: Backed(runs, done, (cell, id))
    ensures
      var shares := SharesOf(runs, done, cell, ids);
      |shares| == |ids| && forall k | 0 <= k < |ids| :: shares[k].row.caseId == ids[k]
  {
    hide *;
    if ids == [] {
      EmptyShares(runs, done, cell);
    } else {
      var n := |ids| - 1;
      assert ids[n] in ids;
      SharesNamed(runs, done, cell, ids[..n]);
      var i := BackedRun(runs, done, (cell, ids[n]));
      SharesSnoc(runs, done, cell, ids, n, i);
      ShareNamed(runs, done, i);
      SlotIs(runs[i]);
      assert ids[..n + 1] == ids;
    }
  }

  lemma EmptyShares(runs: seq<Run>, done: seq<seq<Attempt>>, cell: Cell)
    requires |done| == |runs|
    ensures SharesOf(runs, done, cell, []) == []
  {
  }

  lemma BackedRun(runs: seq<Run>, done: seq<seq<Attempt>>, slot: Slot) returns (i: nat)
    requires Backed(runs, done, slot)
    ensures i < |runs| && FindRun(runs, slot) == Some(i) && SlotOf(runs[i]) == slot
  {
    hide SlotOf;
    i := FindRun(runs, slot).value;
  }

  lemma ShareNamed(runs: seq<Run>, done: seq<seq<Attempt>>, i: nat)
    requires i < |runs| == |done|
    ensures ShareOf(runs, done, i).row.caseId == runs[i].caseId
  {
  }

  /** One denominator for every cell, one run per case, and published cases split three ways. */
  lemma EveryRowConserves(c: Cohort, m: Manifest, logs: seq<Log>, rep: Report, k: nat)
    requires Valid(m) && Reports(c, m, logs, rep) && k < |rep.cells|
    ensures
      var row := rep.cells[k];
      && row.cases == row.runs == |rep.matched| == |row.results|
      && row.publishedCases == row.publishedRuns == row.passedCases + row.failedCases + row.uncheckedCases <= row.cases
      && row.passedRuns == row.passedCases && row.failedRuns == row.failedCases && row.uncheckedRuns == row.uncheckedCases
      && row.attemptsToPublish <= row.attempts
      && forall j | 0 <= j < |rep.matched| :: row.results[j].caseId == rep.matched[j]
  {
    var done, cell := JoinedAll(logs, m.runs), rep.cells[k].cell;
    ValidGives(m);
    MatchedIdsAre(c.cases, Sorted(m.cells), m.runs, done);
    assert CellsIn(rep.cells)[k] == cell;
    hide JoinedAll, Valid, RunsApart, RunsDeclared, SharesOf, Row, Sorted, Matched, MatchedIds, TotalRead, Total, CoverageOf;
    MatchedForCell(Sorted(m.cells), m.runs, done, rep.matched, cell);
    SharesNamed(m.runs, done, cell, rep.matched);
    RowConserves(cell, SharesOf(m.runs, done, cell, rep.matched));
  }

  lemma RowsAreUnique(runs: seq<Run>, done: seq<seq<Attempt>>, ids: seq<string>, rows: seq<CellResult>, other: seq<CellResult>)
    requires RowsAre(runs, done, ids, rows) && RowsAre(runs, done, ids, other)
    ensures rows == other
  {
    hide SharesOf, Row, Observed, Increasing;
    IncreasingIsUnique(CellsIn(rows), CellsIn(other));
    assert |rows| == |CellsIn(rows)| == |CellsIn(other)| == |other|;
    forall k | 0 <= k < |rows|
      ensures rows[k] == other[k]
    {
      assert CellsIn(rows)[k] == CellsIn(other)[k];
    }
  }

  /** An unchanged session has one report, however the maps behind it were walked. */
  lemma ReportIsUnique(c: Cohort, m: Manifest, logs: seq<Log>, rep: Report, other: Report)
    requires Reports(c, m, logs, rep) && Reports(c, m, logs, other)
    ensures rep == other
  {
    hide JoinedAll, TotalRead, Total, Undispatched, Unbacked, MatchedIds, CellsBacked, Matched, RowsAre, Sorted;
    RowsAreUnique(m.runs, JoinedAll(logs, m.runs), rep.matched, rep.cells, other.cells);
    forall k | 0 <= k < |c.cases|
      ensures rep.coverage[k] == other.coverage[k]
    {
    }
    assert rep.coverage == other.coverage;
  }

  lemma {:induction false} CountOfIssue(s: seq<Attempt>, issue: string, a: Attempt)
    ensures multiset(OfIssue(s, issue))[a] == if a.issue == issue then multiset(s)[a] else 0
  {
    if s != [] {
      var n := |s| - 1;
      CountOfIssue(s[..n], issue, a);
      assert s == s[..n] + [s[n]];
    }
  }

  /** What a run contributes does not depend on the order in which its directory's records were read. */
  lemma ShareIgnoresOrder(runs: seq<Run>, logs: seq<Log>, other: seq<Log>, i: nat)
    requires i < |runs|
    requires forall dir :: multiset(Records(logs, dir)) == multiset(Records(other, dir))
    requires KeysApart(Verdicts, Joined(logs, runs[i])) && KeysApart(Failures, Joined(logs, runs[i]))
    ensures ShareOf(runs, JoinedAll(logs, runs), i) == ShareOf(runs, JoinedAll(other, runs), i)
  {
    var s, t := Joined(logs, runs[i]), Joined(other, runs[i]);
    forall a
      ensures multiset(s)[a] == multiset(t)[a]
    {
      CountOfIssue(Records(logs, runs[i].stateDir), runs[i].issue, a);
      CountOfIssue(Records(other, runs[i].stateDir), runs[i].issue, a);
    }
    assert multiset(s) == multiset(t);
    TallyIgnoresOrder(s, t, i);
    hide KeysApart, LastOf, SumFigures, Texts, AnyPublished, FailedIds, Joined, Records;
    assert Tally(s, i).published == AnyPublished(s) && Tally(t, i).published == AnyPublished(t);
  }
}
