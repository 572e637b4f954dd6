/**
What the figures of a report mean, on the checks of the runs and the records they claim,
without the accumulators that compute them.
*/
module BenchMeaning {
  import opened Outcomes
  import opened BenchTally
  import opened CellOrder
  import opened BenchManifest
  import opened BenchCompare
  import opened BenchReport

  // ---- counting and adding up ----

  function Sum(s: seq<int>): int {
    if s == [] then 0 else Sum(s[..|s| - 1]) + s[|s| - 1]
  }

  lemma SumOf(s: seq<int>, n: int)
    ensures Sum(s + [n]) == Sum(s) + n
  {
    assert (s + [n])[..|s|] == s;
  }

  function Inputs(s: seq<Attempt>): seq<int> {
    seq(|s|, i requires 0 <= i < |s| => s[i].input)
  }

  function Outputs(s: seq<Attempt>): seq<int> {
    seq(|s|, i requires 0 <= i < |s| => s[i].output)
  }

  function Durations(s: seq<Attempt>): seq<int> {
    seq(|s|, i requires 0 <= i < |s| => s[i].duration)
  }

  function Launched(s: seq<Attempt>): set<nat> {
    set i: nat | i < |s| && s[i].ran
  }

  function Unpriced(s: seq<Attempt>): set<nat> {
    set i: nat | i < |s| && s[i].ran && !s[i].priced
  }

  /** The records with this verdict, or with this failure. */
  function WithText(kind: Kind, s: seq<Attempt>, text: string): set<nat> {
    set i: nat | i < |s| && (if kind.Verdicts? then s[i].verdict == text else s[i].failure == text)
  }

  lemma Grown(before: set<nat>, after: set<nat>, n: nat, yes: bool)
    requires n !in before && after == if yes then before + {n} else before
    ensures |after| == |before| + if yes then 1 else 0
  {
  }

  /** Each figure adds up its own column. */
  lemma {:induction false} FiguresAre(s: seq<Attempt>)
    ensures SumFigures(s).input == Sum(Inputs(s)) && SumFigures(s).output == Sum(Outputs(s)) && SumFigures(s).duration == Sum(Durations(s))
    ensures SumFigures(s).ran == |Launched(s)| && SumFigures(s).unpriced == |Unpriced(s)|
  {
    if s != [] {
      var front, a, n := s[..|s| - 1], s[|s| - 1], |s| - 1;
      FiguresAre(front);
      ColumnsSnoc(s);
      Grown(Launched(front), Launched(s), n, a.ran);
      Grown(Unpriced(front), Unpriced(s), n, a.ran && !a.priced);
      hide Launched, Unpriced, Inputs, Outputs, Durations;
      SumOf(Inputs(front), a.input);
      SumOf(Outputs(front), a.output);
      SumOf(Durations(front), a.duration);
    }
  }

  lemma ColumnsSnoc(s: seq<Attempt>)
    requires s != []
    ensures
      var front, a, n := s[..|s| - 1], s[|s| - 1], |s| - 1;
      && Inputs(s) == Inputs(front) + [a.input] && Outputs(s) == Outputs(front) + [a.output]
      && Durations(s) == Durations(front) + [a.duration]
      && Launched(s) == (if a.ran then Launched(front) + {n} else Launched(front))
      && Unpriced(s) == (if a.ran && !a.priced then Unpriced(front) + {n} else Unpriced(front))
  {
  }

  /** A text is counted as often as a record has it. */
  lemma {:induction false} TextsAre(kind: Kind, s: seq<Attempt>, text: string)
    requires text != ""
    ensures Texts(kind, s)[text] == |WithText(kind, s, text)|
  {
    hide *;
    if s == [] {
      NoTexts(kind, text);
    } else {
      var front, a := s[..|s| - 1], s[|s| - 1];
      TextsAre(kind, front, text);
      assert s == front + [a];
      TextsSnoc(kind, front, a);
      WithTextSnoc(kind, front, a, text);
      NamedIs(kind, a, text);
    }
  }

  lemma NoTexts(kind: Kind, text: string)
    ensures Texts(kind, [])[text] == 0 == |WithText(kind, [], text)|
  {
    assert WithText(kind, [], text) == {};
  }

  lemma NamedIs(kind: Kind, a: Attempt, text: string)
    requires text != ""
    ensures Named(TextOf(kind, a))[text] == if (if kind.Verdicts? then a.verdict == text else a.failure == text) then 1 else 0
  {
  }

  lemma WithTextSnoc(kind: Kind, front: seq<Attempt>, a: Attempt, text: string)
    ensures |WithText(kind, front + [a], text)| == |WithText(kind, front, text)|
      + if (if kind.Verdicts? then a.verdict == text else a.failure == text) then 1 else 0
  {
    var s, n := front + [a], |front|;
    var has := if kind.Verdicts? then a.verdict == text else a.failure == text;
    assert WithText(kind, s, text) == if has then WithText(kind, front, text) + {n} else WithText(kind, front, text);
    Grown(WithText(kind, front, text), WithText(kind, s, text), n, has);
  }

  /** The last verdict and the last failure are the latest of their kind. */
  lemma LastAre(s: seq<Attempt>, run: nat)
    ensures
      var v := LastOf(Verdicts, s, run);
      && (v.Unset? <==> forall a | a in s :: a.verdict == "")
      && (v.Last? ==>
            && (exists a | a in s :: a.verdict != "" && v == Last(a.verdict, a.ended, run, a.number))
            && forall a | a in s && a.verdict != "" :: a.ended < v.ended || (a.ended == v.ended && a.number <= v.attempt))
    ensures
      var v := LastOf(Failures, s, run);
      && (v.Unset? <==> forall a | a in s :: a.failure == "")
      && (v.Last? ==>
            && (exists a | a in s :: a.failure != "" && v == Last(a.failure, a.ended, run, a.number))
            && forall a | a in s && a.failure != "" :: a.ended < v.ended || (a.ended == v.ended && a.number <= v.attempt))
  {
    LastIsGreatest(Verdicts, s, run);
    LastIsGreatest(Failures, s, run);
    hide LastOf;
    assert forall a :: Entry(Verdicts, a, run) == Last(a.verdict, a.ended, run, a.number);
    assert forall a :: Entry(Failures, a, run) == Last(a.failure, a.ended, run, a.number);
  }

  // ---- what a run claims ----

  /** The record lies in the run's directory under the run's issue. */
  predicate Claims(logs: seq<Log>, r: Run, a: Attempt) {
    exists l | l in logs :: l.dir == r.stateDir && a in l.attempts && a.issue == r.issue
  }

  lemma {:induction false} RecordsAre(logs: seq<Log>, l: Log)
    requires LogsApart(logs) && l in logs
    ensures Records(logs, l.dir) == l.attempts
  {
    var n := |logs| - 1;
    if logs[n] != l {
      assert logs == logs[..n] + [logs[n]];
      var k :| 0 <= k < n && logs[k] == l;
      assert logs[k].dir != logs[n].dir;
      RecordsAre(logs[..n], l);
    }
  }

  lemma JoinedAreClaimed(logs: Logs, r: Run, a: Attempt)
    ensures a in Joined(logs, r) <==> Claims(logs, r, a)
  {
    if l :| l in logs && l.dir == r.stateDir {
      RecordsAre(logs, l);
      assert forall x | x in logs && x.dir == l.dir :: x == l;
    } else {
      NoRecords(logs, r.stateDir);
    }
  }

  /** The run has a record whose verdict is "published". */
  ghost predicate PublishedBy(logs: seq<Log>, r: Run) {
    exists a :: Claims(logs, r, a) && a.verdict == "published"
  }

  lemma PublishedIs(logs: Logs, r: Run)
    ensures AnyPublished(Joined(logs, r)) <==> PublishedBy(logs, r)
  {
    hide Joined, Claims;
    forall a {
      JoinedAreClaimed(logs, r, a);
    }
  }

  // ---- one case ----

  predicate RunOf(runs: seq<Run>, cell: Cell, id: string, r: Run) {
    r in runs && r.cell == cell && r.caseId == id
  }

  ghost predicate PassedRun(logs: seq<Log>, r: Run) {
    PublishedBy(logs, r) && r.checks != [] && forall k | k in r.checks :: k.passed
  }

  ghost predicate FailedRun(logs: seq<Log>, r: Run) {
    PublishedBy(logs, r) && exists k | k in r.checks :: !k.passed
  }

  ghost predicate UncheckedRun(logs: seq<Log>, r: Run) {
    PublishedBy(logs, r) && r.checks == []
  }

  lemma StatusIs(logs: Logs, r: Run)
    ensures
      var status := StatusOf(r, Joined(logs, r));
      && (status == Passed <==> PassedRun(logs, r)) && (status == Failed <==> FailedRun(logs, r))
      && (status == Unchecked <==> UncheckedRun(logs, r)) && (status == NotPublished <==> !PublishedBy(logs, r))
  {
    PublishedIs(logs, r);
    hide PublishedBy, AnyPublished, Joined;
  }

  /** The share at position `j` is that of the one run of the cell and the case. */
  lemma {:induction false} ShareAt(m: Manifest, logs: seq<Log>, cell: Cell, ids: seq<string>, j: nat) returns (i: nat)
    requires RunsApart(m.runs) && j < |ids| && forall id | id in ids :: Backed(m.runs, JoinedAll(logs, m.runs), (cell, id))
    ensures i < |m.runs| && SlotOf(m.runs[i]) == (cell, ids[j])
    ensures
      var shares := SharesOf(m.runs, JoinedAll(logs, m.runs), cell, ids);
      |shares| == |ids| && shares[j] == ShareOf(m.runs, JoinedAll(logs, m.runs), i)
    ensures forall r :: RunOf(m.runs, cell, ids[j], r) <==> r == m.runs[i]
  {
    hide *;
    var done := JoinedAll(logs, m.runs);
    JoinedSize(logs, m.runs);
    var n := |ids| - 1;
    assert ids[n] in ids;
    var last := BackedRun(m.runs, done, (cell, ids[n]));
    SharesSnoc(m.runs, done, cell, ids, n, last);
    assert ids[..n + 1] == ids;
    SharesNamed(m.runs, done, cell, ids[..n]);
    if j < n {
      i := ShareAt(m, logs, cell, ids[..n], j);
    } else {
      i := last;
    }
    OneRun(m.runs, i);
  }

  lemma JoinedSize(logs: seq<Log>, runs: seq<Run>)
    ensures |JoinedAll(logs, runs)| == |runs|
  {
  }

  lemma OneRun(runs: seq<Run>, i: nat)
    requires RunsApart(runs) && i < |runs|
    ensures forall r :: RunOf(runs, SlotOf(runs[i]).0, SlotOf(runs[i]).1, r) <==> r == runs[i]
  {
    forall r | RunOf(runs, SlotOf(runs[i]).0, SlotOf(runs[i]).1, r)
      ensures r == runs[i]
    {
      var j :| 0 <= j < |runs| && runs[j] == r;
      SlotsApart(runs, i, j);
    }
  }

  /** A row of a report, and that every matched case is backed in its cell. */
  lemma RowIs(c: Cohort, m: Manifest, logs: seq<Log>, rep: Report, k: nat)
    requires Valid(m) && Reports(c, m, logs, rep) && k < |rep.cells|
    ensures RunsApart(m.runs) && |JoinedAll(logs, m.runs)| == |m.runs|
    ensures
      var done, cell := JoinedAll(logs, m.runs), rep.cells[k].cell;
      && rep.cells[k] == Row(cell, SharesOf(m.runs, done, cell, rep.matched))
      && forall id | id in rep.matched :: Backed(m.runs, done, (cell, id))
  {
    var done, cell := JoinedAll(logs, m.runs), rep.cells[k].cell;
    ValidGives(m);
    MatchedIdsAre(c.cases, Sorted(m.cells), m.runs, done);
    assert CellsIn(rep.cells)[k] == cell;
    hide JoinedAll, Valid, RunsApart, RunsDeclared, SharesOf, Row, Sorted, Matched, MatchedIds, TotalRead, Total, CoverageOf;
    MatchedForCell(Sorted(m.cells), m.runs, done, rep.matched, cell);
  }

  /** The status of a case in a cell is what the checks of its one run and the records it claims say. */
  lemma StatusMeans(c: Cohort, m: Manifest, logs: Logs, rep: Report, k: nat, j: nat, r: Run)
    requires Valid(m) && Reports(c, m, logs, rep) && k < |rep.cells| && j < |rep.matched|
    requires RunOf(m.runs, rep.cells[k].cell, rep.matched[j], r)
    ensures j < |rep.cells[k].results|
    ensures
      var result := rep.cells[k].results[j];
      && result.caseId == rep.matched[j]
      && (result.status == Passed <==> PassedRun(logs, r)) && (result.status == Failed <==> FailedRun(logs, r))
      && (result.status == Unchecked <==> UncheckedRun(logs, r)) && (result.status == NotPublished <==> !PublishedBy(logs, r))
      && result.attempts == |Joined(logs, r)| && result.duration == Sum(Durations(Joined(logs, r)))
      && (exists i: nat :: result.verdict == LastOf(Verdicts, Joined(logs, r), i) && result.failure == LastOf(Failures, Joined(logs, r), i))
  {
    hide *;
    RowIs(c, m, logs, rep, k);
    var cell := rep.cells[k].cell;
    var i := ShareAt(m, logs, cell, rep.matched, j);
    RowConserves(cell, SharesOf(m.runs, JoinedAll(logs, m.runs), cell, rep.matched));
    ShareIsFor(m.runs, logs, i);
    StatusIs(logs, r);
    FiguresAre(Joined(logs, r));
    SlotIs(m.runs[i]);
  }

  lemma ShareIsFor(runs: seq<Run>, logs: seq<Log>, i: nat)
    requires i < |runs|
    ensures |JoinedAll(logs, runs)| == |runs|
    ensures
      var share, s, r := ShareOf(runs, JoinedAll(logs, runs), i), Joined(logs, runs[i]), runs[i];
      && share.row == CaseResult(r.caseId, StatusOf(r, s), |s|, SumFigures(s).duration, LastOf(Verdicts, s, i), LastOf(Failures, s, i))
      && share.figures == SumFigures(s) && share.failures == Texts(Failures, s) && share.verdicts == Texts(Verdicts, s)
      && share.checkFailures == (if StatusOf(r, s) == Failed then Bag(FailedIds(r.checks)) else multiset{})
  {
    hide SumFigures, LastOf, Texts, StatusOf, FailedIds, Joined, Bag;
  }

  // ---- one cell ----

  function WithStatus(shares: seq<Share>, status: Status): set<nat> {
    set j: nat | j < |shares| && shares[j].row.status == status
  }

  /** A column of the shares. */
  function Column(shares: seq<Share>, f: Share -> int): seq<int> {
    seq(|shares|, j requires 0 <= j < |shares| => f(shares[j]))
  }

  lemma ColumnSnoc(shares: seq<Share>, share: Share, f: Share -> int)
    ensures Sum(Column(shares + [share], f)) == Sum(Column(shares, f)) + f(share)
  {
    assert Column(shares + [share], f) == Column(shares, f) + [f(share)];
    SumOf(Column(shares, f), f(share));
  }

  lemma StatusSnoc(shares: seq<Share>, share: Share, status: Status)
    ensures |WithStatus(shares + [share], status)| == |WithStatus(shares, status)| + if share.row.status == status then 1 else 0
  {
    var more := shares + [share];
    assert WithStatus(more, status)
        == if share.row.status == status then WithStatus(shares, status) + {|shares|} else WithStatus(shares, status);
    Grown(WithStatus(shares, status), WithStatus(more, status), |shares|, share.row.status == status);
  }

  lemma RowSnoc(cell: Cell, shares: seq<Share>, share: Share)
    ensures
      var before, after, status := Row(cell, shares), Row(cell, shares + [share]), share.row.status;
      && after.passedCases == Bump(before.passedCases, status.Passed?) && after.failedCases == Bump(before.failedCases, status.Failed?)
      && after.uncheckedCases == Bump(before.uncheckedCases, status.Unchecked?)
      && after.attempts == before.attempts + share.row.attempts
      && after.attemptsToPublish == before.attemptsToPublish + (if status.NotPublished? then 0 else share.row.attempts)
      && after.figures == before.figures.Plus(share.figures)
      && after.failures == before.failures + share.failures && after.verdicts == before.verdicts + share.verdicts
      && after.checkFailures == before.checkFailures + share.checkFailures
  {
    assert (shares + [share])[..|shares|] == shares;
  }

  /** A row's counts are the numbers of its cases in each status. */
  lemma {:induction false} RowCounts(cell: Cell, shares: seq<Share>)
    ensures
      var row := Row(cell, shares);
      && row.passedCases == |WithStatus(shares, Passed)| && row.failedCases == |WithStatus(shares, Failed)|
      && row.uncheckedCases == |WithStatus(shares, Unchecked)|
  {
    if shares == [] {
      assert forall status :: WithStatus(shares, status) == {};
    } else {
      var front, last := shares[..|shares| - 1], shares[|shares| - 1];
      assert shares == front + [last];
      RowCounts(cell, front);
      hide Row, WithStatus;
      RowSnoc(cell, front, last);
      StatusSnoc(front, last, Passed);
      StatusSnoc(front, last, Failed);
      StatusSnoc(front, last, Unchecked);
    }
  }

  /** Every other figure of a row is the sum of a column of its cases. */
  lemma {:induction false} RowColumns(cell: Cell, shares: seq<Share>)
    ensures
      var row := Row(cell, shares);
      && row.attempts == Sum(Column(shares, (x: Share) => x.row.attempts))
      && row.attemptsToPublish == Sum(Column(shares, (x: Share) => if x.row.status.NotPublished? then 0 else x.row.attempts))
      && row.figures.input == Sum(Column(shares, (x: Share) => x.figures.input))
      && row.figures.output == Sum(Column(shares, (x: Share) => x.figures.output))
      && row.figures.duration == Sum(Column(shares, (x: Share) => x.figures.duration))
      && row.figures.ran == Sum(Column(shares, (x: Share) => x.figures.ran))
      && row.figures.unpriced == Sum(Column(shares, (x: Share) => x.figures.unpriced))
  {
    if shares == [] {
      assert forall f: Share -> int :: Column(shares, f) == [];
    } else {
      var front, last := shares[..|shares| - 1], shares[|shares| - 1];
      assert shares == front + [last];
      RowColumns(cell, front);
      hide Row, Column, Sum;
      RowSnoc(cell, front, last);
      ColumnSnoc(front, last, (x: Share) => x.row.attempts);
      ColumnSnoc(front, last, (x: Share) => if x.row.status.NotPublished? then 0 else x.row.attempts);
      ColumnSnoc(front, last, (x: Share) => x.figures.input);
      ColumnSnoc(front, last, (x: Share) => x.figures.output);
      ColumnSnoc(front, last, (x: Share) => x.figures.duration);
      ColumnSnoc(front, last, (x: Share) => x.figures.ran);
      ColumnSnoc(front, last, (x: Share) => x.figures.unpriced);
    }
  }

  /** How often a text is counted in a row is the sum over its cases. */
  lemma {:induction false} RowTexts(cell: Cell, shares: seq<Share>, text: string)
    ensures
      var row := Row(cell, shares);
      && row.failures[text] == Sum(Column(shares, (x: Share) => x.failures[text]))
      && row.verdicts[text] == Sum(Column(shares, (x: Share) => x.verdicts[text]))
      && row.checkFailures[text] == Sum(Column(shares, (x: Share) => x.checkFailures[text]))
  {
    if shares == [] {
      assert forall f: Share -> int :: Column(shares, f) == [];
    } else {
      var front, last := shares[..|shares| - 1], shares[|shares| - 1];
      assert shares == front + [last];
      RowTexts(cell, front, text);
      hide Row, Column, Sum;
      RowSnoc(cell, front, last);
      ColumnSnoc(front, last, (x: Share) => x.failures[text]);
      ColumnSnoc(front, last, (x: Share) => x.verdicts[text]);
      ColumnSnoc(front, last, (x: Share) => x.checkFailures[text]);
    }
  }

  // ---- the cells of a report ----

  /** The records the one run of a cell and a case claims. */
  function RecordsFor(runs: seq<Run>, logs: seq<Log>, cell: Cell, id: string): seq<Attempt> {
    match FindRun(runs, (cell, id))
    case Some(i) => Joined(logs, runs[i])
    case None => []
  }

  ghost predicate PassedCase(runs: seq<Run>, logs: seq<Log>, cell: Cell, id: string) {
    exists r | RunOf(runs, cell, id, r) :: PassedRun(logs, r)
  }

  ghost predicate FailedCase(runs: seq<Run>, logs: seq<Log>, cell: Cell, id: string) {
    exists r | RunOf(runs, cell, id, r) :: FailedRun(logs, r)
  }

  ghost predicate UncheckedCase(runs: seq<Run>, logs: seq<Log>, cell: Cell, id: string) {
    exists r | RunOf(runs, cell, id, r) :: UncheckedRun(logs, r)
  }

  /** The published run of the case failed this check. */
  ghost predicate FailsCheck(runs: seq<Run>, logs: seq<Log>, cell: Cell, id: string, check: string) {
    exists r | RunOf(runs, cell, id, r) :: PublishedBy(logs, r) && exists k | k in r.checks :: k.id == check && !k.passed
  }

  lemma {:induction false} FailedOnce(checks: seq<CheckResult>, check: string)
    requires IdsApart(checks)
    ensures Bag(FailedIds(checks))[check] == if exists k | k in checks :: k.id == check && !k.passed then 1 else 0
  {
    if checks != [] {
      var front, last := checks[..|checks| - 1], checks[|checks| - 1];
      FailedOnce(front, check);
      assert checks == front + [last];
      assert last.id == check ==> forall k | k in front :: k.id != check;
    }
  }

  lemma FailuresAre(runs: seq<Run>, logs: Logs, i: nat, check: string)
    requires RunsApart(runs) && i < |runs| && IdsApart(runs[i].checks)
    ensures |JoinedAll(logs, runs)| == |runs|
    ensures ShareOf(runs, JoinedAll(logs, runs), i).checkFailures[check]
      == if FailsCheck(runs, logs, runs[i].cell, runs[i].caseId, check) then 1 else 0
  {
    hide *;
    ShareIsFor(runs, logs, i);
    StatusIs(logs, runs[i]);
    FailedOnce(runs[i].checks, check);
    OneRun(runs, i);
    SlotIs(runs[i]);
    FailsIs(runs, logs, i, check);
  }

  lemma FailsIs(runs: seq<Run>, logs: seq<Log>, i: nat, check: string)
    requires i < |runs| && forall r :: RunOf(runs, runs[i].cell, runs[i].caseId, r) <==> r == runs[i]
    ensures FailsCheck(runs, logs, runs[i].cell, runs[i].caseId, check)
      <==> PublishedBy(logs, runs[i]) && exists k | k in runs[i].checks :: k.id == check && !k.passed
    ensures FailsCheck(runs, logs, runs[i].cell, runs[i].caseId, check) ==> FailedRun(logs, runs[i])
  {
    hide PublishedBy, RunOf;
  }

  /** What one case contributes to its cell. */
  ghost predicate Contributes(runs: seq<Run>, logs: seq<Log>, cell: Cell, id: string, text: string, share: Share) {
    var s := RecordsFor(runs, logs, cell, id);
    && (share.row.status == Passed <==> PassedCase(runs, logs, cell, id)) && (share.row.status == Failed <==> FailedCase(runs, logs, cell, id))
    && (share.row.status == Unchecked <==> UncheckedCase(runs, logs, cell, id))
    && share.row.attempts == |s| && (share.row.status.NotPublished? <==> forall a | a in s :: a.verdict != "published")
    && share.figures.input == Sum(Inputs(s)) && share.figures.output == Sum(Outputs(s)) && share.figures.duration == Sum(Durations(s))
    && share.figures.ran == |Launched(s)| && share.figures.unpriced == |Unpriced(s)|
    && share.failures[text] == |WithText(Failures, s, text)| && share.verdicts[text] == |WithText(Verdicts, s, text)|
    && share.checkFailures[text] == if FailsCheck(runs, logs, cell, id, text) then 1 else 0
  }

  lemma CasesAre(runs: seq<Run>, logs: seq<Log>, i: nat)
    requires i < |runs| && forall r :: RunOf(runs, runs[i].cell, runs[i].caseId, r) <==> r == runs[i]
    ensures PassedCase(runs, logs, runs[i].cell, runs[i].caseId) <==> PassedRun(logs, runs[i])
    ensures FailedCase(runs, logs, runs[i].cell, runs[i].caseId) <==> FailedRun(logs, runs[i])
    ensures UncheckedCase(runs, logs, runs[i].cell, runs[i].caseId) <==> UncheckedRun(logs, runs[i])
  {
    hide PassedRun, FailedRun, UncheckedRun, RunOf;
  }

  lemma NotPublishedIs(s: seq<Attempt>, r: Run)
    ensures StatusOf(r, s) == NotPublished <==> forall a | a in s :: a.verdict != "published"
  {
  }

  lemma ClaimedAre(runs: seq<Run>, logs: seq<Log>, i: nat)
    requires RunsApart(runs) && i < |runs|
    ensures RecordsFor(runs, logs, runs[i].cell, runs[i].caseId) == Joined(logs, runs[i])
  {
    hide Joined, RunsApart, FindRun;
    FoundRun(runs, i);
    SlotIs(runs[i]);
  }

  lemma ShareContributes(runs: seq<Run>, logs: Logs, i: nat, text: string)
    requires RunsApart(runs) && i < |runs| && IdsApart(runs[i].checks) && text != ""
    ensures |JoinedAll(logs, runs)| == |runs|
    ensures Contributes(runs, logs, runs[i].cell, runs[i].caseId, text, ShareOf(runs, JoinedAll(logs, runs), i))
  {
    hide PassedCase, FailedCase, UncheckedCase, FailsCheck, ShareOf, RecordsFor, StatusOf, SumFigures, Texts, RunsApart, IdsApart,
         JoinedAll, Sum, Inputs, Outputs, Durations, Launched, Unpriced, WithText, PassedRun, FailedRun, UncheckedRun, PublishedBy, RunOf,
         FindRun, Joined, FailedIds, Bag;
    var s := Joined(logs, runs[i]);
    ClaimedAre(runs, logs, i);
    ShareIsFor(runs, logs, i);
    StatusIs(logs, runs[i]);
    NotPublishedIs(s, runs[i]);
    OneRun(runs, i);
    SlotIs(runs[i]);
    CasesAre(runs, logs, i);
    FiguresAre(s);
    TextsAre(Failures, s, text);
    TextsAre(Verdicts, s, text);
    FailuresAre(runs, logs, i, text);
  }

  lemma {:induction false} CountIsSum(s: seq<int>, yes: set<nat>)
    requires forall j: nat :: j in yes ==> j < |s|
    requires forall j: nat | j < |s| :: s[j] == if j in yes then 1 else 0
    ensures Sum(s) == |yes|
  {
    if s == [] {
      assert yes == {};
    } else {
      var n := |s| - 1;
      CountIsSum(s[..n], yes - {n});
      assert yes == if n in yes then (yes - {n}) + {n} else yes - {n};
    }
  }

  /** The sum, over the given cases, of a figure of the records claimed there. */
  function Across(runs: seq<Run>, logs: seq<Log>, cell: Cell, ids: seq<string>, f: seq<Attempt> -> int): int {
    Sum(seq(|ids|, j requires 0 <= j < |ids| => f(RecordsFor(runs, logs, cell, ids[j]))))
  }

  lemma AcrossIs(runs: seq<Run>, logs: seq<Log>, cell: Cell, ids: seq<string>, f: seq<Attempt> -> int, shares: seq<Share>, g: Share -> int)
    requires |shares| == |ids| && forall j | 0 <= j < |ids| :: g(shares[j]) == f(RecordsFor(runs, logs, cell, ids[j]))
    ensures Sum(Column(shares, g)) == Across(runs, logs, cell, ids, f)
  {
    hide Sum, RecordsFor;
    assert Column(shares, g) == seq(|ids|, j requires 0 <= j < |ids| => f(RecordsFor(runs, logs, cell, ids[j])));
  }

  /** How many of the cases passed, failed and were not checked, and how many failed the check `text`. */
  ghost predicate CasesMean(runs: seq<Run>, logs: seq<Log>, ids: seq<string>, text: string, row: CellResult) {
    && row.passedCases == |set j: nat | j < |ids| && PassedCase(runs, logs, row.cell, ids[j])|
    && row.failedCases == |set j: nat | j < |ids| && FailedCase(runs, logs, row.cell, ids[j])|
    && row.uncheckedCases == |set j: nat | j < |ids| && UncheckedCase(runs, logs, row.cell, ids[j])|
    && row.checkFailures[text] == |set j: nat | j < |ids| && FailsCheck(runs, logs, row.cell, ids[j], text)|
  }

  /** Every other figure adds up its own column of the records claimed. */
  ghost predicate SumsMean(runs: seq<Run>, logs: seq<Log>, ids: seq<string>, text: string, row: CellResult) {
    && row.attempts == Across(runs, logs, row.cell, ids, (s: seq<Attempt>) => |s|)
    && row.attemptsToPublish
       == Across(runs, logs, row.cell, ids, (s: seq<Attempt>) => if exists a | a in s :: a.verdict == "published" then |s| else 0)
    && row.figures.input == Across(runs, logs, row.cell, ids, (s: seq<Attempt>) => Sum(Inputs(s)))
    && row.figures.output == Across(runs, logs, row.cell, ids, (s: seq<Attempt>) => Sum(Outputs(s)))
    && row.figures.duration == Across(runs, logs, row.cell, ids, (s: seq<Attempt>) => Sum(Durations(s)))
    && row.figures.ran == Across(runs, logs, row.cell, ids, (s: seq<Attempt>) => |Launched(s)|)
    && row.figures.unpriced == Across(runs, logs, row.cell, ids, (s: seq<Attempt>) => |Unpriced(s)|)
    && row.failures[text] == Across(runs, logs, row.cell, ids, (s: seq<Attempt>) => |WithText(Failures, s, text)|)
    && row.verdicts[text] == Across(runs, logs, row.cell, ids, (s: seq<Attempt>) => |WithText(Verdicts, s, text)|)
  }

  lemma RowCases(runs: seq<Run>, logs: seq<Log>, cell: Cell, ids: seq<string>, text: string, shares: seq<Share>)
    requires |shares| == |ids| && forall j | 0 <= j < |ids| :: Contributes(runs, logs, cell, ids[j], text, shares[j])
    ensures CasesMean(runs, logs, ids, text, Row(cell, shares))
  {
    hide Row, Sum, PassedCase, FailedCase, UncheckedCase, FailsCheck, RecordsFor, Inputs, Outputs, Durations, Launched, Unpriced, WithText;
    RowCounts(cell, shares);
    RowTexts(cell, shares, text);
    RowConserves(cell, shares);
    var n := |ids|;
    assert WithStatus(shares, Passed) == set j: nat | j < n && PassedCase(runs, logs, cell, ids[j]);
    assert WithStatus(shares, Failed) == set j: nat | j < n && FailedCase(runs, logs, cell, ids[j]);
    assert WithStatus(shares, Unchecked) == set j: nat | j < n && UncheckedCase(runs, logs, cell, ids[j]);
    CountIsSum(Column(shares, (x: Share) => x.checkFailures[text]), set j: nat | j < n && FailsCheck(runs, logs, cell, ids[j], text));
  }

  lemma RowSums(runs: seq<Run>, logs: seq<Log>, cell: Cell, ids: seq<string>, text: string, shares: seq<Share>)
    requires |shares| == |ids| && forall j | 0 <= j < |ids| :: Contributes(runs, logs, cell, ids[j], text, shares[j])
    ensures SumsMean(runs, logs, ids, text, Row(cell, shares))
  {
    hide Row, Sum, PassedCase, FailedCase, UncheckedCase, FailsCheck, RecordsFor, Inputs, Outputs, Durations, Launched, Unpriced, WithText,
         Across, Column;
    RowColumns(cell, shares);
    RowTexts(cell, shares, text);
    RowConserves(cell, shares);
    AcrossIs(runs, logs, cell, ids, (s: seq<Attempt>) => |s|, shares, (x: Share) => x.row.attempts);
    AcrossIs(runs, logs, cell, ids, (s: seq<Attempt>) => if exists a | a in s :: a.verdict == "published" then |s| else 0,
      shares, (x: Share) => if x.row.status.NotPublished? then 0 else x.row.attempts);
    AcrossIs(runs, logs, cell, ids, (s: seq<Attempt>) => Sum(Inputs(s)), shares, (x: Share) => x.figures.input);
    AcrossIs(runs, logs, cell, ids, (s: seq<Attempt>) => Sum(Outputs(s)), shares, (x: Share) => x.figures.output);
    AcrossIs(runs, logs, cell, ids, (s: seq<Attempt>) => Sum(Durations(s)), shares, (x: Share) => x.figures.duration);
    AcrossIs(runs, logs, cell, ids, (s: seq<Attempt>) => |Launched(s)|, shares, (x: Share) => x.figures.ran);
    AcrossIs(runs, logs, cell, ids, (s: seq<Attempt>) => |Unpriced(s)|, shares, (x: Share) => x.figures.unpriced);
    AcrossIs(runs, logs, cell, ids, (s: seq<Attempt>) => |WithText(Failures, s, text)|, shares, (x: Share) => x.failures[text]);
    AcrossIs(runs, logs, cell, ids, (s: seq<Attempt>) => |WithText(Verdicts, s, text)|, shares, (x: Share) => x.verdicts[text]);
  }

  /** Every figure of every cell of a report means what it says. */
  lemma ReportMeans(c: Cohort, m: Manifest, logs: Logs, rep: Report, k: nat, text: string)
    requires Valid(m) && Reports(c, m, logs, rep) && k < |rep.cells| && text != ""
    ensures CasesMean(m.runs, logs, rep.matched, text, rep.cells[k]) && SumsMean(m.runs, logs, rep.matched, text, rep.cells[k])
  {
    hide *;
    RowIs(c, m, logs, rep, k);
    var done, cell := JoinedAll(logs, m.runs), rep.cells[k].cell;
    var shares := SharesOf(m.runs, done, cell, rep.matched);
    SharesNamed(m.runs, done, cell, rep.matched);
    forall j | 0 <= j < |rep.matched|
      ensures Contributes(m.runs, logs, cell, rep.matched[j], text, shares[j])
    {
      var i := ShareAt(m, logs, cell, rep.matched, j);
      SlotIs(m.runs[i]);
      ChecksApart(m, i);
      ShareContributes(m.runs, logs, i, text);
    }
    RowCases(m.runs, logs, cell, rep.matched, text, shares);
    RowSums(m.runs, logs, cell, rep.matched, text, shares);
  }

  lemma ChecksApart(m: Manifest, i: nat)
    requires Valid(m) && i < |m.runs|
    ensures IdsApart(m.runs[i].checks)
  {
    assert m.runs[i] in m.runs && FieldsOk(m.runs[i]);
  }
}
