/**
A session manifest: the matrix of cells declared before dispatch and the runs that
were dispatched. Its validation establishes the uniqueness facts a comparison joins by.
*/
module BenchManifest {
  import opened Outcomes
  import opened BenchTally
  import opened CellOrder

  datatype CheckResult = CheckResult(id: string, passed: bool)

  datatype Run = Run(
    caseId: string, definition: string, cell: Cell, repo: string, issue: string, base: string, stateDir: string,
    checkedCommit: string, checks: seq<CheckResult>)

  datatype Manifest = Manifest(cohort: string, session: string, cells: seq<Cell>, runs: seq<Run>)

  datatype Refusal =
    | MissingField | DuplicateCell | UndeclaredCell | DuplicateRun | SharedIssue | SharedQueue | AmbiguousJoin
    | CohortMismatch | UnknownCase | DefinitionDrift | DefinitionMismatch | BaseMismatch | CheckMismatch
    | NonCanonicalStateDir | CellMismatch | MutableRevision | DuplicateId

  // ---- one run's own fields ----

  predicate IsSpace(c: char) {
    || c == ' ' || '\U{9}' <= c <= '\U{d}' || c == '\U{85}' || c == '\U{a0}' || c == '\U{1680}' || '\U{2000}' <= c <= '\U{200a}'
    || c == '\U{2028}' || c == '\U{2029}' || c == '\U{202f}' || c == '\U{205f}' || c == '\U{3000}'
  }

  /** Nothing is left once surrounding space is trimmed. */
  predicate Blank(s: string) {
    forall c | c in s :: IsSpace(c)
  }

  predicate IsHex(c: char) {
    '0' <= c <= '9' || 'a' <= c <= 'f'
  }

  predicate HexOf(s: string, n: nat) {
    |s| == n && forall c | c in s :: IsHex(c)
  }

  predicate HexRevision(s: string) {
    HexOf(s, 40) || HexOf(s, 64)
  }

  predicate IsNameChar(c: char) {
    'A' <= c <= 'Z' || 'a' <= c <= 'z' || '0' <= c <= '9' || c == '.' || c == '_' || c == '-'
  }

  predicate NamePart(s: string) {
    s != "" && forall c | c in s :: IsNameChar(c)
  }

  /** An owner and a name around one slash. */
  predicate RepoName(s: string) {
    exists k | 0 <= k < |s| :: s[k] == '/' && NamePart(s[..k]) && NamePart(s[k + 1..])
  }

  predicate IsIdChar(c: char) {
    'a' <= c <= 'z' || '0' <= c <= '9' || c == '-'
  }

  predicate IsId(s: string) {
    s != "" && s[0] != '-' && forall c | c in s :: IsIdChar(c)
  }

  /** The components of a path below the root. */
  function Components(s: string): seq<string> {
    if '/' in s then
      var k := SlashIn(s);
      [s[..k]] + Components(s[k + 1..])
    else [s]
  }

  function SlashIn(s: string): (k: nat)
    requires '/' in s
    ensures k < |s| && s[k] == '/' && '/' !in s[..k]
  {
    if s[0] == '/' then 0
    else
      assert s == [s[0]] + s[1..];
      var k := SlashIn(s[1..]);
      assert s[..k + 1] == [s[0]] + s[1..][..k];
      k + 1
  }

  /** Absolute and spelled as cleaning would spell it: no empty, dot or dot-dot component. */
  predicate Canonical(dir: string) {
    dir != "" && dir[0] == '/' && (dir == "/" || forall part | part in Components(dir[1..]) :: part != "" && part != "." && part != "..")
  }

  predicate IdsApart(checks: seq<CheckResult>) {
    forall i, j | 0 <= i < j < |checks| :: checks[i].id != checks[j].id
  }

  predicate FieldsOk(r: Run) {
    && !Blank(r.caseId) && !Blank(r.definition) && !Blank(r.cell.agent) && !Blank(r.issue) && !Blank(r.stateDir)
    && RepoName(r.repo) && HexOf(r.definition, 64) && Canonical(r.stateDir)
    && !(exists c | c in r.issue :: c == ' ' || c == '\t' || c == '\n')
    && HexRevision(r.base)
    && (r.checkedCommit == "" <==> r.checks == []) && (r.checkedCommit != "" ==> HexRevision(r.checkedCommit))
    && (forall k | k in r.checks :: IsId(k.id)) && IdsApart(r.checks)
  }

  /** Results are identified, and no check is recorded twice. */
  method ValidateChecks(checks: seq<CheckResult>) returns (refusal: Option<Refusal>)
    ensures refusal.None? <==> (forall k | k in checks :: IsId(k.id)) && IdsApart(checks)
  {
    var seen: set<string> := {};
    for i := 0 to |checks|
      invariant forall id :: id in seen <==> exists j | 0 <= j < i :: checks[j].id == id
      invariant forall j | 0 <= j < i :: IsId(checks[j].id)
      invariant IdsApart(checks[..i])
    {
      hide IsId;
      var k := checks[i];
      assert k in checks;
      if !IsId(k.id) {
        return Some(MissingField);
      }
      if k.id in seen {
        return Some(DuplicateId);
      }
      seen := seen + {k.id};
    }
    assert checks[..|checks|] == checks;
    refusal := None;
  }

  /** Accepts exactly runs whose own fields are acceptable. */
  method ValidateRun(r: Run) returns (refusal: Option<Refusal>)
    ensures refusal.None? <==> FieldsOk(r)
  {
    hide Blank, RepoName, HexOf, Canonical, HexRevision, IdsApart, IsId;
    if Blank(r.caseId) || Blank(r.definition) || Blank(r.cell.agent) || Blank(r.issue) || Blank(r.stateDir) {
      return Some(MissingField);
    }
    if !RepoName(r.repo) || !HexOf(r.definition, 64) {
      return Some(MissingField);
    }
    if !Canonical(r.stateDir) {
      return Some(NonCanonicalStateDir);
    }
    if exists c | c in r.issue :: c == ' ' || c == '\t' || c == '\n' {
      return Some(MissingField);
    }
    if !HexRevision(r.base) {
      return Some(MutableRevision);
    }
    if r.checkedCommit == "" && |r.checks| > 0 {
      return Some(MissingField);
    }
    if r.checkedCommit != "" {
      if !HexRevision(r.checkedCommit) {
        return Some(MutableRevision);
      }
      if |r.checks| == 0 {
        return Some(MissingField);
      }
    }
    refusal := ValidateChecks(r.checks);
  }

  // ---- between runs ----

  /** Repository names are compared without regard to the case of their letters. */
  function Folded(c: char): char {
    if 'A' <= c <= 'Z' then (c as int + 32) as char else c
  }

  function Fold(s: string): string {
    seq(|s|, i requires 0 <= i < |s| => Folded(s[i]))
  }

  predicate RunsApart(runs: seq<Run>) {
    forall i, j | 0 <= i < j < |runs| ::
      && !(runs[i].cell == runs[j].cell && runs[i].caseId == runs[j].caseId)
      && Fold(runs[i].repo) != Fold(runs[j].repo)
      && !(runs[i].stateDir == runs[j].stateDir && runs[i].issue == runs[j].issue)
  }

  predicate RunsDeclared(cells: seq<Cell>, runs: seq<Run>) {
    forall r | r in runs :: FieldsOk(r) && r.cell in cells
  }

  predicate Valid(m: Manifest) {
    && !Blank(m.cohort) && !Blank(m.session)
    && |m.cells| >= 2 && CellsApart(m.cells) && (forall c | c in m.cells :: !Blank(c.agent))
    && RunsDeclared(m.cells, m.runs) && RunsApart(m.runs)
  }

  method ValidateCells(cells: seq<Cell>) returns (declared: set<Cell>, refusal: Option<Refusal>)
    ensures refusal.None? <==> CellsApart(cells) && (forall c | c in cells :: !Blank(c.agent))
    ensures refusal.None? ==> forall c :: c in declared <==> c in cells
  {
    declared := {};
    for i := 0 to |cells|
      invariant forall c :: c in declared <==> c in cells[..i]
      invariant CellsApart(cells[..i]) && (forall c | c in cells[..i] :: !Blank(c.agent))
    {
      assert cells[..i + 1] == cells[..i] + [cells[i]];
      assert cells[i] in cells;
      if Blank(cells[i].agent) {
        return declared, Some(MissingField);
      }
      if cells[i] in declared {
        return declared, Some(DuplicateCell);
      }
      declared := declared + {cells[i]};
    }
    assert cells[..|cells|] == cells;
    refusal := None;
  }

  /** The keys the runs read so far have used. */
  ghost predicate Used(runs: seq<Run>, byCase: set<(Cell, string)>, issues: set<(string, string)>, repos: set<string>,
      joins: set<(string, string)>)
  {
    && byCase == (set r | r in runs :: (r.cell, r.caseId))
    && issues == (set r | r in runs :: (Fold(r.repo), r.issue))
    && repos == (set r | r in runs :: Fold(r.repo))
    && joins == (set r | r in runs :: (r.stateDir, r.issue))
  }

  lemma UsedSnoc(runs: seq<Run>, r: Run, byCase: set<(Cell, string)>, issues: set<(string, string)>, repos: set<string>,
      joins: set<(string, string)>)
    requires Used(runs, byCase, issues, repos, joins)
    ensures Used(runs + [r], byCase + {(r.cell, r.caseId)}, issues + {(Fold(r.repo), r.issue)},
      repos + {Fold(r.repo)}, joins + {(r.stateDir, r.issue)})
  {
    hide Fold;
    assert forall x :: x in runs + [r] <==> x in runs || x == r;
  }

  /** A run is apart from the earlier ones exactly when none of its keys is used; a used issue is a used repository. */
  lemma ApartSnoc(runs: seq<Run>, r: Run, byCase: set<(Cell, string)>, issues: set<(string, string)>, repos: set<string>,
      joins: set<(string, string)>)
    requires Used(runs, byCase, issues, repos, joins) && RunsApart(runs)
    ensures (Fold(r.repo), r.issue) in issues ==> Fold(r.repo) in repos
    ensures RunsApart(runs + [r])
      <==> (r.cell, r.caseId) !in byCase && Fold(r.repo) !in repos && (r.stateDir, r.issue) !in joins
  {
    hide Fold;
    var all := runs + [r];
    forall i | 0 <= i < |runs|
      ensures all[i] == runs[i] && runs[i] in runs
    {
    }
    assert RunsApart(all) ==> forall i | 0 <= i < |runs| ::
      && !(all[i].cell == all[|runs|].cell && all[i].caseId == all[|runs|].caseId)
      && Fold(all[i].repo) != Fold(all[|runs|].repo)
      && !(all[i].stateDir == all[|runs|].stateDir && all[i].issue == all[|runs|].issue);
  }

  lemma ApartPrefix(runs: seq<Run>, n: nat)
    requires n <= |runs| && RunsApart(runs)
    ensures RunsApart(runs[..n])
  {
  }

  method ValidateRuns(runs: seq<Run>, declared: set<Cell>, ghost cells: seq<Cell>) returns (refusal: Option<Refusal>)
    requires forall c :: c in declared <==> c in cells
    ensures refusal.None? <==> RunsDeclared(cells, runs) && RunsApart(runs)
  {
    hide RunsApart, Used, Fold, FieldsOk;
    var byCase: set<(Cell, string)>, issues: set<(string, string)>, repos: set<string>, joins: set<(string, string)> := {}, {}, {}, {};
    NoRuns(runs[..0]);
    for i := 0 to |runs|
      invariant Used(runs[..i], byCase, issues, repos, joins)
      invariant RunsDeclared(cells, runs[..i]) && RunsApart(runs[..i])
    {
      var r := runs[i];
      assert runs[..i + 1] == runs[..i] + [r] && r in runs;
      ApartSnoc(runs[..i], r, byCase, issues, repos, joins);
      if RunsApart(runs) {
        ApartPrefix(runs, i + 1);
      }
      refusal := ValidateRun(r);
      if refusal.Some? {
        return;
      }
      if r.cell !in declared {
        return Some(UndeclaredCell);
      }
      if (r.cell, r.caseId) in byCase {
        return Some(DuplicateRun);
      }
      if (Fold(r.repo), r.issue) in issues {
        return Some(SharedIssue);
      }
      if Fold(r.repo) in repos {
        return Some(SharedQueue);
      }
      if (r.stateDir, r.issue) in joins {
        return Some(AmbiguousJoin);
      }
      UsedSnoc(runs[..i], r, byCase, issues, repos, joins);
      byCase := byCase + {(r.cell, r.caseId)};
      issues := issues + {(Fold(r.repo), r.issue)};
      repos := repos + {Fold(r.repo)};
      joins := joins + {(r.stateDir, r.issue)};
    }
    assert runs[..|runs|] == runs;
    refusal := None;
  }

  lemma NoRuns(none: seq<Run>)
    requires none == []
    ensures Used(none, {}, {}, {}, {}) && RunsApart(none)
  {
  }

  /** Accepts exactly the valid manifests. */
  method Validate(m: Manifest) returns (refusal: Option<Refusal>)
    ensures refusal.None? <==> Valid(m)
  {
    hide Blank, CellsApart, RunsApart, FieldsOk;
    if Blank(m.cohort) || Blank(m.session) || |m.cells| < 2 {
      return Some(MissingField);
    }
    var declared;
    declared, refusal := ValidateCells(m.cells);
    if refusal.None? {
      refusal := ValidateRuns(m.runs, declared, m.cells);
    }
  }
}
