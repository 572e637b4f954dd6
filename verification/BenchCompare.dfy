/**
The matched-case comparison: attempt records are joined to the runs of a manifest,
tallied per cell and case, and reported over the cases every declared cell ran.
*/
module BenchCompare {
  import opened Outcomes
  import opened BenchTally
  import opened BenchManifest

  datatype Case = Case(id: string, definition: string, computed: string, base: string, checks: seq<string>)

  datatype Cohort = Cohort(version: string, cases: seq<Case>)

  function FindCase(cases: seq<Case>, id: string): (r: Option<Case>)
    ensures r.Some? ==> r.value in cases && r.value.id == id
    ensures r.None? ==> forall c | c in cases :: c.id != id
  {
    if cases == [] then None else if cases[0].id == id then Some(cases[0]) else FindCase(cases[1..], id)
  }

  // ---- check evidence ----

  datatype Evidence = Evidence(recorded: bool, passed: bool, failures: seq<string>)

  function FailedIds(checks: seq<CheckResult>): seq<string> {
    if checks == [] then []
    else
      var last := checks[|checks| - 1];
      FailedIds(checks[..|checks| - 1]) + (if last.passed then [] else [last.id])
  }

  function EvidenceOf(r: Run): Evidence {
    if r.checks == [] then Evidence(false, false, [])
    else Evidence(true, forall k | k in r.checks :: k.passed, FailedIds(r.checks))
  }

  /** No check recorded, or every check of the case and no other. */
  predicate Covers(r: Run, cs: Case) {
    r.checks == [] || (
      && (forall k | k in r.checks :: k.id in cs.checks)
      && forall id | id in cs.checks :: exists k | k in r.checks :: k.id == id)
  }

  /** What the results read so far amount to. */
  ghost predicate Weighed(checks: seq<CheckResult>, seen: set<string>, passed: bool, failures: seq<string>) {
    && (forall id :: id in seen <==> exists k | k in checks :: k.id == id)
    && (passed <==> forall k | k in checks :: k.passed)
    && failures == FailedIds(checks)
  }

  lemma WeighedSnoc(checks: seq<CheckResult>, k: CheckResult, seen: set<string>, passed: bool, failures: seq<string>)
    requires Weighed(checks, seen, passed, failures)
    ensures Weighed(checks + [k], seen + {k.id}, passed && k.passed, if k.passed then failures else failures + [k.id])
  {
    assert (checks + [k])[..|checks|] == checks;
    assert forall x :: x in checks + [k] <==> x in checks || x == k;
  }

  lemma WeighedAll(r: Run, cs: Case, seen: set<string>, passed: bool, failures: seq<string>)
    requires r.checks != [] && Weighed(r.checks, seen, passed, failures)
    ensures Covers(r, cs) <==> (forall k | k in r.checks :: k.id in cs.checks) && (forall id | id in cs.checks :: id in seen)
    ensures EvidenceOf(r) == Evidence(true, passed, failures)
  {
  }

  method ValidateCheckEvidence(r: Run, cs: Case) returns (e: Option<Evidence>)
    ensures e.Some? <==> Covers(r, cs)
    ensures e.Some? ==> e.value == EvidenceOf(r)
  {
    if |r.checks| == 0 {
      return Some(Evidence(false, false, []));
    }
    assert Covers(r, cs) ==> forall k | k in r.checks :: k.id in cs.checks;
    assert Weighed([], {}, true, []);
    hide *;
    var seen: set<string>, passed, failures := {}, true, [];
    assert r.checks[..0] == [];
    for i := 0 to |r.checks|
      invariant Weighed(r.checks[..i], seen, passed, failures)
      invariant forall k | k in r.checks[..i] :: k.id in cs.checks
    {
      var k := r.checks[i];
      assert k in r.checks && r.checks[..i + 1] == r.checks[..i] + [k];
      if k.id !in cs.checks {
        return None;
      }
      WeighedSnoc(r.checks[..i], k, seen, passed, failures);
      seen := seen + {k.id};
      if !k.passed {
        passed := false;
        failures := failures + [k.id];
      }
    }
    assert r.checks[..|r.checks|] == r.checks;
    WeighedAll(r, cs, seen, passed, failures);
    for i := 0 to |cs.checks|
      invariant forall j | 0 <= j < i :: cs.checks[j] in seen
    {
      if cs.checks[i] !in seen {
        assert cs.checks[i] in cs.checks;
        return None;
      }
    }
    e := Some(Evidence(true, passed, failures));
  }

  // ---- joining runs ----

  type JoinKey = (string, string)

  function KeyOf(r: Run): JoinKey {
    (r.stateDir, r.issue)
  }

  predicate RunAccepted(c: Cohort, r: Run) {
    var found := FindCase(c.cases, r.caseId);
    && found.Some? && found.value.computed == found.value.definition
    && r.definition == found.value.computed && r.base == found.value.base && Covers(r, found.value)
  }

  /** `joins` takes each run's key to that run. */
  predicate JoinsRuns(joins: map<JoinKey, nat>, runs: seq<Run>) {
    && (forall i | 0 <= i < |runs| :: KeyOf(runs[i]) in joins && joins[KeyOf(runs[i])] == i)
    && (forall k | k in joins :: joins[k] < |runs| && KeyOf(runs[joins[k]]) == k)
  }

  predicate Evidences(evidence: seq<Evidence>, runs: seq<Run>) {
    |evidence| == |runs| && forall i | 0 <= i < |runs| :: evidence[i] == EvidenceOf(runs[i])
  }

  method JoinRuns(c: Cohort, runs: seq<Run>) returns (joins: map<JoinKey, nat>, evidence: seq<Evidence>, refusal: Option<Refusal>)
    requires RunsApart(runs)
    ensures refusal.None? <==> forall r | r in runs :: RunAccepted(c, r)
    ensures refusal.None? ==> JoinsRuns(joins, runs) && Evidences(evidence, runs)
  {
    joins, evidence := map[], [];
    for i := 0 to |runs|
      invariant JoinsRuns(joins, runs[..i]) && Evidences(evidence, runs[..i])
      invariant forall r | r in runs[..i] :: RunAccepted(c, r)
    {
      var r := runs[i];
      assert r in runs && runs[..i + 1] == runs[..i] + [r];
      var found := FindCase(c.cases, r.caseId);
      if found.None? {
        return joins, evidence, Some(UnknownCase);
      }
      var cs := found.value;
      if cs.computed != cs.definition {
        return joins, evidence, Some(DefinitionDrift);
      }
      if r.definition != cs.computed {
        return joins, evidence, Some(DefinitionMismatch);
      }
      if r.base != cs.base {
        return joins, evidence, Some(BaseMismatch);
      }
      var e := ValidateCheckEvidence(r, cs);
      if e.None? {
        return joins, evidence, Some(CheckMismatch);
      }
      evidence := evidence + [e.value];
      JoinsSnoc(joins, runs, i);
      joins := joins[KeyOf(r) := i];
    }
    assert runs[..|runs|] == runs;
    refusal := None;
  }

  lemma JoinsSnoc(joins: map<JoinKey, nat>, runs: seq<Run>, i: nat)
    requires i < |runs| && RunsApart(runs) && JoinsRuns(joins, runs[..i])
    ensures JoinsRuns(joins[KeyOf(runs[i]) := i], runs[..i + 1])
  {
    hide Fold;
    assert forall j | 0 <= j < i :: runs[..i][j] == runs[j] && runs[..i + 1][j] == runs[j];
  }

  // ---- the logs ----

  /** One state directory's records. */
  datatype Log = Log(dir: string, attempts: seq<Attempt>)

  predicate LogsApart(logs: seq<Log>) {
    forall i, j | 0 <= i < j < |logs| :: logs[i].dir != logs[j].dir
  }

  /** The logs, one per directory, in the order they are visited. */
  type Logs = l: seq<Log> | LogsApart(l)

  function OfIssue(s: seq<Attempt>, issue: string): (r: seq<Attempt>)
    ensures forall a :: a in r <==> a in s && a.issue == issue
  {
    if s == [] then []
    else
      var a := s[|s| - 1];
      assert s == s[..|s| - 1] + [a];
      OfIssue(s[..|s| - 1], issue) + (if a.issue == issue then [a] else [])
  }

  /** The records of a directory. */
  function Records(logs: seq<Log>, dir: string): seq<Attempt> {
    if logs == [] then []
    else if logs[|logs| - 1].dir == dir then logs[|logs| - 1].attempts
    else Records(logs[..|logs| - 1], dir)
  }

  /** The records a run claims: those of its issue in its directory. */
  function Joined(logs: seq<Log>, r: Run): seq<Attempt> {
    OfIssue(Records(logs, r.stateDir), r.issue)
  }

  function JoinedAll(logs: seq<Log>, runs: seq<Run>): seq<seq<Attempt>> {
    seq(|runs|, i requires 0 <= i < |runs| => Joined(logs, runs[i]))
  }

  function Total(parts: seq<seq<Attempt>>): nat {
    if parts == [] then 0 else Total(parts[..|parts| - 1]) + |parts[|parts| - 1]|
  }

  function TotalRead(logs: seq<Log>): nat {
    if logs == [] then 0 else TotalRead(logs[..|logs| - 1]) + |logs[|logs| - 1].attempts|
  }

  lemma {:induction false} TotalGrows(parts: seq<seq<Attempt>>, i: nat, a: Attempt)
    requires i < |parts|
    ensures Total(parts[i := parts[i] + [a]]) == Total(parts) + 1
  {
    var n := |parts| - 1;
    var grown := parts[i := parts[i] + [a]];
    if i < n {
      TotalGrows(parts[..n], i, a);
      assert grown[..n] == parts[..n][i := parts[i] + [a]];
    } else {
      assert grown[..n] == parts[..n];
    }
  }

  lemma {:induction false} TotalNothing(parts: seq<seq<Attempt>>)
    requires forall i | 0 <= i < |parts| :: parts[i] == []
    ensures Total(parts) == 0
  {
    if parts != [] {
      TotalNothing(parts[..|parts| - 1]);
    }
  }

  // ---- the accumulators ----

  /** A cell and a case. */
  type Slot = (Cell, string)

  function SlotOf(r: Run): Slot {
    (r.cell, r.caseId)
  }

  /** A run of this slot has records among `done`. */
  predicate Backed(runs: seq<Run>, done: seq<seq<Attempt>>, slot: Slot) {
    exists i | 0 <= i < |runs| && i < |done| :: SlotOf(runs[i]) == slot && done[i] != []
  }

  predicate Filed(buckets: map<Slot, Bucket>, counts: map<Slot, nat>, slot: Slot, b: Bucket) {
    slot in buckets && buckets[slot] == b && slot in counts && counts[slot] == 1
  }

  /** The buckets are exactly the tallies of the runs with records, one run counted in each. */
  predicate Tallied(runs: seq<Run>, done: seq<seq<Attempt>>, buckets: map<Slot, Bucket>, counts: map<Slot, nat>) {
    && |done| == |runs|
    && counts.Keys == buckets.Keys
    && (forall i | 0 <= i < |runs| && done[i] != [] :: Filed(buckets, counts, SlotOf(runs[i]), Tally(done[i], i)))
    && (forall slot | slot in buckets :: Backed(runs, done, slot))
  }

  lemma SlotsApart(runs: seq<Run>, i: nat, j: nat)
    requires RunsApart(runs) && i < |runs| && j < |runs| && SlotOf(runs[i]) == SlotOf(runs[j])
    ensures i == j
  {
    hide Fold;
  }

  lemma BackedGrows(runs: seq<Run>, done: seq<seq<Attempt>>, i: nat, a: Attempt, slot: Slot)
    requires i < |runs| == |done| && (Backed(runs, done, slot) || SlotOf(runs[i]) == slot)
    ensures Backed(runs, done[i := done[i] + [a]], slot)
  {
    var more := done[i := done[i] + [a]];
    if Backed(runs, done, slot) {
      var j :| 0 <= j < |runs| && SlotOf(runs[j]) == slot && done[j] != [];
      assert more[j] != [];
    }
    assert more[i] != [];
  }

  /** A run's bucket holds its own records alone: no other run files into it. */
  lemma AloneInBucket(runs: seq<Run>, done: seq<seq<Attempt>>, buckets: map<Slot, Bucket>, counts: map<Slot, nat>, i: nat)
    requires RunsApart(runs) && i < |runs| && Tallied(runs, done, buckets, counts)
    ensures done[i] != [] ==> Filed(buckets, counts, SlotOf(runs[i]), Tally(done[i], i))
    ensures done[i] == [] ==> SlotOf(runs[i]) !in buckets && SlotOf(runs[i]) !in counts
  {
    hide RunsApart, SlotOf, Tally;
    if SlotOf(runs[i]) in buckets {
      assert Backed(runs, done, SlotOf(runs[i]));
      var j :| 0 <= j < |runs| && SlotOf(runs[j]) == SlotOf(runs[i]) && done[j] != [];
      SlotsApart(runs, i, j);
    }
  }

  lemma EnteredIsTallied(
      runs: seq<Run>, done: seq<seq<Attempt>>, buckets: map<Slot, Bucket>, counts: map<Slot, nat>, i: nat, a: Attempt)
    requires RunsApart(runs) && i < |runs| && Tallied(runs, done, buckets, counts)
    ensures Tallied(runs, done[i := done[i] + [a]],
      buckets[SlotOf(runs[i]) := Tally(done[i] + [a], i)], counts[SlotOf(runs[i]) := 1])
  {
    hide RunsApart, SlotOf, Tally, Backed;
    var more, b := done[i := done[i] + [a]], Tally(done[i] + [a], i);
    var buckets', counts' := buckets[SlotOf(runs[i]) := b], counts[SlotOf(runs[i]) := 1];
    forall j | 0 <= j < |runs| && more[j] != []
      ensures Filed(buckets', counts', SlotOf(runs[j]), Tally(more[j], j))
    {
      if SlotOf(runs[i]) == SlotOf(runs[j]) {
        SlotsApart(runs, i, j);
      } else {
        assert Filed(buckets, counts, SlotOf(runs[j]), Tally(done[j], j));
      }
    }
    forall slot | slot in buckets'
      ensures Backed(runs, more, slot)
    {
      BackedGrows(runs, done, i, a, slot);
    }
  }

  /** A slot not counted yet reads as zero. */
  function CountAt(counts: map<Slot, nat>, slot: Slot): nat {
    if slot in counts then counts[slot] else 0
  }

  lemma SeenInTally(s: seq<Attempt>, run: nat)
    ensures Tally(s, run).runsSeen == if s == [] then {} else {run}
    ensures s == [] ==> Tally(s, run) == EMPTY
  {
  }

  function BucketAt(buckets: map<Slot, Bucket>, slot: Slot): Bucket {
    if slot in buckets then buckets[slot] else EMPTY
  }

  lemma EnterLands(runs: seq<Run>, done: seq<seq<Attempt>>, buckets: map<Slot, Bucket>, counts: map<Slot, nat>, i: nat, a: Attempt)
    requires RunsApart(runs) && i < |runs| && Tallied(runs, done, buckets, counts)
    ensures
      var slot := SlotOf(runs[i]);
      var b := BucketAt(buckets, slot);
      && b.runsSeen == (if i in b.runsSeen then {i} else {})
      && CountAt(counts, slot) == (if i in b.runsSeen then 1 else 0)
      && Tallied(runs, done[i := done[i] + [a]], buckets[slot := Add(b.(runsSeen := {i}), a, i)], counts[slot := 1])
  {
    AloneInBucket(runs, done, buckets, counts, i);
    EnteredIsTallied(runs, done, buckets, counts, i, a);
    SeenInTally(done[i], i);
    TallySnoc(done[i], a, i);
    hide Tallied, RunsApart, Add, SlotOf, Tally;
    assert BucketAt(buckets, SlotOf(runs[i])) == Tally(done[i], i);
  }

  /** One record is added to the tally of its run. */
  method Enter(runs: seq<Run>, ghost done: seq<seq<Attempt>>, buckets: map<Slot, Bucket>, counts: map<Slot, nat>, i: nat, a: Attempt)
      returns (buckets': map<Slot, Bucket>, counts': map<Slot, nat>)
    requires RunsApart(runs) && i < |runs| && Tallied(runs, done, buckets, counts)
    ensures Tallied(runs, done[i := done[i] + [a]], buckets', counts')
  {
    hide *;
    EnterLands(runs, done, buckets, counts, i, a);
    var slot := SlotOf(runs[i]);
    var b := BucketAt(buckets, slot);
    var n := CountAt(counts, slot);
    if i !in b.runsSeen {
      b := b.(runsSeen := b.runsSeen + {i});
      n := n + 1;
    }
    assert b.runsSeen == {i} && b == BucketAt(buckets, slot).(runsSeen := {i});
    buckets' := buckets[slot := Add(b, a, i)];
    counts' := counts[slot := n];
  }

  // ---- reading the logs ----

  datatype Book = Book(
    buckets: map<Slot, Bucket>, counts: map<Slot, nat>, seen: seq<bool>, published: seq<bool>,
    read: nat, joined: nat, unjoined: nat)

  predicate Flagged(done: seq<seq<Attempt>>, seen: seq<bool>, published: seq<bool>) {
    && |seen| == |done| == |published|
    && (forall i | 0 <= i < |done| :: seen[i] <==> done[i] != [])
    && (forall i | 0 <= i < |done| :: published[i] <==> AnyPublished(done[i]))
  }

  /** The book is what reading `done` amounts to; every record read is joined or unjoined. */
  predicate Kept(runs: seq<Run>, done: seq<seq<Attempt>>, book: Book) {
    && Tallied(runs, done, book.buckets, book.counts)
    && Flagged(done, book.seen, book.published)
    && book.joined == Total(done) && book.read == book.joined + book.unjoined
  }

  lemma FlagsGrow(done: seq<seq<Attempt>>, seen: seq<bool>, published: seq<bool>, i: nat, a: Attempt)
    requires Flagged(done, seen, published) && i < |done|
    ensures Flagged(done[i := done[i] + [a]], seen[i := true], published[i := published[i] || a.Published()])
  {
    assert a in done[i] + [a];
  }

  /** What a run's records become once `s` has been read from `dir`. */
  function Extended(runs: seq<Run>, done: seq<seq<Attempt>>, dir: string, s: seq<Attempt>): seq<seq<Attempt>>
    requires |done| == |runs|
  {
    seq(|runs|, i requires 0 <= i < |runs| =>
      done[i] + if runs[i].stateDir == dir then OfIssue(s, runs[i].issue) else [])
  }

  lemma OfIssueSnoc(s: seq<Attempt>, a: Attempt, issue: string)
    ensures OfIssue(s + [a], issue) == OfIssue(s, issue) + if a.issue == issue then [a] else []
  {
    assert (s + [a])[..|s|] == s;
  }

  lemma ExtendedSnoc(runs: seq<Run>, joins: map<JoinKey, nat>, done: seq<seq<Attempt>>, dir: string, s: seq<Attempt>, a: Attempt)
    requires |done| == |runs| && RunsApart(runs) && JoinsRuns(joins, runs)
    ensures
      var before := Extended(runs, done, dir, s);
      Extended(runs, done, dir, s + [a])
        == if (dir, a.issue) in joins then
             before[joins[(dir, a.issue)] := before[joins[(dir, a.issue)]] + [a]]
           else before
  {
    var before, after := Extended(runs, done, dir, s), Extended(runs, done, dir, s + [a]);
    hide RunsApart, OfIssue;
    forall i | 0 <= i < |runs|
      ensures after[i] == if KeyOf(runs[i]) == (dir, a.issue) then before[i] + [a] else before[i]
    {
      OfIssueSnoc(s, a, runs[i].issue);
    }
  }

  /** The records `s` of `dir` that a run claims name the run's own cell. */
  predicate CellsAgree(runs: seq<Run>, dir: string, s: seq<Attempt>) {
    forall r, a | r in runs && a in s && KeyOf(r) == (dir, a.issue) :: a.cell == r.cell
  }

  lemma AgreeSnoc(runs: seq<Run>, joins: map<JoinKey, nat>, dir: string, s: seq<Attempt>, a: Attempt)
    requires JoinsRuns(joins, runs) && CellsAgree(runs, dir, s)
    ensures CellsAgree(runs, dir, s + [a])
      <==> ((dir, a.issue) in joins ==> a.cell == runs[joins[(dir, a.issue)]].cell)
  {
    assert a in s + [a];
    assert forall x :: x in s + [a] <==> x in s || x == a;
  }

  lemma AgreePrefix(runs: seq<Run>, dir: string, s: seq<Attempt>, k: nat)
    requires k <= |s| && CellsAgree(runs, dir, s)
    ensures CellsAgree(runs, dir, s[..k])
  {
  }

  /** One record claimed by run `i` is entered in the book. */
  method Join(runs: seq<Run>, book: Book, i: nat, a: Attempt, ghost now: seq<seq<Attempt>>) returns (book': Book)
    requires RunsApart(runs) && i < |runs| && Kept(runs, now, book)
    ensures Kept(runs, now[i := now[i] + [a]], book') && book'.read == book.read + 1
  {
    hide RunsApart;
    SizeOf(runs, now, book);
    TotalGrows(now, i, a);
    FlagsGrow(now, book.seen, book.published, i, a);
    hide Tallied, Flagged, Total;
    var buckets, counts := Enter(runs, now, book.buckets, book.counts, i, a);
    book' := Book(
      buckets, counts, book.seen[i := true], book.published[i := book.published[i] || a.Published()],
      book.read + 1, book.joined + 1, book.unjoined);
  }

  lemma Skips(runs: seq<Run>, now: seq<seq<Attempt>>, book: Book)
    requires Kept(runs, now, book)
    ensures Kept(runs, now, book.(read := book.read + 1, unjoined := book.unjoined + 1)) && |now| == |runs|
  {
  }

  lemma NothingYet(runs: seq<Run>, done: seq<seq<Attempt>>, book: Book, dir: string)
    requires Kept(runs, done, book)
    ensures |done| == |runs| && Extended(runs, done, dir, []) == done && CellsAgree(runs, dir, [])
  {
    hide Tally;
    assert forall i | 0 <= i < |runs| :: Extended(runs, done, dir, [])[i] == done[i];
  }

  lemma JoinedRun(joins: map<JoinKey, nat>, runs: seq<Run>, k: JoinKey)
    requires JoinsRuns(joins, runs) && k in joins
    ensures joins[k] < |runs|
  {
  }

  method ReadLog(runs: seq<Run>, joins: map<JoinKey, nat>, log: Log, book: Book, ghost done: seq<seq<Attempt>>)
      returns (book': Book, ok: bool)
    requires RunsApart(runs) && JoinsRuns(joins, runs) && Kept(runs, done, book)
    ensures ok <==> CellsAgree(runs, log.dir, log.attempts)
    ensures ok ==> Kept(runs, Extended(runs, done, log.dir, log.attempts), book')
    ensures ok ==> book'.read == book.read + |log.attempts|
  {
    hide RunsApart, JoinsRuns, Kept, Extended, OfIssue, CellsAgree;
    book' := book;
    NothingYet(runs, done, book, log.dir);
    assert log.attempts[..0] == [];
    for k := 0 to |log.attempts|
      invariant CellsAgree(runs, log.dir, log.attempts[..k])
      invariant Kept(runs, Extended(runs, done, log.dir, log.attempts[..k]), book')
      invariant book'.read == book.read + k
    {
      var a := log.attempts[k];
      assert log.attempts[..k + 1] == log.attempts[..k] + [a];
      AgreeSnoc(runs, joins, log.dir, log.attempts[..k], a);
      ExtendedSnoc(runs, joins, done, log.dir, log.attempts[..k], a);
      ghost var now := Extended(runs, done, log.dir, log.attempts[..k]);
      if (log.dir, a.issue) !in joins {
        Skips(runs, now, book');
        book' := book'.(read := book'.read + 1, unjoined := book'.unjoined + 1);
      } else {
        var i := joins[(log.dir, a.issue)];
        JoinedRun(joins, runs, (log.dir, a.issue));
        if a.cell != runs[i].cell {
          if CellsAgree(runs, log.dir, log.attempts) {
            AgreePrefix(runs, log.dir, log.attempts, k + 1);
          }
          return book', false;
        }
        book' := Join(runs, book', i, a, now);
      }
    }
    assert log.attempts[..|log.attempts|] == log.attempts;
    ok := true;
  }

  lemma SizeOf(runs: seq<Run>, done: seq<seq<Attempt>>, book: Book)
    requires Tallied(runs, done, book.buckets, book.counts) && Flagged(done, book.seen, book.published)
    ensures |done| == |runs| == |book.seen| == |book.published|
  {
  }

  lemma {:induction false} NoRecords(logs: seq<Log>, dir: string)
    requires forall l | l in logs :: l.dir != dir
    ensures Records(logs, dir) == []
  {
    if logs != [] {
      var n := |logs| - 1;
      assert logs[n] in logs;
      assert forall l | l in logs[..n] :: l in logs;
      NoRecords(logs[..n], dir);
    }
  }

  lemma JoinedSnoc(runs: seq<Run>, logs: Logs, k: nat)
    requires k < |logs|
    ensures Extended(runs, JoinedAll(logs[..k], runs), logs[k].dir, logs[k].attempts) == JoinedAll(logs[..k + 1], runs)
  {
    assert logs[..k + 1][..k] == logs[..k];
    assert forall l | l in logs[..k] :: l.dir != logs[k].dir;
    NoRecords(logs[..k], logs[k].dir);
    forall i | 0 <= i < |runs|
      ensures Extended(runs, JoinedAll(logs[..k], runs), logs[k].dir, logs[k].attempts)[i] == JoinedAll(logs[..k + 1], runs)[i]
    {
      assert logs[..k + 1][k] == logs[k];
    }
  }

  lemma NothingRead(runs: seq<Run>, none: seq<bool>)
    requires |none| == |runs| && forall i | 0 <= i < |none| :: !none[i]
    ensures Kept(runs, JoinedAll([], runs), Book(map[], map[], none, none, 0, 0, 0))
    ensures LogsAgree(runs, []) && TotalRead([]) == 0
  {
    var done := JoinedAll([], runs);
    assert forall i | 0 <= i < |done| :: done[i] == [] && !AnyPublished(done[i]);
    TotalNothing(done);
  }

  predicate LogsAgree(runs: seq<Run>, logs: seq<Log>) {
    forall l | l in logs :: Canonical(l.dir) && CellsAgree(runs, l.dir, l.attempts)
  }

  lemma LogsSnoc(runs: seq<Run>, logs: seq<Log>, k: nat)
    requires k < |logs|
    ensures LogsAgree(runs, logs[..k + 1])
      <==> LogsAgree(runs, logs[..k]) && Canonical(logs[k].dir) && CellsAgree(runs, logs[k].dir, logs[k].attempts)
    ensures LogsAgree(runs, logs) ==> Canonical(logs[k].dir) && CellsAgree(runs, logs[k].dir, logs[k].attempts)
    ensures TotalRead(logs[..k + 1]) == TotalRead(logs[..k]) + |logs[k].attempts|
  {
    hide CellsAgree;
    assert logs[..k + 1] == logs[..k] + [logs[k]] && logs[k] in logs && logs[..k + 1][..k] == logs[..k];
  }

  method ReadLogs(runs: seq<Run>, joins: map<JoinKey, nat>, logs: Logs) returns (book: Book, refusal: Option<Refusal>)
    requires RunsApart(runs) && JoinsRuns(joins, runs)
    ensures refusal.None? <==> LogsAgree(runs, logs)
    ensures refusal.None? ==> Kept(runs, JoinedAll(logs, runs), book) && book.read == TotalRead(logs)
  {
    hide *;
    var none := seq(|runs|, _ => false);
    book := Book(map[], map[], none, none, 0, 0, 0);
    NothingRead(runs, none);
    assert logs[..0] == [];
    for k := 0 to |logs|
      invariant LogsAgree(runs, logs[..k])
      invariant Kept(runs, JoinedAll(logs[..k], runs), book)
      invariant book.read == TotalRead(logs[..k])
    {
      LogsSnoc(runs, logs, k);
      if !Canonical(logs[k].dir) {
        return book, Some(NonCanonicalStateDir);
      }
      var ok;
      book, ok := ReadLog(runs, joins, logs[k], book, JoinedAll(logs[..k], runs));
      if !ok {
        return book, Some(CellMismatch);
      }
      JoinedSnoc(runs, logs, k);
    }
    assert logs[..|logs|] == logs;
    refusal := None;
  }

  // ---- one case in one cell ----

  /** The run of a slot: no two share one. */
  function FindRun(runs: seq<Run>, slot: Slot): (r: Option<nat>)
    ensures r.Some? ==> r.value < |runs| && SlotOf(runs[r.value]) == slot
    ensures r.None? ==> forall i | 0 <= i < |runs| :: SlotOf(runs[i]) != slot
  {
    if runs == [] then None
    else if SlotOf(runs[|runs| - 1]) == slot then Some(|runs| - 1)
    else FindRun(runs[..|runs| - 1], slot)
  }

  lemma FoundRun(runs: seq<Run>, i: nat)
    requires RunsApart(runs) && i < |runs|
    ensures FindRun(runs, SlotOf(runs[i])) == Some(i)
  {
    hide RunsApart, SlotOf;
    var found := FindRun(runs, SlotOf(runs[i]));
    assert found.Some?;
    SlotsApart(runs, found.value, i);
  }

  datatype Status = NotPublished | Unchecked | Failed | Passed

  datatype CaseResult = CaseResult(caseId: string, status: Status, attempts: nat, duration: int, verdict: Last, failure: Last)

  function StatusOf(r: Run, records: seq<Attempt>): Status {
    if !AnyPublished(records) then NotPublished
    else if r.checks == [] then Unchecked
    else if forall k | k in r.checks :: k.passed then Passed
    else Failed
  }

  function Bag(ids: seq<string>): multiset<string> {
    multiset(ids)
  }

  /** Everything a cell's figures take from one case: its row, its sums and its named counts. */
  datatype Share = Share(
    row: CaseResult, figures: Figures, failures: multiset<string>, verdicts: multiset<string>, checkFailures: multiset<string>)

  /** What run `i` contributes, told by its records and its checks alone. */
  function ShareOf(runs: seq<Run>, done: seq<seq<Attempt>>, i: nat): Share
    requires i < |runs| == |done|
  {
    var s, r := done[i], runs[i];
    Share(
      CaseResult(r.caseId, StatusOf(r, s), |s|, SumFigures(s).duration, LastOf(Verdicts, s, i), LastOf(Failures, s, i)),
      SumFigures(s), Texts(Failures, s), Texts(Verdicts, s),
      if StatusOf(r, s).Failed? then Bag(FailedIds(r.checks)) else multiset{})
  }

  datatype CheckSummary = CheckSummary(status: Status, passedRuns: nat, failedRuns: nat, uncheckedRuns: nat, failures: multiset<string>)

  const NO_SUMMARY := CheckSummary(NotPublished, 0, 0, 0, multiset{})

  function SummaryOf(e: Evidence): CheckSummary {
    if !e.recorded then CheckSummary(Unchecked, 0, 0, 1, multiset{})
    else if e.passed then CheckSummary(Passed, 1, 0, 0, multiset{})
    else CheckSummary(Failed, 0, 1, 0, Bag(e.failures))
  }

  /** A published case has the checks of a run that published it; an unpublished one has none. */
  method SummarizeChecks(b: Bucket, evidence: seq<Evidence>) returns (s: CheckSummary)
    requires b.published ==> b.publishedBy != {} && forall i | i in b.publishedBy :: i < |evidence|
    ensures !b.published ==> s == NO_SUMMARY
    ensures b.published ==> exists i | i in b.publishedBy :: s == SummaryOf(evidence[i])
  {
    s := NO_SUMMARY;
    if !b.published {
      return;
    }
    var i :| i in b.publishedBy;
    var e := evidence[i];
    if !e.recorded {
      s := s.(uncheckedRuns := 1, status := Unchecked);
    } else if e.passed {
      s := s.(passedRuns := 1, status := Passed);
    } else {
      s := s.(failedRuns := 1, status := Failed);
      for k := 0 to |e.failures|
        invariant s == CheckSummary(Failed, 0, 1, 0, Bag(e.failures[..k]))
      {
        assert e.failures[..k + 1] == e.failures[..k] + [e.failures[k]];
        s := s.(failures := s.failures + multiset{e.failures[k]});
      }
      assert e.failures[..|e.failures|] == e.failures;
    }
  }

  function ShareFrom(id: string, b: Bucket, s: CheckSummary): Share {
    Share(CaseResult(id, s.status, b.attempts, b.figures.duration, b.lastVerdict, b.lastFailure),
      b.figures, b.failures, b.verdicts, s.failures)
  }

  predicate Consistent(b: Bucket, s: CheckSummary) {
    && b.publishedRuns == (if b.published then 1 else 0) && (s.status.NotPublished? <==> !b.published)
    && s.passedRuns == (if s.status.Passed? then 1 else 0) && s.failedRuns == (if s.status.Failed? then 1 else 0)
    && s.uncheckedRuns == (if s.status.Unchecked? then 1 else 0)
  }

  lemma ShareIsOf(runs: seq<Run>, done: seq<seq<Attempt>>, i: nat, s: CheckSummary)
    requires i < |runs| == |done|
    requires s == if AnyPublished(done[i]) then SummaryOf(EvidenceOf(runs[i])) else NO_SUMMARY
    ensures ShareFrom(runs[i].caseId, Tally(done[i], i), s) == ShareOf(runs, done, i)
    ensures Consistent(Tally(done[i], i), s)
  {
    hide SumFigures, Texts, LastOf, AnyPublished, FailedIds;
  }

  // ---- one cell ----

  datatype CellResult = CellResult(
    cell: Cell, cases: nat, publishedCases: nat, passedCases: nat, failedCases: nat, uncheckedCases: nat,
    runs: nat, publishedRuns: nat, passedRuns: nat, failedRuns: nat, uncheckedRuns: nat,
    attempts: nat, attemptsToPublish: nat, figures: Figures,
    failures: multiset<string>, verdicts: multiset<string>, checkFailures: multiset<string>, results: seq<CaseResult>)

  function NoResult(cell: Cell): CellResult {
    CellResult(cell, 0, 0, 0, 0, 0, 0, 0, 0, 0, 0, 0, 0, NOTHING, multiset{}, multiset{}, multiset{}, [])
  }

  function Bump(n: nat, yes: bool): nat {
    if yes then n + 1 else n
  }

  /** A cell's figures over the given shares: each one a count or a sum over them. */
  function Row(cell: Cell, shares: seq<Share>): CellResult {
    if shares == [] then NoResult(cell)
    else
      var before, share := Row(cell, shares[..|shares| - 1]), shares[|shares| - 1];
      var status := share.row.status;
      CellResult(cell, before.cases + 1, Bump(before.publishedCases, !status.NotPublished?),
        Bump(before.passedCases, status.Passed?), Bump(before.failedCases, status.Failed?), Bump(before.uncheckedCases, status.Unchecked?),
        before.runs + 1, Bump(before.publishedRuns, !status.NotPublished?),
        Bump(before.passedRuns, status.Passed?), Bump(before.failedRuns, status.Failed?), Bump(before.uncheckedRuns, status.Unchecked?),
        before.attempts + share.row.attempts,
        if status.NotPublished? then before.attemptsToPublish else before.attemptsToPublish + share.row.attempts,
        before.figures.Plus(share.figures), before.failures + share.failures, before.verdicts + share.verdicts,
        before.checkFailures + share.checkFailures, before.results + [share.row])
  }

  /** One denominator, one run to a case, and published cases in three parts. */
  lemma {:induction false} RowConserves(cell: Cell, shares: seq<Share>)
    ensures
      var row := Row(cell, shares);
      && row.cell == cell && row.cases == row.runs == |shares| == |row.results|
      && row.publishedCases == row.publishedRuns == row.passedCases + row.failedCases + row.uncheckedCases <= row.cases
      && row.passedRuns == row.passedCases && row.failedRuns == row.failedCases && row.uncheckedRuns == row.uncheckedCases
      && row.attemptsToPublish <= row.attempts
      && forall k | 0 <= k < |shares| :: row.results[k] == shares[k].row
  {
    if shares != [] {
      RowConserves(cell, shares[..|shares| - 1]);
    }
  }

  /** The shares of a cell in the given cases, in order. */
  function SharesOf(runs: seq<Run>, done: seq<seq<Attempt>>, cell: Cell, ids: seq<string>): seq<Share>
    requires |done| == |runs|
  {
    if ids == [] then []
    else
      var n := |ids| - 1;
      SharesOf(runs, done, cell, ids[..n])
      + (match FindRun(runs, (cell, ids[n]))
         case Some(i) => [ShareOf(runs, done, i)]
         case None => [])
  }

  /** One matched case added to a cell's figures. */
  function Counted(res: CellResult, id: string, b: Bucket, n: nat, s: CheckSummary): CellResult {
    var published := b.published;
    CellResult(res.cell, res.cases + 1, Bump(res.publishedCases, published),
      Bump(res.passedCases, s.status.Passed?), Bump(res.failedCases, s.status.Failed?), Bump(res.uncheckedCases, s.status.Unchecked?),
      res.runs + n, if published then res.publishedRuns + b.publishedRuns else res.publishedRuns,
      res.passedRuns + s.passedRuns, res.failedRuns + s.failedRuns, res.uncheckedRuns + s.uncheckedRuns,
      res.attempts + b.attempts, if published then res.attemptsToPublish + b.attempts else res.attemptsToPublish,
      res.figures.Plus(b.figures), res.failures + b.failures, res.verdicts + b.verdicts, res.checkFailures + s.failures,
      res.results + [ShareFrom(id, b, s).row])
  }

  lemma CountedIsRow(cell: Cell, shares: seq<Share>, id: string, b: Bucket, s: CheckSummary)
    requires Consistent(b, s)
    ensures Row(cell, shares + [ShareFrom(id, b, s)]) == Counted(Row(cell, shares), id, b, 1, s)
  {
    var more := shares + [ShareFrom(id, b, s)];
    assert more[..|more| - 1] == shares;
    RowConserves(cell, shares);
  }

  /** The bucket of a backed slot is there, and holds the tally of the one run behind it. */
  lemma BucketFound(
      runs: seq<Run>, done: seq<seq<Attempt>>, buckets: map<Slot, Bucket>, counts: map<Slot, nat>, evidence: seq<Evidence>, slot: Slot)
      returns (i: nat)
    requires RunsApart(runs) && Tallied(runs, done, buckets, counts) && Evidences(evidence, runs) && Backed(runs, done, slot)
    ensures i < |runs| && |done| == |runs| && SlotOf(runs[i]) == slot && FindRun(runs, slot) == Some(i)
    ensures slot in buckets && slot in counts && counts[slot] == 1 && buckets[slot] == Tally(done[i], i)
    ensures i < |evidence| && evidence[i] == EvidenceOf(runs[i])
  {
    hide RunsApart, Tally, EvidenceOf;
    i :| 0 <= i < |runs| && SlotOf(runs[i]) == slot && done[i] != [];
    assert Filed(buckets, counts, slot, Tally(done[i], i));
    FoundRun(runs, i);
  }

  lemma SharesSnoc(runs: seq<Run>, done: seq<seq<Attempt>>, cell: Cell, ids: seq<string>, k: nat, i: nat)
    requires |done| == |runs| && k < |ids| && i < |runs| && FindRun(runs, (cell, ids[k])) == Some(i)
    ensures SharesOf(runs, done, cell, ids[..k + 1]) == SharesOf(runs, done, cell, ids[..k]) + [ShareOf(runs, done, i)]
  {
    hide ShareOf, FindRun;
    assert ids[..k + 1][..k] == ids[..k];
  }

  lemma PublishedInTally(records: seq<Attempt>, run: nat)
    ensures Tally(records, run).published <==> AnyPublished(records)
    ensures Tally(records, run).publishedBy == if AnyPublished(records) then {run} else {}
  {
  }

  lemma SlotIs(r: Run)
    ensures SlotOf(r) == (r.cell, r.caseId)
  {
  }

  lemma TalliedSize(runs: seq<Run>, done: seq<seq<Attempt>>, buckets: map<Slot, Bucket>, counts: map<Slot, nat>)
    requires Tallied(runs, done, buckets, counts)
    ensures |done| == |runs|
  {
  }

  method SummarizeCell(
      runs: seq<Run>, ghost done: seq<seq<Attempt>>, buckets: map<Slot, Bucket>, counts: map<Slot, nat>, evidence: seq<Evidence>,
      cell: Cell, ids: seq<string>) returns (res: CellResult)
    requires RunsApart(runs) && Tallied(runs, done, buckets, counts) && Evidences(evidence, runs)
    requires forall id | id in ids :: Backed(runs, done, (cell, id))
    ensures |done| == |runs| && res == Row(cell, SharesOf(runs, done, cell, ids))
  {
    hide *;
    TalliedSize(runs, done, buckets, counts);
    res := NoResult(cell);
    NoShares(runs, done, cell);
    assert ids[..0] == [];
    for k := 0 to |ids|
      invariant res == Row(cell, SharesOf(runs, done, cell, ids[..k]))
    {
      var id := ids[k];
      assert id in ids;
      ghost var i := BucketFound(runs, done, buckets, counts, evidence, (cell, id));
      SlotIs(runs[i]);
      var b := buckets[(cell, id)];
      PublishedInTally(done[i], i);
      var s := SummarizeChecks(b, evidence);
      ShareIsOf(runs, done, i, s);
      SharesSnoc(runs, done, cell, ids, k, i);
      CountedIsRow(cell, SharesOf(runs, done, cell, ids[..k]), id, b, s);
      res := Counted(res, id, b, counts[(cell, id)], s);
    }
    assert ids[..|ids|] == ids;
  }

  lemma NoShares(runs: seq<Run>, done: seq<seq<Attempt>>, cell: Cell)
    requires |done| == |runs|
    ensures Row(cell, SharesOf(runs, done, cell, [])) == NoResult(cell)
  {
  }

  /** A case every declared cell has records for. */
  predicate Matched(cells: seq<Cell>, runs: seq<Run>, done: seq<seq<Attempt>>, id: string) {
    forall cell | cell in cells :: Backed(runs, done, (cell, id))
  }

  datatype Coverage = Coverage(caseId: string, matched: bool, cells: seq<Cell>)

  datatype Report = Report(
    expectedCells: seq<Cell>, cellsWithoutRuns: seq<Cell>, matched: seq<string>, coverage: seq<Coverage>, cells: seq<CellResult>,
    read: nat, joined: nat, unjoined: nat, runsWithoutAttempts: seq<nat>)
}
