/**
The tally of one cell's attempts on one case, and what it amounts to whatever
order the attempt records were read in.
*/
module BenchTally {
  const PUBLISHED := "published"

  datatype Cell = Cell(agent: string, model: string)

  /** An attempt record. `priced` says it reported a cost. */
  datatype Attempt = Attempt(
    issue: string, cell: Cell, number: int, ended: int, duration: int, ran: bool, priced: bool, input: int, output: int,
    verdict: string, failure: string)
  {
    predicate Published() { verdict == PUBLISHED }
  }

  // ---- the last value ----

  datatype Last = Unset | Last(value: string, ended: int, run: nat, attempt: int)

  /** A record keyed (end, run, attempt number) yields only to a strictly later one. */
  function Consider(v: Last, value: string, a: Attempt, run: nat): Last {
    if v.Last? && a.ended < v.ended then v
    else if v.Last? && a.ended == v.ended && run < v.run then v
    else if v.Last? && a.ended == v.ended && run == v.run && a.number < v.attempt then v
    else Last(value, a.ended, run, a.number)
  }

  predicate NotAfter(p: Last, q: Last)
    requires p.Last? && q.Last?
  {
    p.ended < q.ended || (p.ended == q.ended && (p.run < q.run || (p.run == q.run && p.attempt <= q.attempt)))
  }

  /** Which of a record's two texts is followed. */
  datatype Kind = Verdicts | Failures

  function TextOf(kind: Kind, a: Attempt): string {
    if kind.Verdicts? then a.verdict else a.failure
  }

  function Entry(kind: Kind, a: Attempt, run: nat): Last {
    Last(TextOf(kind, a), a.ended, run, a.number)
  }

  /** The last non-empty text, reading the records in order. */
  function LastOf(kind: Kind, s: seq<Attempt>, run: nat): Last {
    if s == [] then Unset
    else
      var a := s[|s| - 1];
      var before := LastOf(kind, s[..|s| - 1], run);
      if TextOf(kind, a) == "" then before else Consider(before, TextOf(kind, a), a, run)
  }

  lemma {:induction false} LastIsGreatest(kind: Kind, s: seq<Attempt>, run: nat)
    ensures LastOf(kind, s, run).Unset? <==> forall a | a in s :: TextOf(kind, a) == ""
    ensures LastOf(kind, s, run).Last? ==>
      && (exists a | a in s :: TextOf(kind, a) != "" && LastOf(kind, s, run) == Entry(kind, a, run))
      && forall a | a in s && TextOf(kind, a) != "" :: NotAfter(Entry(kind, a, run), LastOf(kind, s, run))
  {
    if s != [] {
      var before, a := s[..|s| - 1], s[|s| - 1];
      LastIsGreatest(kind, before, run);
      assert forall x :: x in s <==> x in before || x == a by {
        assert s == before + [a];
      }
    }
  }

  /** Two records with a text and the same key have the same text. */
  predicate KeysApart(kind: Kind, s: seq<Attempt>) {
    forall a, b | a in s && b in s && TextOf(kind, a) != "" && TextOf(kind, b) != "" && a.ended == b.ended && a.number == b.number ::
      TextOf(kind, a) == TextOf(kind, b)
  }

  /** With distinct keys, the last value does not depend on the order the records are read in. */
  lemma LastIgnoresOrder(kind: Kind, s: seq<Attempt>, t: seq<Attempt>, run: nat)
    requires multiset(s) == multiset(t) && KeysApart(kind, s)
    ensures LastOf(kind, s, run) == LastOf(kind, t, run)
  {
    LastIsGreatest(kind, s, run);
    LastIsGreatest(kind, t, run);
    assert forall a :: a in s <==> a in multiset(s);
    assert forall a :: a in t <==> a in multiset(t);
    var p, q := LastOf(kind, s, run), LastOf(kind, t, run);
    assert p.Last? <==> q.Last?;
    if p.Last? {
      var a :| a in s && TextOf(kind, a) != "" && p == Entry(kind, a, run);
      var b :| b in t && TextOf(kind, b) != "" && q == Entry(kind, b, run);
      assert NotAfter(Entry(kind, b, run), p) && NotAfter(Entry(kind, a, run), q);
    }
  }

  // ---- sums over records ----

  /** What simply adds up: launched and unpriced attempts, tokens each way, wall clock. */
  datatype Figures = Figures(ran: nat, unpriced: nat, input: int, output: int, duration: int) {
    function Plus(other: Figures): Figures {
      Figures(ran + other.ran, unpriced + other.unpriced, input + other.input, output + other.output, duration + other.duration)
    }
  }

  const NOTHING := Figures(0, 0, 0, 0, 0)

  /** Only a launched attempt can be unpriced. */
  function FiguresOf(a: Attempt): Figures {
    Figures(if a.ran then 1 else 0, if a.ran && !a.priced then 1 else 0, a.input, a.output, a.duration)
  }

  function SumFigures(s: seq<Attempt>): Figures {
    if s == [] then NOTHING else SumFigures(s[..|s| - 1]).Plus(FiguresOf(s[|s| - 1]))
  }

  function Named(text: string): multiset<string> {
    if text == "" then multiset{} else multiset{text}
  }

  /** How often each non-empty text occurs. */
  function Texts(kind: Kind, s: seq<Attempt>): multiset<string> {
    if s == [] then multiset{} else Texts(kind, s[..|s| - 1]) + Named(TextOf(kind, s[|s| - 1]))
  }

  lemma SumSnoc(s: seq<Attempt>, a: Attempt)
    ensures SumFigures(s + [a]) == SumFigures(s).Plus(FiguresOf(a))
  {
    assert (s + [a])[..|s|] == s;
  }

  lemma TextsSnoc(kind: Kind, s: seq<Attempt>, a: Attempt)
    ensures Texts(kind, s + [a]) == Texts(kind, s) + Named(TextOf(kind, a))
  {
    assert (s + [a])[..|s|] == s;
  }

  lemma Regroup(a: seq<Attempt>, b: seq<Attempt>, c: seq<Attempt>)
    ensures a + (b + c) == (a + b) + c
  {
  }

  lemma {:induction false} SumSplit(s: seq<Attempt>, t: seq<Attempt>)
    ensures SumFigures(s + t) == SumFigures(s).Plus(SumFigures(t))
    decreases |t|
  {
    if t == [] {
      assert s + t == s;
    } else {
      var front, last := t[..|t| - 1], t[|t| - 1];
      hide SumFigures, FiguresOf;
      SumSplit(s, front);
      assert t == front + [last];
      Regroup(s, front, [last]);
      SumSnoc(front, last);
      SumSnoc(s + front, last);
    }
  }

  lemma Gather(a: multiset<string>, b: multiset<string>, c: multiset<string>)
    ensures a + (b + c) == (a + b) + c
  {
  }

  lemma {:induction false} TextsSplit(kind: Kind, s: seq<Attempt>, t: seq<Attempt>)
    ensures Texts(kind, s + t) == Texts(kind, s) + Texts(kind, t)
    decreases |t|
  {
    if t == [] {
      assert s + t == s;
    } else {
      var front, last := t[..|t| - 1], t[|t| - 1];
      hide Texts, Named;
      TextsSplit(kind, s, front);
      assert t == front + [last];
      Regroup(s, front, [last]);
      TextsSnoc(kind, front, last);
      TextsSnoc(kind, s + front, last);
      Gather(Texts(kind, s), Texts(kind, front), Named(TextOf(kind, last)));
    }
  }

  lemma SumWithout(t: seq<Attempt>, k: nat)
    requires k < |t|
    ensures SumFigures(t) == SumFigures(t[..k] + t[k + 1..]).Plus(FiguresOf(t[k]))
  {
    hide SumFigures, FiguresOf;
    assert t == t[..k] + [t[k]] + t[k + 1..];
    SumSnoc(t[..k], t[k]);
    SumSplit(t[..k] + [t[k]], t[k + 1..]);
    SumSplit(t[..k], t[k + 1..]);
  }

  lemma TextsWithout(kind: Kind, t: seq<Attempt>, k: nat)
    requires k < |t|
    ensures Texts(kind, t) == Texts(kind, t[..k] + t[k + 1..]) + Named(TextOf(kind, t[k]))
  {
    hide Texts, Named;
    assert t == t[..k] + [t[k]] + t[k + 1..];
    TextsSnoc(kind, t[..k], t[k]);
    TextsSplit(kind, t[..k] + [t[k]], t[k + 1..]);
    TextsSplit(kind, t[..k], t[k + 1..]);
  }

  lemma RecordsWithout(t: seq<Attempt>, k: nat)
    requires k < |t|
    ensures multiset(t[..k] + t[k + 1..]) == multiset(t) - multiset{t[k]}
  {
    assert t == t[..k] + [t[k]] + t[k + 1..];
  }

  /** A record of a list is in every reordering of it, and what is left over is reordered too. */
  lemma SameRest(s: seq<Attempt>, t: seq<Attempt>) returns (k: nat)
    requires multiset(s) == multiset(t) && s != []
    ensures k < |t| && t[k] == s[0]
    ensures multiset(s[..0] + s[1..]) == multiset(t[..k] + t[k + 1..])
  {
    assert s[0] in multiset(t);
    k :| 0 <= k < |t| && t[k] == s[0];
    RecordsWithout(s, 0);
    RecordsWithout(t, k);
  }

  lemma {:induction false} SumIgnoresOrder(s: seq<Attempt>, t: seq<Attempt>)
    requires multiset(s) == multiset(t)
    ensures SumFigures(s) == SumFigures(t)
    decreases |s|
  {
    if s == [] {
      assert |t| == |multiset(t)| == 0;
    } else {
      hide SumFigures, FiguresOf;
      var k := SameRest(s, t);
      SumIgnoresOrder(s[..0] + s[1..], t[..k] + t[k + 1..]);
      SumWithout(s, 0);
      SumWithout(t, k);
    }
  }

  lemma {:induction false} TextsIgnoreOrder(kind: Kind, s: seq<Attempt>, t: seq<Attempt>)
    requires multiset(s) == multiset(t)
    ensures Texts(kind, s) == Texts(kind, t)
    decreases |s|
  {
    if s == [] {
      assert |t| == |multiset(t)| == 0;
    } else {
      hide Texts, Named;
      var k := SameRest(s, t);
      TextsIgnoreOrder(kind, s[..0] + s[1..], t[..k] + t[k + 1..]);
      TextsWithout(kind, s, 0);
      TextsWithout(kind, t, k);
    }
  }

  // ---- the bucket ----

  datatype Bucket = Bucket(
    attempts: nat, figures: Figures, published: bool, publishedRuns: nat, runsSeen: set<nat>, publishedBy: set<nat>,
    failures: multiset<string>, verdicts: multiset<string>, lastVerdict: Last, lastFailure: Last)

  const EMPTY := Bucket(0, NOTHING, false, 0, {}, {}, multiset{}, multiset{}, Unset, Unset)

  function Add(b: Bucket, a: Attempt, run: nat): Bucket {
    var b1 := b.(attempts := b.attempts + 1, figures := b.figures.Plus(FiguresOf(a)));
    var b2 :=
      if a.failure == "" then b1
      else b1.(failures := b1.failures + multiset{a.failure}, lastFailure := Consider(b1.lastFailure, a.failure, a, run));
    var b3 :=
      if a.verdict == "" then b2
      else b2.(verdicts := b2.verdicts + multiset{a.verdict}, lastVerdict := Consider(b2.lastVerdict, a.verdict, a, run));
    if !a.Published() then b3
    else if run in b3.publishedBy then b3.(published := true)
    else b3.(published := true, publishedBy := b3.publishedBy + {run}, publishedRuns := b3.publishedRuns + 1)
  }

  predicate AnyPublished(s: seq<Attempt>) {
    exists a | a in s :: a.Published()
  }

  /** What a bucket holds after the records of one run. */
  function Tally(s: seq<Attempt>, run: nat): Bucket {
    Bucket(
      |s|, SumFigures(s), AnyPublished(s), if AnyPublished(s) then 1 else 0,
      if s == [] then {} else {run}, if AnyPublished(s) then {run} else {},
      Texts(Failures, s), Texts(Verdicts, s), LastOf(Verdicts, s, run), LastOf(Failures, s, run))
  }

  /** Adding a record to the tally of a run is the tally of the records with it. */
  lemma TallySnoc(s: seq<Attempt>, a: Attempt, run: nat)
    ensures Add(Tally(s, run).(runsSeen := {run}), a, run) == Tally(s + [a], run)
  {
    SumSnoc(s, a);
    TextsSnoc(Failures, s, a);
    TextsSnoc(Verdicts, s, a);
    LastSnoc(Verdicts, s, a, run);
    LastSnoc(Failures, s, a, run);
    PublishedSnoc(s, a);
    hide SumFigures, Texts, LastOf, AnyPublished, FiguresOf, Consider;
  }

  lemma LastSnoc(kind: Kind, s: seq<Attempt>, a: Attempt, run: nat)
    ensures LastOf(kind, s + [a], run)
      == if TextOf(kind, a) == "" then LastOf(kind, s, run) else Consider(LastOf(kind, s, run), TextOf(kind, a), a, run)
  {
    assert (s + [a])[..|s|] == s;
  }

  lemma PublishedSnoc(s: seq<Attempt>, a: Attempt)
    ensures AnyPublished(s + [a]) <==> AnyPublished(s) || a.Published()
  {
    assert a in s + [a];
  }

  /** The tally of a run does not depend on the order its records are read in. */
  lemma TallyIgnoresOrder(s: seq<Attempt>, t: seq<Attempt>, run: nat)
    requires multiset(s) == multiset(t) && KeysApart(Verdicts, s) && KeysApart(Failures, s)
    ensures Tally(s, run) == Tally(t, run)
  {
    LastIgnoresOrder(Verdicts, s, t, run);
    LastIgnoresOrder(Failures, s, t, run);
    SumIgnoresOrder(s, t);
    TextsIgnoreOrder(Verdicts, s, t);
    TextsIgnoreOrder(Failures, s, t);
    hide LastOf, SumFigures, Texts, KeysApart;
    assert |s| == |multiset(s)| == |multiset(t)| == |t|;
    assert forall a :: a in s <==> a in multiset(s);
    assert forall a :: a in t <==> a in multiset(t);
  }
}
