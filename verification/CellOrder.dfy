/** The stable order of cells in a report: by adapter, then by model. */
module CellOrder {
  import opened BenchTally

  /** Strict lexicographic order of strings. */
  predicate Before(a: string, b: string) {
    b != "" && (a == "" || a[0] < b[0] || (a[0] == b[0] && Before(a[1..], b[1..])))
  }

  lemma {:induction false} BeforeTotal(a: string, b: string)
    ensures a == b || Before(a, b) || Before(b, a)
  {
    if a != "" && b != "" && a[0] == b[0] {
      BeforeTotal(a[1..], b[1..]);
      assert a == [a[0]] + a[1..] && b == [b[0]] + b[1..];
    }
  }

  lemma {:induction false} BeforeAsymmetric(a: string, b: string)
    requires Before(a, b)
    ensures !Before(b, a) && a != b
  {
    if a != "" && a[0] == b[0] {
      BeforeAsymmetric(a[1..], b[1..]);
    }
  }

  lemma {:induction false} BeforeTransitive(a: string, b: string, c: string)
    requires Before(a, b) && Before(b, c)
    ensures Before(a, c)
  {
    if a != "" && a[0] == b[0] == c[0] {
      BeforeTransitive(a[1..], b[1..], c[1..]);
    }
  }

  predicate CellBefore(x: Cell, y: Cell) {
    if x.agent != y.agent then Before(x.agent, y.agent) else Before(x.model, y.model)
  }

  lemma CellsTotal(x: Cell, y: Cell)
    ensures x == y || CellBefore(x, y) || CellBefore(y, x)
  {
    BeforeTotal(x.agent, y.agent);
    BeforeTotal(x.model, y.model);
  }

  lemma CellsAsymmetric(x: Cell, y: Cell)
    requires CellBefore(x, y)
    ensures !CellBefore(y, x) && x != y
  {
    if x.agent != y.agent {
      BeforeAsymmetric(x.agent, y.agent);
    } else {
      BeforeAsymmetric(x.model, y.model);
    }
  }

  lemma CellsTransitive(x: Cell, y: Cell, z: Cell)
    requires CellBefore(x, y) && CellBefore(y, z)
    ensures CellBefore(x, z)
  {
    hide Before;
    if x.agent == y.agent == z.agent {
      BeforeTransitive(x.model, y.model, z.model);
    } else if x.agent != y.agent && y.agent != z.agent {
      BeforeTransitive(x.agent, y.agent, z.agent);
      if x.agent == z.agent {
        BeforeAsymmetric(x.agent, y.agent);
      }
    }
  }

  predicate Increasing(s: seq<Cell>) {
    forall i, j | 0 <= i < j < |s| :: CellBefore(s[i], s[j])
  }

  predicate CellsApart(cells: seq<Cell>) {
    forall i, j | 0 <= i < j < |cells| :: cells[i] != cells[j]
  }

  /** Where a cell belongs: after every cell that comes before it. */
  function Insert(s: seq<Cell>, c: Cell): (r: seq<Cell>)
    ensures forall x :: x in r <==> x in s || x == c
  {
    if s == [] then [c]
    else if CellBefore(c, s[0]) then [c] + s
    else
      assert s == [s[0]] + s[1..];
      [s[0]] + Insert(s[1..], c)
  }

  function Sorted(s: seq<Cell>): (r: seq<Cell>)
    ensures forall x :: x in r <==> x in s
  {
    if s == [] then []
    else
      assert s == [s[0]] + s[1..];
      Insert(Sorted(s[1..]), s[0])
  }

  lemma ConsIncreasing(c: Cell, s: seq<Cell>)
    requires Increasing(s) && forall x | x in s :: CellBefore(c, x)
    ensures Increasing([c] + s)
  {
    hide CellBefore;
  }

  lemma {:induction false} InsertIncreasing(s: seq<Cell>, c: Cell)
    requires Increasing(s) && c !in s
    ensures Increasing(Insert(s, c))
  {
    hide CellBefore;
    if s == [] {
    } else if CellBefore(c, s[0]) {
      forall x | x in s
        ensures CellBefore(c, x)
      {
        var i :| 0 <= i < |s| && s[i] == x;
        if i > 0 {
          CellsTransitive(c, s[0], x);
        }
      }
      ConsIncreasing(c, s);
    } else {
      assert s == [s[0]] + s[1..];
      CellsTotal(c, s[0]);
      InsertIncreasing(s[1..], c);
      forall x | x in Insert(s[1..], c)
        ensures CellBefore(s[0], x)
      {
        if x != c {
          var i :| 0 <= i < |s[1..]| && s[1..][i] == x;
          assert s[i + 1] == x;
        }
      }
      ConsIncreasing(s[0], Insert(s[1..], c));
    }
  }

  lemma {:induction false} SortedIncreasing(s: seq<Cell>)
    requires CellsApart(s)
    ensures Increasing(Sorted(s))
  {
    if s != [] {
      SortedIncreasing(s[1..]);
      assert s[0] !in s[1..];
      InsertIncreasing(Sorted(s[1..]), s[0]);
    }
  }

  lemma FirstIsLeast(s: seq<Cell>, x: Cell)
    requires Increasing(s) && x in s
    ensures x == s[0] || CellBefore(s[0], x)
  {
    var i :| 0 <= i < |s| && s[i] == x;
  }

  lemma TailExcludes(s: seq<Cell>, x: Cell)
    requires Increasing(s) && s != []
    ensures x in s[1..] <==> x in s && x != s[0]
  {
    hide CellBefore;
    assert s == [s[0]] + s[1..];
    if s[0] in s[1..] {
      var i :| 0 <= i < |s[1..]| && s[1..][i] == s[0];
      assert CellBefore(s[0], s[i + 1]);
      CellsAsymmetric(s[0], s[i + 1]);
    }
  }

  lemma EmptyTogether(s: seq<Cell>, t: seq<Cell>)
    requires forall x :: x in s <==> x in t
    ensures s == [] <==> t == []
    ensures s != [] && t != [] ==> s[0] in t && t[0] in s
  {
    assert s == [] || s[0] in s;
    assert t == [] || t[0] in t;
  }

  /** A collection of cells has one increasing listing. */
  lemma {:induction false} IncreasingIsUnique(s: seq<Cell>, t: seq<Cell>)
    requires Increasing(s) && Increasing(t) && forall x :: x in s <==> x in t
    ensures s == t
  {
    EmptyTogether(s, t);
    if s != [] {
      FirstIsLeast(s, t[0]);
      FirstIsLeast(t, s[0]);
      if s[0] != t[0] {
        CellsAsymmetric(s[0], t[0]);
      }
      forall x
        ensures x in s[1..] <==> x in t[1..]
      {
        TailExcludes(s, x);
        TailExcludes(t, x);
      }
      IncreasingIsUnique(s[1..], t[1..]);
      assert s == [s[0]] + s[1..] && t == [t[0]] + t[1..];
    }
  }
}
