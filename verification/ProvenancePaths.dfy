/**
The textual path under which a configuration value's origin is recorded, and the
fact every later reading of it relies on: distinct places have distinct paths.
*/
module ProvenancePaths {
  import opened Delimiters

  datatype Segment = Key(name: string) | Index(position: nat)

  type Place = seq<Segment>

  predicate IsPlainChar(c: char) {
    'a' <= c <= 'z' || 'A' <= c <= 'Z' || '0' <= c <= '9' || c == '_' || c == '-'
  }

  predicate IsPlain(s: string) {
    s != "" && forall c | c in s :: IsPlainChar(c)
  }

  /** Quoting: a quote, a backslash and the line controls are escaped by a backslash and one letter. */
  function EscapeChar(c: char): string {
    if c == '"' then "\\\""
    else if c == '\\' then "\\\\"
    else if c == '\n' then "\\n"
    else if c == '\r' then "\\r"
    else if c == '\t' then "\\t"
    else [c]
  }

  function Escape(s: string): string {
    if s == "" then "" else EscapeChar(s[0]) + Escape(s[1..])
  }

  function Quote(s: string): string {
    "\"" + Escape(s) + "\""
  }

  function Itoa(n: nat): (s: string)
    ensures s != "" && forall c | c in s :: '0' <= c <= '9'
  {
    var digit := [('0' as int + n % 10) as char];
    if n < 10 then digit else Itoa(n / 10) + digit
  }

  function AppendMapKey(prefix: string, key: string): string {
    if IsPlain(key) then prefix + "." + key else prefix + "[" + Quote(key) + "]"
  }

  function AppendIndex(prefix: string, index: nat): string {
    prefix + "[" + Itoa(index) + "]"
  }

  function Append(prefix: string, segment: Segment): string {
    match segment
    case Key(name) => AppendMapKey(prefix, name)
    case Index(position) => AppendIndex(prefix, position)
  }

  /** The path of a place, built segment by segment as the walkers build it. */
  function PathOf(prefix: string, place: Place): string {
    if place == [] then prefix
    else Append(PathOf(prefix, place[..|place| - 1]), place[|place| - 1])
  }

  // ---- each piece is self-delimiting ----

  lemma {:induction false} ItoaInjective(m: nat, n: nat)
    requires Itoa(m) == Itoa(n)
    ensures m == n
  {
    var s := Itoa(m);
    assert s[|s| - 1] as int - '0' as int == m % 10 == n % 10;
    if m >= 10 && n >= 10 {
      assert Itoa(m / 10) == s[..|s| - 1] == Itoa(n / 10);
      ItoaInjective(m / 10, n / 10);
    }
  }

  lemma EscapeCharDelimits(c: char, d: char, x: string, y: string)
    requires EscapeChar(c) + x == EscapeChar(d) + y
    ensures c == d && x == y
  {
    var s := EscapeChar(c) + x;
    assert s[0] == EscapeChar(c)[0] == EscapeChar(d)[0];
    assert |EscapeChar(c)| == 2 ==> s[1] == EscapeChar(c)[1];
    assert |EscapeChar(d)| == 2 ==> s[1] == EscapeChar(d)[1];
    assert x == s[|EscapeChar(c)|..] && y == s[|EscapeChar(d)|..];
  }

  /** An escaped string never starts with a bare quote, so the closing quote ends it. */
  lemma EscapeHead(b: string)
    ensures b == "" || (Escape(b) != "" && Escape(b)[0] != '"')
  {
    assert b == "" || Escape(b)[0] == EscapeChar(b[0])[0];
  }

  lemma ClosingQuote(b: string, x: string, y: string)
    requires "\"" + x == Escape(b) + "\"" + y
    ensures b == "" && x == y
  {
    EscapeHead(b);
    assert '"' == ("\"" + x)[0] == (Escape(b) + "\"" + y)[0];
    assert x == ("\"" + x)[1..] && y == (Escape(b) + "\"" + y)[|Escape(b)| + 1..];
  }

  lemma {:induction false} QuoteDelimits(a: string, b: string, x: string, y: string)
    requires Escape(a) + "\"" + x == Escape(b) + "\"" + y
    ensures a == b && x == y
    decreases |a|
  {
    hide EscapeChar;
    if a == "" {
      ClosingQuote(b, x, y);
    } else if b == "" {
      ClosingQuote(a, y, x);
    } else {
      var restA, restB := Escape(a[1..]) + "\"" + x, Escape(b[1..]) + "\"" + y;
      assert Escape(a) + "\"" + x == EscapeChar(a[0]) + restA;
      assert Escape(b) + "\"" + y == EscapeChar(b[0]) + restB;
      EscapeCharDelimits(a[0], b[0], restA, restB);
      QuoteDelimits(a[1..], b[1..], x, y);
      assert a == [a[0]] + a[1..] && b == [b[0]] + b[1..];
    }
  }

  function Piece(segment: Segment): (s: string)
    ensures s != "" && (s[0] == '.' || s[0] == '[')
  {
    Append("", segment)
  }

  lemma AppendIsPiece(prefix: string, segment: Segment)
    ensures Append(prefix, segment) == prefix + Piece(segment)
  {
    match segment
    case Key(name) => assert "" + "[" + Quote(name) + "]" == "[" + Quote(name) + "]";
    case Index(i) => assert "" + "[" + Itoa(i) + "]" == "[" + Itoa(i) + "]";
  }

  predicate StartsPiece(s: string) {
    s == "" || s[0] == '.' || s[0] == '['
  }

  /** A plain key runs until the next piece starts, or to the end. */
  lemma PlainDelimits(a: string, b: string, x: string, y: string)
    requires IsPlain(a) && IsPlain(b) && StartsPiece(x) && StartsPiece(y) && a + x == b + y
    ensures a == b && x == y
  {
    var s := a + x;
    assert forall i | 0 <= i < |a| :: s[i] == a[i] && IsPlainChar(s[i]);
    assert forall i | 0 <= i < |b| :: s[i] == b[i] && IsPlainChar(s[i]);
    assert x != "" ==> s[|a|] == x[0];
    assert y != "" ==> s[|b|] == y[0];
    assert a == s[..|a|] && b == s[..|b|] && x == s[|a|..] && y == s[|b|..];
  }

  datatype Shape = Dotted | Quoted | Numbered

  function ShapeOf(p: Segment): Shape {
    if p.Index? then Numbered else if IsPlain(p.name) then Dotted else Quoted
  }

  /** The first two characters of a piece tell its shape. */
  lemma ShapeShows(p: Segment, q: Segment, x: string, y: string)
    requires Piece(p) + x == Piece(q) + y
    ensures ShapeOf(p) == ShapeOf(q)
  {
    var s := Piece(p) + x;
    assert s[0] == Piece(p)[0] == Piece(q)[0];
    assert s[1] == Piece(p)[1] == Piece(q)[1];
    assert p.Index? ==> Piece(p)[1] == Itoa(p.position)[0] && Itoa(p.position)[0] in Itoa(p.position);
    assert q.Index? ==> Piece(q)[1] == Itoa(q.position)[0] && Itoa(q.position)[0] in Itoa(q.position);
  }

  lemma QuotedDelimits(a: string, b: string, x: string, y: string)
    requires "[" + Quote(a) + "]" + x == "[" + Quote(b) + "]" + y
    ensures a == b && x == y
  {
    var s := "[" + Quote(a) + "]" + x;
    assert Escape(a) + "\"" + ("]" + x) == s[2..] == Escape(b) + "\"" + ("]" + y);
    QuoteDelimits(a, b, "]" + x, "]" + y);
    assert x == ("]" + x)[1..] && y == ("]" + y)[1..];
  }

  lemma NumberedDelimits(m: nat, n: nat, x: string, y: string)
    requires "[" + Itoa(m) + "]" + x == "[" + Itoa(n) + "]" + y
    ensures m == n && x == y
  {
    var s := "[" + Itoa(m) + "]" + x;
    assert Itoa(m) + "]" + x == s[1..] == Itoa(n) + "]" + y;
    StopDelimits(']', Itoa(m), Itoa(n), x, y);
    ItoaInjective(m, n);
  }

  lemma DottedDelimits(a: string, b: string, x: string, y: string)
    requires IsPlain(a) && IsPlain(b) && StartsPiece(x) && StartsPiece(y)
    requires "." + a + x == "." + b + y
    ensures a == b && x == y
  {
    assert a + x == ("." + a + x)[1..] == b + y;
    PlainDelimits(a, b, x, y);
  }

  lemma PieceDelimits(p: Segment, q: Segment, x: string, y: string)
    requires StartsPiece(x) && StartsPiece(y) && Piece(p) + x == Piece(q) + y
    ensures p == q && x == y
  {
    ShapeShows(p, q, x, y);
    hide Quote, Itoa, StartsPiece;
    match ShapeOf(p)
    case Dotted =>
      assert Piece(p) == "." + p.name && Piece(q) == "." + q.name;
      DottedDelimits(p.name, q.name, x, y);
    case Quoted =>
      assert Piece(p) == "[" + Quote(p.name) + "]" && Piece(q) == "[" + Quote(q.name) + "]";
      QuotedDelimits(p.name, q.name, x, y);
    case Numbered =>
      assert Piece(p) == "[" + Itoa(p.position) + "]" && Piece(q) == "[" + Itoa(q.position) + "]";
      NumberedDelimits(p.position, q.position, x, y);
  }

  // ---- whole paths ----

  /** The same path, read from the front. */
  function Spell(place: Place): (s: string)
    ensures StartsPiece(s)
  {
    if place == [] then "" else Piece(place[0]) + Spell(place[1..])
  }

  lemma {:induction false} SpellSnoc(place: Place, segment: Segment)
    ensures Spell(place + [segment]) == Spell(place) + Piece(segment)
  {
    if place != [] {
      assert (place + [segment])[1..] == place[1..] + [segment];
      SpellSnoc(place[1..], segment);
    } else {
      assert Spell([segment][1..]) == "";
    }
  }

  lemma {:induction false} PathIsSpelling(prefix: string, place: Place)
    ensures PathOf(prefix, place) == prefix + Spell(place)
  {
    hide Append, Piece;
    if place != [] {
      var n := |place| - 1;
      PathIsSpelling(prefix, place[..n]);
      AppendIsPiece(PathOf(prefix, place[..n]), place[n]);
      SpellSnoc(place[..n], place[n]);
      assert place == place[..n] + [place[n]];
    }
  }

  lemma {:induction false} SpellInjective(p: Place, q: Place)
    requires Spell(p) == Spell(q)
    ensures p == q
  {
    if p != [] && q != [] {
      PieceDelimits(p[0], q[0], Spell(p[1..]), Spell(q[1..]));
      SpellInjective(p[1..], q[1..]);
      assert p == [p[0]] + p[1..] && q == [q[0]] + q[1..];
    }
  }

  /** Two places under one prefix share a path only if they are the same place. */
  lemma PathInjective(prefix: string, p: Place, q: Place)
    ensures PathOf(prefix, p) == PathOf(prefix, q) <==> p == q
  {
    PathIsSpelling(prefix, p);
    PathIsSpelling(prefix, q);
    if PathOf(prefix, p) == PathOf(prefix, q) {
      assert Spell(p) == PathOf(prefix, p)[|prefix|..] == Spell(q);
      SpellInjective(p, q);
    }
  }
}
