/**
Resolution of explicit environment references in the strings of a provider block.
The walk rewrites every string leaf and records, under the leaf's textual path,
where its value came from.
*/
module EnvResolution {
  import opened Outcomes
  import opened ProvenancePaths

  type Env = map<string, string>

  /** An unset variable reads as the empty string. */
  function Getenv(env: Env, name: string): string {
    if name in env then env[name] else ""
  }

  // ---- references inside one string ----

  predicate StartsName(c: char) {
    'A' <= c <= 'Z' || c == '_'
  }

  predicate ContinuesName(c: char) {
    StartsName(c) || '0' <= c <= '9'
  }

  /** A dollar sign directly followed by a character a name may start with. */
  predicate RefersAt(s: string, i: nat) {
    i + 1 < |s| && s[i] == '$' && StartsName(s[i + 1])
  }

  /** The end of the longest run of name characters from `i` on. */
  function NameEnd(s: string, i: nat): (end: nat)
    requires i <= |s|
    ensures i <= end <= |s|
    ensures forall k | i <= k < end :: ContinuesName(s[k])
    ensures end < |s| ==> !ContinuesName(s[end])
    decreases |s| - i
  {
    if i < |s| && ContinuesName(s[i]) then NameEnd(s, i + 1) else i
  }

  datatype Match = Match(start: nat, end: nat)

  /** The leftmost non-overlapping references at or after `i`. */
  function Matches(s: string, i: nat): seq<Match>
    requires i <= |s|
    decreases |s| - i
  {
    if i == |s| then []
    else if RefersAt(s, i) then [Match(i, NameEnd(s, i + 1))] + Matches(s, NameEnd(s, i + 1))
    else Matches(s, i + 1)
  }

  /** The named variables, in order, with repetitions. */
  function NamesFrom(s: string, i: nat): seq<string>
    requires i <= |s|
    decreases |s| - i
  {
    if i == |s| then []
    else if RefersAt(s, i) then [s[i + 1..NameEnd(s, i + 1)]] + NamesFrom(s, NameEnd(s, i + 1))
    else NamesFrom(s, i + 1)
  }

  function Names(s: string): seq<string> {
    NamesFrom(s, 0)
  }

  /** The text from `i` on with each reference replaced by its variable's value. */
  function SpliceFrom(s: string, i: nat, env: Env): string
    requires i <= |s|
    decreases |s| - i
  {
    if i == |s| then ""
    else if RefersAt(s, i) then
      Getenv(env, s[i + 1..NameEnd(s, i + 1)]) + SpliceFrom(s, NameEnd(s, i + 1), env)
    else [s[i]] + SpliceFrom(s, i + 1, env)
  }

  function Splice(s: string, env: Env): string {
    SpliceFrom(s, 0, env)
  }

  /** Each name once, at its first occurrence. */
  function Distinct(names: seq<string>): (d: seq<string>)
    ensures forall n :: n in d <==> n in names
    ensures forall i, j | 0 <= i < j < |d| :: d[i] != d[j]
    ensures d == [] <==> names == []
  {
    if names == [] then []
    else
      var d := Distinct(names[..|names| - 1]);
      var last := names[|names| - 1];
      assert names == names[..|names| - 1] + [last];
      if last in d then d else d + [last]
  }

  lemma DistinctSnoc(names: seq<string>, last: string)
    ensures Distinct(names + [last]) == if last in Distinct(names) then Distinct(names) else Distinct(names) + [last]
  {
    assert (names + [last])[..|names|] == names;
  }

  predicate Resolves(s: string, env: Env) {
    forall n | n in Names(s) :: Getenv(env, n) != ""
  }

  /** The first reference at or after `i`, or the end. */
  function Next(s: string, i: nat): (j: nat)
    requires i <= |s|
    ensures i <= j <= |s| && (j < |s| ==> RefersAt(s, j))
    ensures forall k | i <= k < j :: !RefersAt(s, k)
    decreases |s| - i
  {
    if i == |s| || RefersAt(s, i) then i else Next(s, i + 1)
  }

  lemma {:induction false} SkipMatches(s: string, i: nat, j: nat)
    requires i <= j <= |s| && forall k | i <= k < j :: !RefersAt(s, k)
    ensures Matches(s, i) == Matches(s, j) && NamesFrom(s, i) == NamesFrom(s, j)
    decreases j - i
  {
    hide RefersAt, NameEnd;
    if i < j {
      SkipMatches(s, i + 1, j);
    }
  }

  lemma Regroup(a: string, b: string, c: string)
    ensures a + (b + c) == a + b + c
  {
  }

  lemma {:induction false} SkipText(s: string, i: nat, j: nat, env: Env)
    requires i <= j <= |s| && forall k | i <= k < j :: !RefersAt(s, k)
    ensures SpliceFrom(s, i, env) == s[i..j] + SpliceFrom(s, j, env)
    decreases j - i
  {
    hide RefersAt, NameEnd, Getenv;
    if i < j {
      SkipText(s, i + 1, j, env);
      Regroup([s[i]], s[i + 1..j], SpliceFrom(s, j, env));
      assert s[i..j] == [s[i]] + s[i + 1..j];
    }
  }

  /** Up to the next reference the text is copied; the matches are where the references are. */
  lemma NextMatch(s: string, i: nat, env: Env)
    requires i <= |s|
    ensures Matches(s, i) == [] ==> SpliceFrom(s, i, env) == s[i..] && NamesFrom(s, i) == []
    ensures Matches(s, i) != [] ==>
      var m := Matches(s, i)[0];
      && i <= m.start < m.end <= |s|
      && Matches(s, i)[1..] == Matches(s, m.end)
      && SpliceFrom(s, i, env) == s[i..m.start] + Getenv(env, s[m.start + 1..m.end]) + SpliceFrom(s, m.end, env)
      && NamesFrom(s, i) == [s[m.start + 1..m.end]] + NamesFrom(s, m.end)
  {
    var j := Next(s, i);
    SkipMatches(s, i, j);
    SkipText(s, i, j, env);
    hide RefersAt, NameEnd, Getenv, Next;
    if j < |s| {
      var end := NameEnd(s, j + 1);
      Regroup(s[i..j], Getenv(env, s[j + 1..end]), SpliceFrom(s, end, env));
      assert Matches(s, j) == [Match(j, end)] + Matches(s, end);
    }
  }

  /** A value that names no variable is its own resolution. */
  lemma LiteralIsUnchanged(s: string, env: Env)
    requires Names(s) == []
    ensures Splice(s, env) == s
  {
    NextMatch(s, 0, env);
  }

  // ---- the same, by the text alone ----

  lemma NameEndShifts(a: string, b: string, i: nat)
    requires i <= |b|
    ensures NameEnd(a + b, |a| + i) == |a| + NameEnd(b, i)
    decreases |b| - i
  {
    if i < |b| && ContinuesName(b[i]) {
      NameEndShifts(a, b, i + 1);
    }
  }

  lemma ReferenceShifts(a: string, b: string, i: nat)
    requires i < |b|
    ensures (a + b)[|a| + i] == b[i] && (RefersAt(a + b, |a| + i) <==> RefersAt(b, i))
    ensures RefersAt(b, i) ==>
      var end := NameEnd(b, i + 1);
      && i < end <= |b| && NameEnd(a + b, |a| + i + 1) == |a| + end
      && (a + b)[|a| + i + 1..|a| + end] == b[i + 1..end]
  {
    if RefersAt(b, i) {
      NameEndShifts(a, b, i + 1);
    }
  }

  lemma {:induction false} SpliceShifts(a: string, b: string, i: nat, env: Env)
    requires i <= |b|
    ensures SpliceFrom(a + b, |a| + i, env) == SpliceFrom(b, i, env)
    decreases |b| - i
  {
    hide RefersAt, NameEnd, Getenv;
    if i < |b| {
      ReferenceShifts(a, b, i);
      SpliceShifts(a, b, if RefersAt(b, i) then NameEnd(b, i + 1) else i + 1, env);
    }
  }

  lemma NamesNext(s: string, i: nat)
    requires i <= |s|
    ensures NamesFrom(s, i) ==
      if i == |s| then []
      else if RefersAt(s, i) then [s[i + 1..NameEnd(s, i + 1)]] + NamesFrom(s, NameEnd(s, i + 1))
      else NamesFrom(s, i + 1)
  {
  }

  lemma {:induction false} NamesShift(a: string, b: string, i: nat)
    requires i <= |b|
    ensures NamesFrom(a + b, |a| + i) == NamesFrom(b, i)
    decreases |b| - i
  {
    hide RefersAt, NameEnd, NamesFrom;
    NamesNext(a + b, |a| + i);
    NamesNext(b, i);
    if i < |b| {
      ReferenceShifts(a, b, i);
      NamesShift(a, b, if RefersAt(b, i) then NameEnd(b, i + 1) else i + 1);
    }
  }

  /** What is resolved from a point on depends on what follows it, and on nothing before. */
  lemma Shifts(a: string, b: string, env: Env)
    ensures SpliceFrom(a + b, |a|, env) == Splice(b, env) && NamesFrom(a + b, |a|) == Names(b)
  {
    SpliceShifts(a, b, 0, env);
    NamesShift(a, b, 0);
    hide SpliceFrom, NamesFrom;
  }

  /** Text without a dollar sign is copied. */
  lemma LiteralText(a: string, b: string, env: Env)
    requires '$' !in a
    ensures Splice(a + b, env) == a + Splice(b, env) && Names(a + b) == Names(b)
  {
    assert forall k | 0 <= k < |a| :: (a + b)[k] == a[k] && !RefersAt(a + b, k);
    SkipText(a + b, 0, |a|, env);
    SkipMatches(a + b, 0, |a|);
    Shifts(a, b, env);
    assert (a + b)[0..|a|] == a;
  }

  predicate IsName(name: string) {
    && name != "" && ('A' <= name[0] <= 'Z' || name[0] == '_')
    && forall c | c in name :: 'A' <= c <= 'Z' || '0' <= c <= '9' || c == '_'
  }

  lemma {:induction false} NameEndsAt(s: string, i: nat, end: nat)
    requires i <= end <= |s| && (forall k | i <= k < end :: ContinuesName(s[k])) && (end < |s| ==> !ContinuesName(s[end]))
    ensures NameEnd(s, i) == end
    decreases end - i
  {
    if i < end {
      NameEndsAt(s, i + 1, end);
    }
  }

  /** A dollar sign and the longest name after it give way to the variable's value. */
  lemma Reference(name: string, b: string, env: Env)
    requires IsName(name) && (b == "" || !('A' <= b[0] <= 'Z' || '0' <= b[0] <= '9' || b[0] == '_'))
    ensures Splice("$" + name + b, env) == Getenv(env, name) + Splice(b, env) && Names("$" + name + b) == [name] + Names(b)
  {
    var s, end := "$" + name + b, 1 + |name|;
    assert forall k | 1 <= k < end :: s[k] == name[k - 1] && name[k - 1] in name;
    assert b != "" ==> s[end] == b[0];
    NameEndsAt(s, 1, end);
    assert RefersAt(s, 0) && s[1..end] == name;
    Shifts("$" + name, b, env);
    assert SpliceFrom(s, 0, env) == Getenv(env, name) + SpliceFrom(s, end, env);
    assert NamesFrom(s, 0) == [name] + NamesFrom(s, end);
  }

  /** A dollar sign no name follows is copied. */
  lemma LoneDollar(b: string, env: Env)
    requires b == "" || !('A' <= b[0] <= 'Z' || b[0] == '_')
    ensures Splice("$" + b, env) == "$" + Splice(b, env) && Names("$" + b) == Names(b)
  {
    var s := "$" + b;
    assert b != "" ==> s[1] == b[0];
    assert !RefersAt(s, 0);
    Shifts("$", b, env);
  }

  /** A further name adds at most itself, at the end: each is listed where it first occurs. */
  lemma DistinctGrows(names: seq<string>, last: string)
    ensures Distinct(names + [last]) == Distinct(names) + if last in names then [] else [last]
  {
    DistinctSnoc(names, last);
  }

  datatype Missing = Missing(variable: string, field: string)

  datatype Resolution = Resolution(text: string, variables: seq<string>)

  /** The text and the names of everything before `last`, every one of them set. */
  ghost predicate Reached(value: string, env: Env, text: string, last: nat, seen: seq<string>) {
    && last <= |value|
    && seen + NamesFrom(value, last) == Names(value)
    && text + SpliceFrom(value, last, env) == Splice(value, env)
    && forall n | n in seen :: Getenv(env, n) != ""
  }

  lemma ReachNext(value: string, env: Env, text: string, last: nat, seen: seq<string>)
    requires Reached(value, env, text, last, seen) && Matches(value, last) != []
    ensures
      var m := Matches(value, last)[0];
      && last <= m.start < m.end <= |value|
      && Matches(value, last)[1..] == Matches(value, m.end)
      && var name := value[m.start + 1..m.end];
      && NamesFrom(value, last) != [] && NamesFrom(value, last)[0] == name
      && (Getenv(env, name) != "" ==>
            Reached(value, env, text + value[last..m.start] + Getenv(env, name), m.end, seen + [name]))
  {
    NextMatch(value, last, env);
    hide Matches, NamesFrom, SpliceFrom, Getenv;
    var m := Matches(value, last)[0];
    var name := value[m.start + 1..m.end];
    var copied, v, rest := value[last..m.start], Getenv(env, name), SpliceFrom(value, m.end, env);
    Regrouped(text, copied, v, rest);
    NamesRegrouped(seen, name, NamesFrom(value, m.end));
  }

  lemma Regrouped(a: string, b: string, c: string, d: string)
    ensures a + (b + c + d) == a + b + c + d
  {
  }

  lemma NamesRegrouped(seen: seq<string>, name: string, rest: seq<string>)
    ensures seen + ([name] + rest) == seen + [name] + rest && ([name] + rest)[0] == name
  {
  }

  lemma ReachEnd(value: string, env: Env, text: string, last: nat, seen: seq<string>)
    requires Reached(value, env, text, last, seen) && Matches(value, last) == []
    ensures seen == Names(value) && Resolves(value, env) && text + value[last..] == Splice(value, env)
  {
    NextMatch(value, last, env);
  }

  /** The variable is unset and every one the value names before it is set. */
  predicate FirstUnset(value: string, env: Env, name: string) {
    exists k | 0 <= k < |Names(value)| ::
      Names(value)[k] == name && Getenv(env, name) == "" && forall j | 0 <= j < k :: Getenv(env, Names(value)[j]) != ""
  }

  method ResolveEnvString(value: string, field: string, env: Env) returns (r: Result<Resolution, Missing>)
    ensures r.Ok? <==> Resolves(value, env)
    ensures r.Ok? ==> r.value == Resolution(Splice(value, env), Distinct(Names(value)))
    ensures r.Err? ==> r.error.field == field && FirstUnset(value, env, r.error.variable)
  {
    hide *;
    var matches := Matches(value, 0);
    ReachStart(value, env);
    if |matches| == 0 {
      return Ok(Resolution(value, []));
    }
    var text, last: nat, names := "", 0, [];
    ghost var seen := [];
    for k := 0 to |matches|
      invariant Reached(value, env, text, last, seen) && last <= |value|
      invariant matches[k..] == Matches(value, last)
      invariant names == Distinct(seen)
    {
      ReachNext(value, env, text, last, seen);
      var m := matches[k];
      assert m == matches[k..][0];
      var name := value[m.start + 1..m.end];
      var v := Getenv(env, name);
      if v == "" {
        Unresolved(value, env, text, last, seen);
        return Err(Missing(name, field));
      }
      text := text + value[last..m.start];
      text := text + v;
      last := m.end;
      DistinctSnoc(seen, name);
      if name !in names {
        names := names + [name];
      }
      seen := seen + [name];
      assert matches[k + 1..] == matches[k..][1..];
    }
    ReachEnd(value, env, text, last, seen);
    text := text + value[last..];
    r := Ok(Resolution(text, names));
  }

  lemma ReachStart(value: string, env: Env)
    ensures Reached(value, env, "", 0, []) && Distinct([]) == []
    ensures Matches(value, 0) == [] ==> Resolves(value, env) && Splice(value, env) == value && Names(value) == []
  {
    NextMatch(value, 0, env);
  }

  lemma Unresolved(value: string, env: Env, text: string, last: nat, seen: seq<string>)
    requires Reached(value, env, text, last, seen)
    requires NamesFrom(value, last) != [] && Getenv(env, NamesFrom(value, last)[0]) == ""
    ensures !Resolves(value, env) && FirstUnset(value, env, NamesFrom(value, last)[0])
  {
    hide NamesFrom, SpliceFrom, Getenv;
    var names := Names(value);
    assert names[|seen|] == NamesFrom(value, last)[0] && names[|seen|] in names;
    assert forall j | 0 <= j < |seen| :: names[j] == seen[j] && names[j] in seen;
  }

  // ---- the tree of a provider block ----

  datatype Value = Text(text: string) | Block(entries: map<string, Value>) | Items(items: seq<Value>) | Other(scalar: int)

  datatype Origin = FromFile | FromEnv(variables: seq<string>)

  type Provenance = map<string, Origin>

  predicate Resolvable(v: Value, env: Env) {
    match v
    case Text(s) => Resolves(s, env)
    case Block(m) => forall k | k in m :: Resolvable(m[k], env)
    case Items(xs) => forall i | 0 <= i < |xs| :: Resolvable(xs[i], env)
    case Other(_) => true
  }

  function Substitute(v: Value, env: Env): Value {
    match v
    case Text(s) => Text(Splice(s, env))
    case Block(m) => Block(map k | k in m :: Substitute(m[k], env))
    case Items(xs) => Items(seq(|xs|, i requires 0 <= i < |xs| => Substitute(xs[i], env)))
    case Other(_) => v
  }

  /** The value a place leads to. */
  function At(v: Value, place: Place): Option<Value> {
    if place == [] then Some(v)
    else match place[0]
      case Key(k) => if v.Block? && k in v.entries then At(v.entries[k], place[1..]) else None
      case Index(i) => if v.Items? && i < |v.items| then At(v.items[i], place[1..]) else None
  }

  /** Where the value at a place came from: told by the file alone. A block has no entry of its own. */
  function OriginAt(v: Value, place: Place): Option<Origin> {
    match At(v, place)
    case None => None
    case Some(Text(s)) => Some(if Names(s) == [] then FromFile else FromEnv(Distinct(Names(s))))
    case Some(Block(_)) => None
    case Some(_) => Some(FromFile)
  }

  predicate Names?(v: Value, place: Place, variable: string) {
    At(v, place).Some? && At(v, place).value.Text? && variable in Names(At(v, place).value.text)
  }

  /** Resolution rewrites every string leaf where it stands, and nothing else. */
  lemma {:induction false} SubstituteAt(v: Value, env: Env, q: Place)
    ensures At(Substitute(v, env), q).Some? <==> At(v, q).Some?
    ensures At(v, q).Some? ==>
      match At(v, q).value
      case Text(s) => At(Substitute(v, env), q) == Some(Text(Splice(s, env)))
      case Other(_) => At(Substitute(v, env), q) == At(v, q)
      case Block(m) => At(Substitute(v, env), q).value.Block? && At(Substitute(v, env), q).value.entries.Keys == m.Keys
      case Items(xs) => At(Substitute(v, env), q).value.Items? && |At(Substitute(v, env), q).value.items| == |xs|
    decreases |q|
  {
    hide Splice;
    if q != [] {
      match q[0]
      case Key(k) =>
        if v.Block? && k in v.entries {
          SubstituteAt(v.entries[k], env, q[1..]);
        }
      case Index(i) =>
        if v.Items? && i < |v.items| {
          SubstituteAt(v.items[i], env, q[1..]);
        }
    }
  }

  /** Every variable any string of the tree names is set. */
  ghost predicate AllSet(v: Value, env: Env) {
    forall q: Place, n | Names?(v, q, n) :: Getenv(env, n) != ""
  }

  lemma AllSetBeneath(v: Value, env: Env, segment: Segment)
    requires AllSet(v, env) && Child(v, segment).Some?
    ensures AllSet(Child(v, segment).value, env)
  {
    hide Names, Getenv;
    forall q: Place, n | Names?(Child(v, segment).value, q, n)
      ensures Getenv(env, n) != ""
    {
      ChildAt(v, segment, q);
      assert Names?(v, [segment] + q, n);
    }
  }

  lemma AllSetAbove(v: Value, env: Env)
    requires !v.Text? && forall segment | Child(v, segment).Some? :: AllSet(Child(v, segment).value, env)
    ensures AllSet(v, env)
  {
    hide Names, Getenv;
    forall q: Place, n | Names?(v, q, n)
      ensures Getenv(env, n) != ""
    {
      assert q == [q[0]] + q[1..];
      ChildAt(v, q[0], q[1..]);
      assert Names?(Child(v, q[0]).value, q[1..], n);
    }
  }

  lemma AllSetLeaf(s: string, env: Env)
    ensures AllSet(Text(s), env) <==> Resolves(s, env)
  {
    hide Names, Getenv;
    assert forall n | n in Names(s) :: Names?(Text(s), [], n);
  }

  /** A tree resolves exactly when every variable any of its strings names is set. */
  lemma {:induction false} ResolvableIff(v: Value, env: Env)
    ensures Resolvable(v, env) <==> AllSet(v, env)
    decreases v
  {
    hide AllSet, Names, Getenv, Resolves;
    match v
    case Text(s) => AllSetLeaf(s, env);
    case Other(_) => AllSetAbove(v, env);
    case Block(m) =>
      forall k | k in m
        ensures Resolvable(m[k], env) <==> AllSet(m[k], env)
      {
        ResolvableIff(m[k], env);
      }
      if AllSet(v, env) {
        forall k | k in m
          ensures AllSet(m[k], env)
        {
          AllSetBeneath(v, env, Key(k));
        }
      } else if forall k | k in m :: AllSet(m[k], env) {
        AllSetAbove(v, env);
      }
    case Items(xs) =>
      forall i | 0 <= i < |xs|
        ensures Resolvable(xs[i], env) <==> AllSet(xs[i], env)
      {
        ResolvableIff(xs[i], env);
      }
      if AllSet(v, env) {
        forall i | 0 <= i < |xs|
          ensures AllSet(xs[i], env)
        {
          AllSetBeneath(v, env, Index(i));
        }
      } else if forall i | 0 <= i < |xs| :: AllSet(xs[i], env) {
        AllSetAbove(v, env);
      }
  }

  /** Every value of the tree has its own origin under its own path. */
  ghost predicate Recorded(prov: Provenance, path: string, v: Value) {
    forall q | OriginAt(v, q).Some? ::
      PathOf(path, q) in prov && prov[PathOf(path, q)] == OriginAt(v, q).value
  }

  /** Some value of the tree is recorded under `p`. */
  ghost predicate Owns(path: string, v: Value, p: string) {
    exists q :: OriginAt(v, q).Some? && p == PathOf(path, q)
  }

  predicate SameAt(before: Provenance, after: Provenance, p: string) {
    (p in before <==> p in after) && (p in before ==> before[p] == after[p])
  }

  /** No path outside the tree is touched. */
  ghost predicate Framed(before: Provenance, after: Provenance, path: string, v: Value) {
    forall p | !Owns(path, v, p) :: SameAt(before, after, p)
  }

  /** A missing variable is reported with the path of a leaf that names it. */
  ghost predicate Blames(e: Missing, path: string, v: Value, env: Env) {
    && Getenv(env, e.variable) == ""
    && exists q :: Names?(v, q, e.variable) && e.field == PathOf(path, q)
  }

  // ---- from a value to its children ----

  function Child(v: Value, segment: Segment): Option<Value> {
    match segment
    case Key(k) => if v.Block? && k in v.entries then Some(v.entries[k]) else None
    case Index(i) => if v.Items? && i < |v.items| then Some(v.items[i]) else None
  }

  lemma ChildAt(v: Value, segment: Segment, q: Place)
    ensures At(v, [segment] + q) == (if Child(v, segment).Some? then At(Child(v, segment).value, q) else None)
  {
    assert ([segment] + q)[1..] == q;
  }

  lemma {:induction false} PathCons(path: string, segment: Segment, q: Place)
    ensures PathOf(path, [segment] + q) == PathOf(Append(path, segment), q)
  {
    hide Append;
    if q == [] {
      assert PathOf(path, [segment][..0]) == path;
      assert [segment] + q == [segment];
    } else {
      var n := |q| - 1;
      PathCons(path, segment, q[..n]);
      assert ([segment] + q)[..|q|] == [segment] + q[..n];
    }
  }

  lemma ChildOwns(path: string, v: Value, segment: Segment, p: string)
    requires Child(v, segment).Some? && Owns(Append(path, segment), Child(v, segment).value, p)
    ensures Owns(path, v, p)
  {
    var q :| OriginAt(Child(v, segment).value, q).Some? && p == PathOf(Append(path, segment), q);
    ChildAt(v, segment, q);
    PathCons(path, segment, q);
    assert OriginAt(v, [segment] + q).Some?;
  }

  lemma ChildFramed(before: Provenance, now: Provenance, after: Provenance, path: string, v: Value, segment: Segment)
    requires Child(v, segment).Some? && Framed(before, now, path, v)
    requires Framed(now, after, Append(path, segment), Child(v, segment).value)
    ensures Framed(before, after, path, v)
  {
    forall p | !Owns(path, v, p)
      ensures SameAt(before, after, p)
    {
      if Owns(Append(path, segment), Child(v, segment).value, p) {
        ChildOwns(path, v, segment, p);
      }
      assert SameAt(before, now, p) && SameAt(now, after, p);
    }
  }

  lemma ChildBlames(e: Missing, path: string, v: Value, segment: Segment, env: Env)
    requires Child(v, segment).Some? && Blames(e, Append(path, segment), Child(v, segment).value, env)
    ensures Blames(e, path, v, env)
  {
    var c := Child(v, segment).value;
    var q :| Names?(c, q, e.variable) && e.field == PathOf(Append(path, segment), q);
    ChildAt(v, segment, q);
    PathCons(path, segment, q);
    assert Names?(v, [segment] + q, e.variable);
  }

  /** Siblings never share a path: this is where distinct places must have distinct paths. */
  lemma SiblingsApart(path: string, s: Segment, v: Value, t: Segment, q: Place)
    requires s != t
    ensures !Owns(Append(path, s), v, PathOf(Append(path, t), q))
  {
    forall r | OriginAt(v, r).Some?
      ensures PathOf(Append(path, t), q) != PathOf(Append(path, s), r)
    {
      PathCons(path, s, r);
      PathCons(path, t, q);
      PathInjective(path, [s] + r, [t] + q);
      assert ([s] + r)[0] != ([t] + q)[0];
    }
  }

  lemma SiblingKept(before: Provenance, after: Provenance, path: string, s: Segment, v: Value, t: Segment, w: Value)
    requires s != t && Framed(before, after, Append(path, s), v) && Recorded(before, Append(path, t), w)
    ensures Recorded(after, Append(path, t), w)
  {
    forall q | OriginAt(w, q).Some?
      ensures PathOf(Append(path, t), q) in after
           && after[PathOf(Append(path, t), q)] == OriginAt(w, q).value
    {
      SiblingsApart(path, s, v, t, q);
      assert SameAt(before, after, PathOf(Append(path, t), q));
    }
  }

  lemma ParentKept(before: Provenance, after: Provenance, path: string, s: Segment, v: Value)
    requires Framed(before, after, Append(path, s), v)
    ensures SameAt(before, after, path)
  {
    forall r | OriginAt(v, r).Some?
      ensures path != PathOf(Append(path, s), r)
    {
      PathCons(path, s, r);
      PathInjective(path, [], [s] + r);
    }
  }

  lemma RecordedWhole(prov: Provenance, path: string, v: Value)
    requires OriginAt(v, []).Some? ==> path in prov && prov[path] == OriginAt(v, []).value
    requires forall s | Child(v, s).Some? :: Recorded(prov, Append(path, s), Child(v, s).value)
    ensures Recorded(prov, path, v)
  {
    forall q | OriginAt(v, q).Some?
      ensures PathOf(path, q) in prov && prov[PathOf(path, q)] == OriginAt(v, q).value
    {
      if q != [] {
        assert q == [q[0]] + q[1..];
        ChildAt(v, q[0], q[1..]);
        PathCons(path, q[0], q[1..]);
        assert Recorded(prov, Append(path, q[0]), Child(v, q[0]).value);
      }
    }
  }

  lemma FramedSelf(prov: Provenance, path: string, v: Value)
    ensures Framed(prov, prov, path, v)
  {
  }

  lemma OwnEntry(before: Provenance, path: string, v: Value, origin: Origin)
    requires OriginAt(v, []) == Some(origin)
    ensures Framed(before, before[path := origin], path, v)
    ensures v.Text? || v.Other? ==> Recorded(before[path := origin], path, v)
  {
    var after := before[path := origin];
    assert PathOf(path, []) == path;
    forall p | !Owns(path, v, p)
      ensures SameAt(before, after, p)
    {
      assert p != path;
    }
    if v.Text? || v.Other? {
      assert forall s :: Child(v, s).None?;
      RecordedWhole(after, path, v);
    }
  }

  // ---- the walk ----

  class Loader {
    var prov: Provenance

    constructor ()
      ensures prov == map[]
    {
      prov := map[];
    }

    method ResolveProviderEnv(block: map<string, Value>, path: string, env: Env)
        returns (r: Result<map<string, Value>, Missing>)
      modifies this
      ensures r.Ok? <==> Resolvable(Block(block), env)
      ensures r.Ok? ==> Block(r.value) == Substitute(Block(block), env) && Recorded(prov, path, Block(block))
      ensures r.Err? ==> Blames(r.error, path, Block(block), env)
      ensures Framed(old(prov), prov, path, Block(block))
      decreases Block(block), 0
    {
      ghost var whole := Block(block);
      FramedSelf(prov, path, whole);
      hide Recorded, Framed, Blames, AppendMapKey;
      var out, todo := block, block.Keys;
      while todo != {}
        invariant todo <= block.Keys == out.Keys
        invariant forall k | k in todo :: out[k] == block[k]
        invariant forall k | k in block.Keys - todo ::
          && Resolvable(block[k], env) && out[k] == Substitute(block[k], env)
          && Recorded(prov, Append(path, Key(k)), block[k])
        invariant Framed(old(prov), prov, path, whole)
      {
        var k :| k in todo;
        assert Child(whole, Key(k)) == Some(block[k]);
        ghost var before := prov;
        var resolved := ResolveEnvValue(block[k], AppendMapKey(path, k), env);
        ChildFramed(old(prov), before, prov, path, whole, Key(k));
        if resolved.Err? {
          ChildBlames(resolved.error, path, whole, Key(k), env);
          return Err(resolved.error);
        }
        forall done | done in block.Keys - todo
          ensures Recorded(prov, Append(path, Key(done)), block[done])
        {
          SiblingKept(before, prov, path, Key(k), block[k], Key(done), block[done]);
        }
        out := out[k := resolved.value];
        todo := todo - {k};
      }
      RecordedWhole(prov, path, whole);
      assert out == Substitute(whole, env).entries;
      r := Ok(out);
    }

    method ResolveEnvValue(v: Value, path: string, env: Env) returns (r: Result<Value, Missing>)
      modifies this
      ensures r.Ok? <==> Resolvable(v, env)
      ensures r.Ok? ==> r.value == Substitute(v, env) && Recorded(prov, path, v)
      ensures r.Err? ==> Blames(r.error, path, v, env)
      ensures Framed(old(prov), prov, path, v)
      decreases v, 1
    {
      match v
      case Text(s) =>
        var resolved := ResolveEnvString(s, path, env);
        if resolved.Err? {
          assert Names?(v, [], resolved.error.variable) && path == PathOf(path, []);
          return Err(resolved.error);
        }
        var origin := if |resolved.value.variables| > 0 then FromEnv(resolved.value.variables) else FromFile;
        OwnEntry(prov, path, v, origin);
        prov := prov[path := origin];
        r := Ok(Text(resolved.value.text));
      case Block(m) =>
        var block := ResolveProviderEnv(m, path, env);
        r := if block.Ok? then Ok(Block(block.value)) else Err(block.error);
      case Items(xs) =>
        r := ResolveItems(xs, path, env);
      case Other(_) =>
        OwnEntry(prov, path, v, FromFile);
        prov := prov[path := FromFile];
        r := Ok(v);
    }

    method ResolveItems(xs: seq<Value>, path: string, env: Env) returns (r: Result<Value, Missing>)
      modifies this
      ensures r.Ok? <==> Resolvable(Items(xs), env)
      ensures r.Ok? ==> r.value == Substitute(Items(xs), env) && Recorded(prov, path, Items(xs))
      ensures r.Err? ==> Blames(r.error, path, Items(xs), env)
      ensures Framed(old(prov), prov, path, Items(xs))
      decreases Items(xs), 0
    {
      ghost var whole := Items(xs);
      OwnEntry(prov, path, whole, FromFile);
      prov := prov[path := FromFile];
      var out := xs;
      for i := 0 to |xs|
        invariant |out| == |xs| && out[i..] == xs[i..]
        invariant forall k | 0 <= k < i ::
          && Resolvable(xs[k], env) && out[k] == Substitute(xs[k], env)
          && Recorded(prov, Append(path, Index(k)), xs[k])
        invariant path in prov && prov[path] == FromFile
        invariant Framed(old(prov), prov, path, whole)
      {
        assert Child(whole, Index(i)) == Some(xs[i]);
        ghost var before := prov;
        var resolved := ResolveEnvValue(xs[i], AppendIndex(path, i), env);
        ChildFramed(old(prov), before, prov, path, whole, Index(i));
        ParentKept(before, prov, path, Index(i), xs[i]);
        if resolved.Err? {
          ChildBlames(resolved.error, path, whole, Index(i), env);
          return Err(resolved.error);
        }
        forall k | 0 <= k < i
          ensures Recorded(prov, Append(path, Index(k)), xs[k])
        {
          SiblingKept(before, prov, path, Index(i), xs[i], Index(k), xs[k]);
        }
        out := out[i := resolved.value];
      }
      RecordedWhole(prov, path, whole);
      r := Ok(Items(out));
    }
  }
}
