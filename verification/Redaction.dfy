/**
The redacted rendering of resolved provider blocks, and its non-interference: what
is printed is a function of the file and the declared fields, whatever the
environment held.
*/
module Redaction {
  import opened Outcomes
  import opened ProvenancePaths
  import opened EnvResolution

  const REDACTED := "[redacted]"

  // ---- the renderer, over paths and recorded origins ----

  predicate Hides(prov: Provenance, sensitive: set<string>, path: string) {
    path in sensitive || (path in prov && prov[path].FromEnv?)
  }

  /** The check comes before the descent, so a hidden block or list is hidden whole. */
  function Render(prov: Provenance, sensitive: set<string>, path: string, v: Value): Value
    decreases v
  {
    if Hides(prov, sensitive, path) then Text(REDACTED)
    else match v
      case Block(m) => Block(map k | k in m :: Render(prov, sensitive, AppendMapKey(path, k), m[k]))
      case Items(xs) =>
        Items(seq(|xs|, i requires 0 <= i < |xs| => Render(prov, sensitive, AppendIndex(path, i), xs[i])))
      case _ => v
  }

  /** A provider block itself is always descended into. */
  function RenderBlock(prov: Provenance, sensitive: set<string>, path: string, m: map<string, Value>): Value {
    Block(map k | k in m :: Render(prov, sensitive, AppendMapKey(path, k), m[k]))
  }

  // ---- the reference, over places of the file as written ----

  /** The place of a declared field: one map key per segment. */
  function KeyPlace(segments: seq<string>): Place {
    seq(|segments|, i requires 0 <= i < |segments| => Key(segments[i]))
  }

  /** What a kind declares sensitive: its own credential keys, and for a runner every `env` entry. */
  datatype Kind = Kind(credentials: seq<string>, environ: bool)

  function Singles(keys: seq<string>): set<seq<string>> {
    set k | k in keys :: [k]
  }

  /** The declared fields of a block. A kind nobody registered declares none. */
  function FieldsOf(kind: Option<Kind>, m: map<string, Value>): set<seq<string>> {
    if kind.None? then {}
    else
      Singles(kind.value.credentials)
      + (if kind.value.environ && "env" in m && m["env"].Block? then (set name | name in m["env"].entries :: ["env", name]) else {})
  }

  predicate Declared(fields: set<seq<string>>, place: Place) {
    exists f | f in fields :: KeyPlace(f) == place
  }

  function Shown(fields: set<seq<string>>, at: Place, v: Value): Value
    decreases v
  {
    if Declared(fields, at) then Text(REDACTED)
    else match v
      case Text(s) => if Names(s) == [] then v else Text(REDACTED)
      case Block(m) => Block(map k | k in m :: Shown(fields, at + [Key(k)], m[k]))
      case Items(xs) => Items(seq(|xs|, i requires 0 <= i < |xs| => Shown(fields, at + [Index(i)], xs[i])))
      case Other(_) => v
  }

  function ShownBlock(fields: set<seq<string>>, m: map<string, Value>): Value {
    Block(map k | k in m :: Shown(fields, [Key(k)], m[k]))
  }

  /** A value no declared field covers prints as written, unless it is a string that names a variable. */
  lemma {:induction false} UncoveredLeafPrints(fields: set<seq<string>>, at: Place, v: Value, q: Place)
    requires At(v, q).Some? && (At(v, q).value.Text? || At(v, q).value.Other?)
    requires forall n | 0 <= n <= |q| :: !Declared(fields, at + q[..n])
    ensures
      var leaf := At(v, q).value;
      At(Shown(fields, at, v), q)
        == Some(if leaf.Text? && Names(leaf.text) != [] then Text(REDACTED) else leaf)
    decreases |q|
  {
    assert at + q[..0] == at;
    if q != [] {
      var c, rest := Child(v, q[0]).value, q[1..];
      forall n | 0 <= n <= |rest|
        ensures !Declared(fields, at + [q[0]] + rest[..n])
      {
        assert at + [q[0]] + rest[..n] == at + q[..n + 1];
      }
      UncoveredLeafPrints(fields, at + [q[0]], c, rest);
    }
  }

  /** A declared place that nothing above it hides reads "[redacted]", and nothing is left beneath it. */
  lemma {:induction false} DeclaredIsHidden(fields: set<seq<string>>, at: Place, v: Value, q: Place)
    requires At(v, q).Some? && Declared(fields, at + q) && forall n | 0 <= n < |q| :: !Declared(fields, at + q[..n])
    ensures At(Shown(fields, at, v), q) == Some(Text("[redacted]"))
    ensures forall r | r != [] :: At(Shown(fields, at, v), q + r) == None
    decreases |q|
  {
    if q == [] {
      assert at + q == at;
      forall r
        ensures q + r == r
      {
      }
    } else {
      assert at + q[..0] == at;
      var rest := q[1..];
      assert at + [q[0]] + rest == at + q;
      forall n | 0 <= n < |rest|
        ensures !Declared(fields, at + [q[0]] + rest[..n])
      {
        assert at + [q[0]] + rest[..n] == at + q[..n + 1];
      }
      DeclaredIsHidden(fields, at + [q[0]], Child(v, q[0]).value, rest);
      ShownChild(fields, at, v, q[0]);
      forall r | r != []
        ensures At(Shown(fields, at, v), q + r) == None
      {
        assert q + r == [q[0]] + (rest + r);
        ChildAt(Shown(fields, at, v), q[0], rest + r);
      }
      assert q == [q[0]] + rest;
      ChildAt(Shown(fields, at, v), q[0], rest);
    }
  }

  lemma ShownChild(fields: set<seq<string>>, at: Place, v: Value, segment: Segment)
    requires Child(v, segment).Some? && !Declared(fields, at)
    ensures Child(Shown(fields, at, v), segment) == Some(Shown(fields, at + [segment], Child(v, segment).value))
  {
    hide Declared;
  }

  // ---- what is printed of a block, on its own entries ----

  /** Every credential key of the kind, and every entry of `env` for a runner, reads "[redacted]". */
  predicate Conceals(kind: Option<Kind>, m: map<string, Value>, out: Value) {
    && out.Block? && out.entries.Keys == m.Keys
    && (kind.Some? ==>
          && (forall k | k in kind.value.credentials && k in m :: out.entries[k] == Text("[redacted]"))
          && (kind.value.environ && "env" in m && m["env"].Block? && "env" !in kind.value.credentials ==>
                && out.entries["env"].Block? && out.entries["env"].entries.Keys == m["env"].entries.Keys
                && forall name | name in m["env"].entries :: out.entries["env"].entries[name] == Text("[redacted]")))
  }

  /** The entry is none of those. */
  predicate Open(kind: Option<Kind>, k: string) {
    kind.None? || (k !in kind.value.credentials && !(kind.value.environ && k == "env"))
  }

  /** Every other leaf prints as written, or reads "[redacted]" exactly when it names a variable. */
  ghost predicate Prints(kind: Option<Kind>, m: map<string, Value>, out: Value) {
    && out.Block? && out.entries.Keys == m.Keys
    && forall k, q | k in m && Open(kind, k) && At(m[k], q).Some? && (At(m[k], q).value.Text? || At(m[k], q).value.Other?) ::
         var leaf := At(m[k], q).value;
         At(out.entries[k], q) == Some(if leaf.Text? && Names(leaf.text) != [] then Text("[redacted]") else leaf)
  }

  lemma DeclaredOf(kind: Option<Kind>, m: map<string, Value>, place: Place)
    ensures Declared(FieldsOf(kind, m), place) <==>
      && kind.Some?
      && ((exists c | c in kind.value.credentials :: place == [Key(c)])
          || (kind.value.environ && "env" in m && m["env"].Block?
              && exists name | name in m["env"].entries :: place == [Key("env"), Key(name)]))
  {
    if Declared(FieldsOf(kind, m), place) {
      var f :| f in FieldsOf(kind, m) && KeyPlace(f) == place;
      if f in Singles(kind.value.credentials) {
        assert f[0] in kind.value.credentials && place == [Key(f[0])];
      } else {
        assert f == ["env", f[1]] && place == [Key("env"), Key(f[1])];
      }
    }
    if kind.Some? {
      if c :| c in kind.value.credentials && place == [Key(c)] {
        assert [c] in Singles(kind.value.credentials) && KeyPlace([c]) == place;
      }
      if kind.value.environ && "env" in m && m["env"].Block? {
        if name :| name in m["env"].entries && place == [Key("env"), Key(name)] {
          assert ["env", name] in FieldsOf(kind, m) && KeyPlace(["env", name]) == place;
        }
      }
    }
  }

  lemma ShownConceals(kind: Option<Kind>, m: map<string, Value>)
    ensures Conceals(kind, m, ShownBlock(FieldsOf(kind, m), m))
  {
    var fields := FieldsOf(kind, m);
    var out := ShownBlock(fields, m);
    if kind.Some? {
      forall k | k in kind.value.credentials && k in m
        ensures out.entries[k] == Text("[redacted]")
      {
        DeclaredOf(kind, m, [Key(k)]);
      }
      if kind.value.environ && "env" in m && m["env"].Block? && "env" !in kind.value.credentials {
        DeclaredOf(kind, m, [Key("env")]);
        hide FieldsOf, Declared;
        var env := m["env"].entries;
        forall name | name in env
          ensures Shown(fields, [Key("env"), Key(name)], env[name]) == Text("[redacted]")
        {
          DeclaredOf(kind, m, [Key("env"), Key(name)]);
        }
        assert forall name :: [Key("env")] + [Key(name)] == [Key("env"), Key(name)];
      }
    }
  }

  lemma ShownPrints(kind: Option<Kind>, m: map<string, Value>)
    ensures Prints(kind, m, ShownBlock(FieldsOf(kind, m), m))
  {
    var fields := FieldsOf(kind, m);
    hide FieldsOf, Declared;
    forall k, q | k in m && Open(kind, k) && At(m[k], q).Some? && (At(m[k], q).value.Text? || At(m[k], q).value.Other?)
      ensures
        var leaf := At(m[k], q).value;
        At(Shown(fields, [Key(k)], m[k]), q) == Some(if leaf.Text? && Names(leaf.text) != [] then Text("[redacted]") else leaf)
    {
      forall n | 0 <= n <= |q|
        ensures !Declared(fields, [Key(k)] + q[..n])
      {
        DeclaredOf(kind, m, [Key(k)] + q[..n]);
        assert ([Key(k)] + q[..n])[0] == Key(k);
      }
      UncoveredLeafPrints(fields, [Key(k)], m[k], q);
    }
  }

  // ---- the two agree ----

  /** The recorded origins under `path` are those of the tree, and no other value there is from the environment. */
  ghost predicate Faithful(prov: Provenance, path: string, v: Value) {
    && Recorded(prov, path, v)
    && forall q | PathOf(path, q) in prov && prov[PathOf(path, q)].FromEnv? :: OriginAt(v, q).Some?
  }

  /** Under `path`, exactly the declared fields are marked. */
  ghost predicate Marks(sensitive: set<string>, path: string, fields: set<seq<string>>) {
    forall q :: PathOf(path, q) in sensitive <==> Declared(fields, q)
  }

  lemma HidesExactly(prov: Provenance, sensitive: set<string>, path: string, fields: set<seq<string>>, v: Value, q: Place)
    requires Faithful(prov, path, v) && Marks(sensitive, path, fields)
    ensures Hides(prov, sensitive, PathOf(path, q))
      <==> Declared(fields, q) || (At(v, q).Some? && At(v, q).value.Text? && Names(At(v, q).value.text) != [])
  {
  }

  lemma PathSnoc(path: string, at: Place, s: Segment)
    ensures PathOf(path, at + [s]) == Append(PathOf(path, at), s)
  {
    assert (at + [s])[..|at|] == at;
  }

  lemma {:induction false} AtSnoc(v: Value, at: Place, s: Segment)
    requires At(v, at).Some?
    ensures At(v, at + [s]) == Child(At(v, at).value, s)
  {
    if at != [] {
      assert (at + [s])[1..] == at[1..] + [s];
      AtSnoc(Child(v, at[0]).value, at[1..], s);
    } else {
      ChildAt(v, s, []);
      assert at + [s] == [s] + [];
    }
  }

  lemma ShownBlockIs(
      prov: Provenance, sensitive: set<string>, path: string, fields: set<seq<string>>, at: Place, m: map<string, Value>, env: Env)
    requires Hides(prov, sensitive, path) <==> Declared(fields, at)
    requires forall k | k in m ::
      Render(prov, sensitive, AppendMapKey(path, k), Substitute(m[k], env)) == Shown(fields, at + [Key(k)], m[k])
    ensures Render(prov, sensitive, path, Substitute(Block(m), env)) == Shown(fields, at, Block(m))
  {
    hide Hides, Declared, AppendMapKey;
    var n := Substitute(Block(m), env).entries;
    assert n.Keys == m.Keys;
    assert (map k | k in n :: Render(prov, sensitive, AppendMapKey(path, k), n[k]))
        == (map k | k in m :: Shown(fields, at + [Key(k)], m[k]));
  }

  lemma ShownItemsAre(
      prov: Provenance, sensitive: set<string>, path: string, fields: set<seq<string>>, at: Place, xs: seq<Value>, env: Env)
    requires Hides(prov, sensitive, path) <==> Declared(fields, at)
    requires forall i | 0 <= i < |xs| ::
      Render(prov, sensitive, AppendIndex(path, i), Substitute(xs[i], env)) == Shown(fields, at + [Index(i)], xs[i])
    ensures Render(prov, sensitive, path, Substitute(Items(xs), env)) == Shown(fields, at, Items(xs))
  {
    hide Hides, Declared, AppendIndex;
    var ys := Substitute(Items(xs), env).items;
    assert seq(|ys|, i requires 0 <= i < |ys| => Render(prov, sensitive, AppendIndex(path, i), ys[i]))
        == seq(|xs|, i requires 0 <= i < |xs| => Shown(fields, at + [Index(i)], xs[i]));
  }

  lemma {:induction false} RenderIsShown(
      prov: Provenance, sensitive: set<string>, path: string, fields: set<seq<string>>, root: Value, at: Place, v: Value, env: Env)
    requires Faithful(prov, path, root) && Marks(sensitive, path, fields) && At(root, at) == Some(v)
    ensures Render(prov, sensitive, PathOf(path, at), Substitute(v, env)) == Shown(fields, at, v)
    decreases v
  {
    HidesExactly(prov, sensitive, path, fields, root, at);
    hide Faithful, Marks, PathOf, Hides, Declared, At;
    match v
    case Text(s) =>
      if Names(s) == [] {
        LiteralIsUnchanged(s, env);
      }
    case Block(m) =>
      hide Render, Shown;
      forall k | k in m
        ensures Render(prov, sensitive, AppendMapKey(PathOf(path, at), k), Substitute(m[k], env))
             == Shown(fields, at + [Key(k)], m[k])
      {
        AtSnoc(root, at, Key(k));
        PathSnoc(path, at, Key(k));
        RenderIsShown(prov, sensitive, path, fields, root, at + [Key(k)], m[k], env);
      }
      ShownBlockIs(prov, sensitive, PathOf(path, at), fields, at, m, env);
    case Items(xs) =>
      hide Render, Shown;
      forall i | 0 <= i < |xs|
        ensures Render(prov, sensitive, AppendIndex(PathOf(path, at), i), Substitute(xs[i], env))
             == Shown(fields, at + [Index(i)], xs[i])
      {
        AtSnoc(root, at, Index(i));
        PathSnoc(path, at, Index(i));
        RenderIsShown(prov, sensitive, path, fields, root, at + [Index(i)], xs[i], env);
      }
      ShownItemsAre(prov, sensitive, PathOf(path, at), fields, at, xs, env);
    case Other(_) =>
  }

  lemma EntriesAreShown(
      prov: Provenance, sensitive: set<string>, path: string, fields: set<seq<string>>, m: map<string, Value>, env: Env)
    requires forall k | k in m ::
      Render(prov, sensitive, AppendMapKey(path, k), Substitute(m[k], env)) == Shown(fields, [Key(k)], m[k])
    ensures RenderBlock(prov, sensitive, path, Substitute(Block(m), env).entries) == ShownBlock(fields, m)
  {
    hide Render, Shown, AppendMapKey;
    var n := Substitute(Block(m), env).entries;
    assert n.Keys == m.Keys;
    assert RenderBlock(prov, sensitive, path, n).entries == ShownBlock(fields, m).entries;
  }

  lemma BlockIsShown(
      prov: Provenance, sensitive: set<string>, path: string, fields: set<seq<string>>, m: map<string, Value>, env: Env)
    requires Faithful(prov, path, Block(m)) && Marks(sensitive, path, fields)
    ensures RenderBlock(prov, sensitive, path, Substitute(Block(m), env).entries) == ShownBlock(fields, m)
  {
    hide Faithful, Marks, Render, Shown, RenderBlock, ShownBlock, AppendMapKey;
    forall k | k in m
      ensures Render(prov, sensitive, AppendMapKey(path, k), Substitute(m[k], env)) == Shown(fields, [Key(k)], m[k])
    {
      ChildAt(Block(m), Key(k), []);
      PathSnoc(path, [], Key(k));
      assert [Key(k)] + [] == [Key(k)] == [] + [Key(k)];
      RenderIsShown(prov, sensitive, path, fields, Block(m), [Key(k)], m[k], env);
    }
    EntriesAreShown(prov, sensitive, path, fields, m, env);
  }

  /** Resolving a block leaves what its kind declares as it was: only keys are looked at. */
  lemma FieldsIgnoreEnv(kind: Option<Kind>, m: map<string, Value>, env: Env)
    ensures FieldsOf(kind, Substitute(Block(m), env).entries) == FieldsOf(kind, m)
  {
    var n := Substitute(Block(m), env).entries;
    assert n.Keys == m.Keys;
    if "env" in m && m["env"].Block? {
      assert n["env"] == Substitute(m["env"], env);
      assert n["env"].entries.Keys == m["env"].entries.Keys;
    }
  }

  /**
  Nothing an environment holds reaches the rendering: each of the two is rendered from its own
  provenance and with the fields its kind declares of its own resolved block.
  */
  lemma NonInterference(
      prov1: Provenance, prov2: Provenance, sensitive1: set<string>, sensitive2: set<string>, path: string, kind: Option<Kind>,
      m: map<string, Value>, env1: Env, env2: Env)
    requires Faithful(prov1, path, Block(m)) && Faithful(prov2, path, Block(m))
    requires Marks(sensitive1, path, FieldsOf(kind, Substitute(Block(m), env1).entries))
    requires Marks(sensitive2, path, FieldsOf(kind, Substitute(Block(m), env2).entries))
    ensures RenderBlock(prov1, sensitive1, path, Substitute(Block(m), env1).entries)
         == RenderBlock(prov2, sensitive2, path, Substitute(Block(m), env2).entries)
  {
    hide Faithful, Marks, FieldsOf, RenderBlock, ShownBlock;
    FieldsIgnoreEnv(kind, m, env1);
    FieldsIgnoreEnv(kind, m, env2);
    BlockIsShown(prov1, sensitive1, path, FieldsOf(kind, m), m, env1);
    BlockIsShown(prov2, sensitive2, path, FieldsOf(kind, m), m, env2);
  }

  // ---- the two provider blocks of a definition ----

  const TRACKER := "tracker.provider"
  const AGENT := "agent.provider"

  lemma PrefixesApart(p: Place, q: Place)
    ensures PathOf(TRACKER, p) != PathOf(AGENT, q)
  {
    PathIsSpelling(TRACKER, p);
    PathIsSpelling(AGENT, q);
    assert PathOf(TRACKER, p)[0] == 't' && PathOf(AGENT, q)[0] == 'a';
  }

  function MarkedPaths(prefix: string, fields: set<seq<string>>): set<string> {
    set f | f in fields :: PathOf(prefix, KeyPlace(f))
  }

  lemma MarksOwn(sensitive: set<string>, prefix: string, fields: set<seq<string>>, others: set<string>)
    requires sensitive == MarkedPaths(prefix, fields) + others
    requires forall q :: PathOf(prefix, q) !in others
    ensures Marks(sensitive, prefix, fields)
  {
    forall q
      ensures PathOf(prefix, q) in sensitive <==> Declared(fields, q)
    {
      if PathOf(prefix, q) in sensitive {
        var f :| f in fields && PathOf(prefix, q) == PathOf(prefix, KeyPlace(f));
        PathInjective(prefix, q, KeyPlace(f));
      }
    }
  }

  class Redactor {
    const prov: Provenance
    var sensitive: set<string>

    constructor (prov: Provenance)
      ensures this.prov == prov && sensitive == {}
    {
      this.prov := prov;
      sensitive := {};
    }

    method Mark(prefix: string, fields: seq<seq<string>>)
      modifies this
      ensures sensitive == old(sensitive) + MarkedPaths(prefix, SetOf(fields))
    {
      assert MarkedPaths(prefix, SetOf(fields[..0])) == {};
      hide MarkedPaths, AppendMapKey, SetOf;
      for i := 0 to |fields|
        invariant sensitive == old(sensitive) + MarkedPaths(prefix, SetOf(fields[..i]))
      {
        var path := prefix;
        var segments := fields[i];
        for j := 0 to |segments|
          invariant path == PathOf(prefix, KeyPlace(segments[..j]))
          invariant sensitive == old(sensitive) + MarkedPaths(prefix, SetOf(fields[..i]))
        {
          path := AppendMapKey(path, segments[j]);
          PathSnoc(prefix, KeyPlace(segments[..j]), Key(segments[j]));
          assert KeyPlace(segments[..j + 1]) == KeyPlace(segments[..j]) + [Key(segments[j])];
        }
        assert segments[..|segments|] == segments;
        sensitive := sensitive + {path};
        MarkedSnoc(prefix, fields, i);
      }
      assert fields[..|fields|] == fields;
    }
  }

  function SetOf(fields: seq<seq<string>>): set<seq<string>> {
    set f | f in fields
  }

  lemma MarkedSnoc(prefix: string, fields: seq<seq<string>>, i: nat)
    requires i < |fields|
    ensures MarkedPaths(prefix, SetOf(fields[..i + 1]))
         == MarkedPaths(prefix, SetOf(fields[..i])) + {PathOf(prefix, KeyPlace(fields[i]))}
  {
    assert fields[..i + 1] == fields[..i] + [fields[i]];
    assert forall f :: f in fields[..i + 1] <==> f in fields[..i] || f == fields[i];
  }

  lemma SinglesSnoc(keys: seq<string>, key: string)
    ensures Singles(keys + [key]) == Singles(keys) + {[key]}
  {
    assert forall k :: k in keys + [key] <==> k in keys || k == key;
    forall f
      ensures f in Singles(keys + [key]) <==> f in Singles(keys) || f == [key]
    {
      assert f == [key] ==> key in keys + [key];
    }
  }

  /** The kind's own list of what it declares, in whatever order the entries come. */
  method SensitiveFields(kind: Kind, block: map<string, Value>) returns (fields: seq<seq<string>>)
    ensures SetOf(fields) == FieldsOf(Some(kind), block)
  {
    fields := [];
    for i := 0 to |kind.credentials|
      invariant SetOf(fields) == Singles(kind.credentials[..i])
    {
      assert kind.credentials[..i + 1] == kind.credentials[..i] + [kind.credentials[i]];
      SinglesSnoc(kind.credentials[..i], kind.credentials[i]);
      fields := fields + [[kind.credentials[i]]];
    }
    assert kind.credentials[..|kind.credentials|] == kind.credentials;
    if kind.environ && "env" in block && block["env"].Block? {
      ghost var own := SetOf(fields);
      var entries := block["env"].entries;
      var todo := entries.Keys;
      while todo != {}
        invariant todo <= entries.Keys
        invariant SetOf(fields) == own + set name | name in entries.Keys - todo :: ["env", name]
      {
        var name :| name in todo;
        fields := fields + [["env", name]];
        todo := todo - {name};
      }
    }
  }

  lemma FaithfulAfter(before: Provenance, after: Provenance, path: string, v: Value)
    requires Recorded(after, path, v) && Framed(before, after, path, v)
    requires forall q :: PathOf(path, q) !in before
    ensures Faithful(after, path, v)
  {
    forall q | PathOf(path, q) in after
      ensures OriginAt(v, q).Some?
    {
      assert Owns(path, v, PathOf(path, q)) || SameAt(before, after, PathOf(path, q));
      var r :| OriginAt(v, r).Some? && PathOf(path, q) == PathOf(path, r);
      PathInjective(path, q, r);
    }
  }

  lemma TrackerKept(before: Provenance, after: Provenance, tracker: Value, agent: Value)
    requires Framed(before, after, AGENT, agent)
    ensures forall q :: SameAt(before, after, PathOf(TRACKER, q))
  {
    forall q
      ensures SameAt(before, after, PathOf(TRACKER, q))
    {
      forall r {
        PrefixesApart(q, r);
      }
      assert !Owns(AGENT, agent, PathOf(TRACKER, q));
    }
  }

  /**
  Loading the two provider blocks and rendering them: refused exactly when a named variable is
  missing, and otherwise what is printed does not depend on the environment.
  */
  method LoadAndRender(
      tracker: map<string, Value>, agent: map<string, Value>, rest: Provenance,
      trackerKind: Option<Kind>, agentKind: Option<Kind>, env: Env)
      returns (r: Result<(Value, Value), Missing>)
    requires forall q :: PathOf(TRACKER, q) !in rest && PathOf(AGENT, q) !in rest
    ensures r.Ok? <==> Resolvable(Block(tracker), env) && Resolvable(Block(agent), env)
    ensures r.Ok? ==>
      r.value == (ShownBlock(FieldsOf(trackerKind, tracker), tracker), ShownBlock(FieldsOf(agentKind, agent), agent))
    ensures r.Ok? ==> Conceals(trackerKind, tracker, r.value.0) && Prints(trackerKind, tracker, r.value.0)
    ensures r.Ok? ==> Conceals(agentKind, agent, r.value.1) && Prints(agentKind, agent, r.value.1)
  {
    var loader := new Loader();
    loader.prov := rest;
    var t := loader.ResolveProviderEnv(tracker, TRACKER, env);
    if t.Err? {
      return Err(t.error);
    }
    ghost var halfway := loader.prov;
    var a := loader.ResolveProviderEnv(agent, AGENT, env);
    if a.Err? {
      return Err(a.error);
    }
    LoadedFaithfully(rest, halfway, loader.prov, tracker, agent);
    var red := new Redactor(loader.prov);
    MarkedNothing(TRACKER);
    MarkedNothing(AGENT);
    hide Faithful, Marks, RenderBlock, ShownBlock, FieldsOf, MarkedPaths, Conceals, Prints;
    ShownConceals(trackerKind, tracker);
    ShownPrints(trackerKind, tracker);
    ShownConceals(agentKind, agent);
    ShownPrints(agentKind, agent);
    FieldsIgnoreEnv(trackerKind, tracker, env);
    FieldsIgnoreEnv(agentKind, agent, env);
    UnknownKind(tracker);
    UnknownKind(agent);
    if trackerKind.Some? {
      var fields := SensitiveFields(trackerKind.value, t.value);
      red.Mark(TRACKER, fields);
    }
    if agentKind.Some? {
      var fields := SensitiveFields(agentKind.value, a.value);
      red.Mark(AGENT, fields);
    }
    MarkedBoth(red.sensitive, FieldsOf(trackerKind, tracker), FieldsOf(agentKind, agent));
    BlockIsShown(red.prov, red.sensitive, TRACKER, FieldsOf(trackerKind, tracker), tracker, env);
    BlockIsShown(red.prov, red.sensitive, AGENT, FieldsOf(agentKind, agent), agent, env);
    r := Ok((RenderBlock(red.prov, red.sensitive, TRACKER, t.value), RenderBlock(red.prov, red.sensitive, AGENT, a.value)));
  }

  lemma MarkedNothing(prefix: string)
    ensures MarkedPaths(prefix, {}) == {}
  {
  }

  lemma UnknownKind(m: map<string, Value>)
    ensures FieldsOf(None, m) == {}
  {
  }

  lemma LoadedFaithfully(
      rest: Provenance, halfway: Provenance, prov: Provenance, tracker: map<string, Value>, agent: map<string, Value>)
    requires forall q :: PathOf(TRACKER, q) !in rest && PathOf(AGENT, q) !in rest
    requires Recorded(halfway, TRACKER, Block(tracker)) && Framed(rest, halfway, TRACKER, Block(tracker))
    requires Recorded(prov, AGENT, Block(agent)) && Framed(halfway, prov, AGENT, Block(agent))
    ensures Faithful(prov, TRACKER, Block(tracker)) && Faithful(prov, AGENT, Block(agent))
  {
    FaithfulAfter(rest, halfway, TRACKER, Block(tracker));
    TrackerKept(halfway, prov, Block(tracker), Block(agent));
    FaithfulKept(halfway, prov, TRACKER, Block(tracker));
    forall q
      ensures PathOf(AGENT, q) !in halfway
    {
      forall r {
        PrefixesApart(r, q);
      }
      assert !Owns(TRACKER, Block(tracker), PathOf(AGENT, q));
      assert SameAt(rest, halfway, PathOf(AGENT, q));
    }
    FaithfulAfter(halfway, prov, AGENT, Block(agent));
  }

  lemma FaithfulKept(before: Provenance, after: Provenance, path: string, v: Value)
    requires Faithful(before, path, v) && forall q :: SameAt(before, after, PathOf(path, q))
    ensures Faithful(after, path, v)
  {
    forall q | OriginAt(v, q).Some?
      ensures PathOf(path, q) in after && after[PathOf(path, q)] == OriginAt(v, q).value
    {
      assert SameAt(before, after, PathOf(path, q));
    }
  }

  lemma MarkedBoth(sensitive: set<string>, trackerFields: set<seq<string>>, agentFields: set<seq<string>>)
    requires sensitive == MarkedPaths(TRACKER, trackerFields) + MarkedPaths(AGENT, agentFields)
    ensures Marks(sensitive, TRACKER, trackerFields) && Marks(sensitive, AGENT, agentFields)
  {
    forall p, q {
      PrefixesApart(p, q);
    }
    MarksOwn(sensitive, TRACKER, trackerFields, MarkedPaths(AGENT, agentFields));
    MarksOwn(sensitive, AGENT, agentFields, MarkedPaths(TRACKER, trackerFields));
  }
}
