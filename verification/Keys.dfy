/**
Idempotency keys.  Each is derived from facts already persisted, so two distinct
dispatches share a key only if a NUL hides in a part or the digest collides.
*/
module Keys {
  import opened Delimiters

  const NUL: char := '\0'

  datatype Kind = SandboxKind | RunKind | HookKind | SignalKind

  function Tag(kind: Kind): string {
    match kind
    case SandboxKind => "ben.sbx."
    case RunKind => "ben.run."
    case HookKind => "ben.hook."
    case SignalKind => "ben.sig."
  }

  function Join(parts: seq<string>): string {
    if parts == [] then ""
    else if |parts| == 1 then parts[0]
    else parts[0] + [NUL] + Join(parts[1..])
  }

  function Derive(digest: string -> string, kind: Kind, parts: seq<string>): string {
    Tag(kind) + digest(Join(parts))
  }

  predicate NulFree(parts: seq<string>) {
    forall p | p in parts :: NUL !in p
  }

  lemma {:induction false} JoinInjective(p: seq<string>, q: seq<string>)
    requires |p| == |q| && NulFree(p) && NulFree(q) && Join(p) == Join(q)
    ensures p == q
  {
    if |p| > 1 {
      StopDelimits(NUL, p[0], q[0], Join(p[1..]), Join(q[1..]));
      JoinInjective(p[1..], q[1..]);
      assert p == [p[0]] + p[1..] && q == [q[0]] + q[1..];
    }
  }

  /** A digest with no collision between the two preimages at hand. */
  predicate Apart(digest: string -> string, p: seq<string>, q: seq<string>) {
    digest(Join(p)) == digest(Join(q)) ==> Join(p) == Join(q)
  }

  lemma TagsApart(k: Kind, j: Kind, x: string, y: string)
    requires Tag(k) + x == Tag(j) + y
    ensures k == j && x == y
  {
    var s := Tag(k) + x;
    assert Tag(k)[4] == s[4] == Tag(j)[4] && Tag(k)[5] == s[5] == Tag(j)[5];
    assert x == s[|Tag(k)|..] && y == s[|Tag(j)|..];
  }

  /**
  One key names one request: keys of two kinds are never equal, whatever their parts, and
  within a kind equal keys have the same parts in the same places.
  */
  lemma DeriveInjective(digest: string -> string, k: Kind, p: seq<string>, j: Kind, q: seq<string>)
    requires Derive(digest, k, p) == Derive(digest, j, q)
    ensures k == j
    ensures |p| == |q| && NulFree(p) && NulFree(q) && Apart(digest, p, q) ==> p == q
  {
    TagsApart(k, j, digest(Join(p)), digest(Join(q)));
    if |p| == |q| && NulFree(p) && NulFree(q) && Apart(digest, p, q) {
      JoinInjective(p, q);
    }
  }

  datatype ProcessRef = ProcessRef(sandboxId: string, runId: string, requestDigest: string)

  function Parts(ref: ProcessRef): seq<string> {
    [ref.sandboxId, ref.runId, ref.requestDigest]
  }

  function RunKey(digest: string -> string, ref: ProcessRef): string {
    Derive(digest, RunKind, Parts(ref))
  }

  /**
  The label a run carries is its creator's run key, so a run whose label equals this
  address's key was dispatched at this address and at no other.
  */
  lemma LabelNamesTheAddress(digest: string -> string, mine: ProcessRef, other: ProcessRef)
    requires NulFree(Parts(mine)) && NulFree(Parts(other)) && Apart(digest, Parts(mine), Parts(other))
    ensures RunKey(digest, mine) == RunKey(digest, other) <==> mine == other
  {
    if RunKey(digest, mine) == RunKey(digest, other) {
      DeriveInjective(digest, RunKind, Parts(mine), RunKind, Parts(other));
      assert Parts(mine)[0] == Parts(other)[0] && Parts(mine)[1] == Parts(other)[1] && Parts(mine)[2] == Parts(other)[2];
    }
  }
}
