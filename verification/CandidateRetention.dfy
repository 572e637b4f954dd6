/**
The trackers a builder keeps so that a later candidate can continue their request
control: the latest one of each of the most recently constructed domains.
*/
module CandidateRetention {
  import opened Outcomes

  const LIMIT: nat := 8

  /** A constructed tracker: which object it is and the request-control domain it answers for. */
  datatype Tracker = Tracker(id: nat, domain: string)

  function Without(s: seq<string>, d: string): (r: seq<string>)
    ensures forall x :: x in r <==> x in s && x != d
    ensures |r| <= |s|
  {
    if s == [] then []
    else
      assert s == s[..|s| - 1] + [s[|s| - 1]];
      if s[|s| - 1] == d then Without(s[..|s| - 1], d) else Without(s[..|s| - 1], d) + [s[|s| - 1]]
  }

  predicate Distinct(s: seq<string>) {
    forall i, j | 0 <= i < j < |s| :: s[i] != s[j]
  }

  /** The last `LIMIT` entries. */
  function Tail(s: seq<string>): seq<string> {
    if |s| <= LIMIT then s else s[|s| - LIMIT..]
  }

  // ---- what the history says ----

  /** The domains constructed so far, each at its latest construction, oldest first. */
  function ByRecency(history: seq<Tracker>): seq<string> {
    if history == [] then []
    else
      var d := history[|history| - 1].domain;
      Without(ByRecency(history[..|history| - 1]), d) + [d]
  }

  /** When a domain was last constructed: one more than the index, or zero if never. */
  function LastBuilt(history: seq<Tracker>, d: string): (n: nat)
    ensures n <= |history|
  {
    if history == [] then 0
    else if history[|history| - 1].domain == d then |history|
    else LastBuilt(history[..|history| - 1], d)
  }

  function Latest(history: seq<Tracker>, d: string): Option<Tracker> {
    if LastBuilt(history, d) == 0 then None else Some(history[LastBuilt(history, d) - 1])
  }

  lemma {:induction false} WithoutKeepsOrder(s: seq<string>, d: string, history: seq<Tracker>)
    requires forall i, j | 0 <= i < j < |s| :: LastBuilt(history, s[i]) < LastBuilt(history, s[j])
    ensures forall i, j | 0 <= i < j < |Without(s, d)| :: LastBuilt(history, Without(s, d)[i]) < LastBuilt(history, Without(s, d)[j])
  {
    if s != [] {
      var front := s[..|s| - 1];
      WithoutKeepsOrder(front, d, history);
      forall x | x in Without(front, d)
        ensures LastBuilt(history, x) < LastBuilt(history, s[|s| - 1])
      {
        var i :| 0 <= i < |front| && front[i] == x;
      }
    }
  }

  /** The recency list holds exactly the constructed domains, strictly by their latest construction. */
  lemma {:induction false} RecencyIsByLastBuilt(history: seq<Tracker>)
    ensures forall d :: d in ByRecency(history) <==> LastBuilt(history, d) > 0
    ensures forall i, j | 0 <= i < j < |ByRecency(history)| ::
      LastBuilt(history, ByRecency(history)[i]) < LastBuilt(history, ByRecency(history)[j])
  {
    if history != [] {
      var front, d := history[..|history| - 1], history[|history| - 1].domain;
      RecencyIsByLastBuilt(front);
      WithoutKeepsOrder(ByRecency(front), d, front);
      assert forall x | x != d :: LastBuilt(history, x) == LastBuilt(front, x);
      assert forall x | x in Without(ByRecency(front), d) :: x != d;
    }
  }

  // ---- the bound may be applied at every step ----

  lemma {:induction false} WithoutAbsent(s: seq<string>, d: string)
    requires d !in s
    ensures Without(s, d) == s
  {
    if s != [] {
      assert s[|s| - 1] in s && forall x | x in s[..|s| - 1] :: x in s;
      WithoutAbsent(s[..|s| - 1], d);
      assert s == s[..|s| - 1] + [s[|s| - 1]];
    }
  }

  lemma {:induction false} WithoutSplit(s: seq<string>, t: seq<string>, d: string)
    ensures Without(s + t, d) == Without(s, d) + Without(t, d)
    decreases |t|
  {
    if t == [] {
      assert s + t == s;
    } else {
      var n := |t| - 1;
      assert (s + t)[..|s + t| - 1] == s + t[..n];
      WithoutSplit(s, t[..n], d);
    }
  }

  lemma {:induction false} WithoutOne(s: seq<string>, d: string)
    requires Distinct(s) && d in s
    ensures |Without(s, d)| == |s| - 1
  {
    var n := |s| - 1;
    assert s == s[..n] + [s[n]];
    if s[n] == d {
      WithoutAbsent(s[..n], d);
    } else {
      WithoutOne(s[..n], d);
    }
  }

  lemma WithoutMost(s: seq<string>, d: string)
    requires Distinct(s)
    ensures |Without(s, d)| >= |s| - 1
  {
    if d in s {
      WithoutOne(s, d);
    } else {
      WithoutAbsent(s, d);
    }
  }

  lemma TailOfSuffix(s: seq<string>, t: seq<string>)
    requires |t| >= LIMIT
    ensures Tail(s + t) == Tail(t)
  {
  }

  /** Dropping the oldest entries before or after a domain is renewed leaves the same list. */
  lemma TailOfRenewed(s: seq<string>, d: string)
    requires Distinct(s)
    ensures Tail(Without(Tail(s), d) + [d]) == Tail(Without(s, d) + [d])
  {
    if |s| > LIMIT {
      var gone, kept := s[..|s| - LIMIT], s[|s| - LIMIT..];
      assert s == gone + kept;
      hide Without, Tail;
      WithoutSplit(gone, kept, d);
      WithoutMost(kept, d);
      TailOfSuffix(Without(gone, d), Without(kept, d) + [d]);
      assert Without(s, d) + [d] == Without(gone, d) + (Without(kept, d) + [d]);
      TailIs(s);
    } else {
      TailIs(s);
    }
  }

  lemma TailIs(s: seq<string>)
    ensures Tail(s) == if |s| <= LIMIT then s else s[|s| - LIMIT..]
  {
  }

  // ---- the offers ----

  /** The retained trackers, newest first. */
  function NewestFirst(domains: seq<string>, candidates: map<string, Tracker>): seq<Tracker>
    requires forall d | d in domains :: d in candidates
  {
    if domains == [] then []
    else
      assert forall d | d in domains[1..] :: d in domains;
      NewestFirst(domains[1..], candidates) + [candidates[domains[0]]]
  }

  /** The trackers other than the candidate itself and the published one, in order. */
  function Others(s: seq<Tracker>, tracker: Tracker, prev: Option<Tracker>): (r: seq<Tracker>)
    ensures forall c :: c in r <==> c in s && c != tracker && prev != Some(c)
  {
    if s == [] then []
    else
      var front := s[..|s| - 1];
      assert s == front + [s[|s| - 1]];
      Others(front, tracker, prev) + (if s[|s| - 1] == tracker || prev == Some(s[|s| - 1]) then [] else [s[|s| - 1]])
  }

  function Offers(prev: Option<Tracker>, s: seq<Tracker>, tracker: Tracker): seq<Tracker> {
    (if prev.Some? then [prev.value] else []) + Others(s, tracker, prev)
  }

  predicate NoRepeats(s: seq<Tracker>) {
    forall i, j | 0 <= i < j < |s| :: s[i] != s[j]
  }

  lemma {:induction false} NewestFirstApart(domains: seq<string>, candidates: map<string, Tracker>)
    requires Distinct(domains) && forall d | d in domains :: d in candidates && candidates[d].domain == d
    ensures NoRepeats(NewestFirst(domains, candidates))
    ensures forall c :: c in NewestFirst(domains, candidates) <==> c.domain in domains && candidates[c.domain] == c
  {
    if domains != [] {
      assert domains == [domains[0]] + domains[1..];
      NewestFirstApart(domains[1..], candidates);
    }
  }

  lemma {:induction false} OthersApart(s: seq<Tracker>, tracker: Tracker, prev: Option<Tracker>)
    requires NoRepeats(s)
    ensures NoRepeats(Others(s, tracker, prev))
  {
    if s != [] {
      OthersApart(s[..|s| - 1], tracker, prev);
    }
  }

  // ---- the builder's slots ----

  /** The map answers for exactly the listed domains, each with its latest tracker. */
  ghost predicate Holding(history: seq<Tracker>, domains: seq<string>, candidates: map<string, Tracker>) {
    && Distinct(domains)
    && (forall d :: d in candidates <==> d in domains)
    && (forall d | d in domains :: Latest(history, d) == Some(candidates[d]) && candidates[d].domain == d)
  }

  class Retention {
    var candidates: map<string, Tracker>
    var domains: seq<string>
    ghost var history: seq<Tracker>

    /** The slots hold the latest tracker of each of the most recently constructed domains, and nothing else. */
    ghost predicate Valid()
      reads this
    {
      domains == Tail(ByRecency(history)) && Holding(history, domains, candidates)
    }

    constructor ()
      ensures Valid() && history == []
    {
      candidates, domains, history := map[], [], [];
    }

    method Retain(tracker: Tracker)
      requires Valid()
      modifies this
      ensures Valid() && history == old(history) + [tracker]
    {
      var key := tracker.domain;
      ghost var now := history + [tracker];
      RenewedHolds(history, domains, candidates, tracker);
      hide Without, Tail, ByRecency, Latest, Holding, Distinct;
      candidates := candidates[key := tracker];
      domains := Without(domains, key) + [key];
      ghost var whole := domains;
      while |domains| > LIMIT
        invariant Tail(domains) == Tail(whole) && Holding(now, domains, candidates)
        invariant history == old(history)
      {
        DropOldest(now, domains, candidates);
        candidates := candidates - {domains[0]};
        domains := domains[1..];
      }
      TailIs(domains);
      history := now;
      HoldingIs(now, domains, candidates);
    }

    method Adopt(prev: Option<Tracker>, tracker: Tracker) returns (predecessors: seq<Tracker>)
      requires Valid()
      modifies this
      ensures Valid() && history == old(history) + [tracker]
      ensures predecessors == Offers(prev, NewestFirst(old(domains), old(candidates)), tracker)
      ensures NoRepeats(predecessors) && (prev.Some? ==> predecessors != [] && predecessors[0] == prev.value)
      ensures forall c :: c in predecessors <==>
        prev == Some(c) || (c != tracker && c.domain in old(domains) && old(candidates)[c.domain] == c)
    {
      HoldingIs(history, domains, candidates);
      OffersAre(prev, domains, candidates, tracker);
      predecessors := Offer(prev, tracker);
      Retain(tracker);
    }

    /** The published tracker, then the retained ones from the newest, without the candidate or a repeat. */
    method Offer(prev: Option<Tracker>, tracker: Tracker) returns (predecessors: seq<Tracker>)
      requires Distinct(domains) && forall d | d in domains :: d in candidates && candidates[d].domain == d
      ensures predecessors == Offers(prev, NewestFirst(domains, candidates), tracker)
    {
      hide NewestFirst, Others;
      predecessors := if prev.Some? then [prev.value] else [];
      ghost var lead := predecessors;
      NewestNone(candidates, tracker, prev);
      assert domains[|domains|..] == [];
      for i := |domains| downto 0
        invariant predecessors == lead + Others(NewestFirst(domains[i..], candidates), tracker, prev)
      {
        var candidate := candidates[domains[i]];
        NewestSnoc(domains, candidates, i);
        OthersSnoc(NewestFirst(domains[i + 1..], candidates), candidate, tracker, prev);
        NotOfferedYet(domains, candidates, i);
        if !(candidate == tracker || candidate in predecessors) {
          predecessors := predecessors + [candidate];
        }
      }
      assert domains[0..] == domains;
    }
  }

  lemma OffersAre(prev: Option<Tracker>, domains: seq<string>, candidates: map<string, Tracker>, tracker: Tracker)
    requires Distinct(domains) && forall d | d in domains :: d in candidates && candidates[d].domain == d
    ensures
      var offers := Offers(prev, NewestFirst(domains, candidates), tracker);
      && NoRepeats(offers) && (prev.Some? ==> offers != [] && offers[0] == prev.value)
      && forall c :: c in offers <==> prev == Some(c) || (c != tracker && c.domain in domains && candidates[c.domain] == c)
  {
    var newest := NewestFirst(domains, candidates);
    NewestFirstApart(domains, candidates);
    OthersApart(newest, tracker, prev);
    hide NewestFirst, Others;
    var rest := Others(newest, tracker, prev);
    assert forall k | 0 <= k < |rest| :: rest[k] in rest;
  }

  lemma NewestNone(candidates: map<string, Tracker>, tracker: Tracker, prev: Option<Tracker>)
    ensures Others(NewestFirst([], candidates), tracker, prev) == []
  {
  }

  /** A domain's tracker is not among those of the newer domains. */
  lemma NotOfferedYet(domains: seq<string>, candidates: map<string, Tracker>, i: nat)
    requires i < |domains| && Distinct(domains) && forall d | d in domains :: d in candidates && candidates[d].domain == d
    ensures forall d | d in domains[i + 1..] :: d in candidates
    ensures candidates[domains[i]] !in NewestFirst(domains[i + 1..], candidates)
  {
    NewestFirstApart(domains[i + 1..], candidates);
    assert domains[i] !in domains[i + 1..];
  }

  lemma RecencyDistinct(history: seq<Tracker>)
    ensures Distinct(ByRecency(history)) && Distinct(Tail(ByRecency(history)))
  {
    RecencyIsByLastBuilt(history);
  }

  lemma DistinctSnoc(s: seq<string>, d: string)
    requires Distinct(s) && d !in s
    ensures Distinct(s + [d])
  {
    assert forall i | 0 <= i < |s| :: s[i] in s;
  }

  lemma {:induction false} WithoutDistinct(s: seq<string>, d: string)
    requires Distinct(s)
    ensures Distinct(Without(s, d))
  {
    if s != [] {
      var front, last := s[..|s| - 1], s[|s| - 1];
      WithoutDistinct(front, d);
      assert last !in front;
      DistinctSnoc(Without(front, d), last);
    }
  }

  lemma LatestSnoc(history: seq<Tracker>, tracker: Tracker, d: string)
    ensures Latest(history + [tracker], d) == if d == tracker.domain then Some(tracker) else Latest(history, d)
  {
    assert (history + [tracker])[..|history|] == history;
  }

  lemma RenewedHolds(history: seq<Tracker>, domains: seq<string>, candidates: map<string, Tracker>, tracker: Tracker)
    requires domains == Tail(ByRecency(history)) && Holding(history, domains, candidates)
    ensures Holding(history + [tracker], Without(domains, tracker.domain) + [tracker.domain], candidates[tracker.domain := tracker])
    ensures Tail(Without(domains, tracker.domain) + [tracker.domain]) == Tail(ByRecency(history + [tracker]))
  {
    hide Without, ByRecency, Tail, Distinct, Latest;
    RenewedRecency(history, tracker);
    WithoutDistinct(domains, tracker.domain);
    DistinctSnoc(Without(domains, tracker.domain), tracker.domain);
    forall x {
      LatestSnoc(history, tracker, x);
    }
  }

  lemma RenewedRecency(history: seq<Tracker>, tracker: Tracker)
    ensures Tail(Without(Tail(ByRecency(history)), tracker.domain) + [tracker.domain]) == Tail(ByRecency(history + [tracker]))
  {
    var now := history + [tracker];
    assert now[..|history|] == history;
    RecencyDistinct(history);
    TailOfRenewed(ByRecency(history), tracker.domain);
    hide Without, Tail, Distinct;
    assert ByRecency(now) == Without(ByRecency(history), tracker.domain) + [tracker.domain];
  }

  lemma DropOldest(history: seq<Tracker>, domains: seq<string>, candidates: map<string, Tracker>)
    requires |domains| > LIMIT && Holding(history, domains, candidates)
    ensures Holding(history, domains[1..], candidates - {domains[0]}) && Tail(domains[1..]) == Tail(domains)
  {
    hide Latest;
    assert domains == [domains[0]] + domains[1..];
    TailOfSuffix([domains[0]], domains[1..]);
  }

  lemma HoldingIs(history: seq<Tracker>, domains: seq<string>, candidates: map<string, Tracker>)
    requires Holding(history, domains, candidates)
    ensures Distinct(domains) && forall d | d in domains :: d in candidates && candidates[d].domain == d
  {
  }

  lemma NewestSnoc(domains: seq<string>, candidates: map<string, Tracker>, i: nat)
    requires i < |domains| && forall d | d in domains :: d in candidates
    ensures forall d | d in domains[i..] :: d in candidates
    ensures forall d | d in domains[i + 1..] :: d in candidates
    ensures NewestFirst(domains[i..], candidates) == NewestFirst(domains[i + 1..], candidates) + [candidates[domains[i]]]
  {
    assert domains[i..][1..] == domains[i + 1..];
  }

  lemma OthersSnoc(s: seq<Tracker>, c: Tracker, tracker: Tracker, prev: Option<Tracker>)
    ensures Others(s + [c], tracker, prev) == Others(s, tracker, prev) + if c == tracker || prev == Some(c) then [] else [c]
  {
    assert (s + [c])[..|s|] == s;
  }

  // ---- which trackers are kept ----

  /** The domains constructed after the `i`-th construction. */
  function BuiltAfter(history: seq<Tracker>, i: nat): set<string> {
    set j: nat | i < j < |history| :: history[j].domain
  }

  lemma {:induction false} LastBuiltIs(history: seq<Tracker>, d: string)
    ensures
      var n := LastBuilt(history, d);
      (n > 0 ==> history[n - 1].domain == d) && forall j | n <= j < |history| :: history[j].domain != d
  {
    if history != [] {
      LastBuiltIs(history[..|history| - 1], d);
    }
  }

  lemma BuiltAfterIs(history: seq<Tracker>, i: nat, d: string)
    ensures d in BuiltAfter(history, i) <==> LastBuilt(history, d) > i + 1
  {
    LastBuiltIs(history, d);
  }

  lemma {:induction false} Elements(s: seq<string>)
    requires Distinct(s)
    ensures |set x | x in s| == |s|
  {
    if s != [] {
      var n := |s| - 1;
      Elements(s[..n]);
      assert (set x | x in s) == (set x | x in s[..n]) + {s[n]};
    }
  }

  /** Strictly by their latest construction. */
  predicate InBuildOrder(history: seq<Tracker>, s: seq<string>) {
    forall i, j | 0 <= i < j < |s| :: LastBuilt(history, s[i]) < LastBuilt(history, s[j])
  }

  lemma RecencyInOrder(history: seq<Tracker>)
    ensures InBuildOrder(history, ByRecency(history)) && InBuildOrder(history, Tail(ByRecency(history)))
    ensures forall d :: d in ByRecency(history) <==> LastBuilt(history, d) > 0
  {
    RecencyIsByLastBuilt(history);
    hide ByRecency, LastBuilt;
  }

  lemma LaterInOrder(history: seq<Tracker>, s: seq<string>, k: nat, d: string)
    requires k < |s| && InBuildOrder(history, s) && d in s
    ensures d in s[k + 1..] <==> LastBuilt(history, d) > LastBuilt(history, s[k])
  {
    hide LastBuilt;
    var j :| 0 <= j < |s| && s[j] == d;
    assert j > k ==> s[k + 1..][j - k - 1] == d;
    if d in s[k + 1..] {
      var i :| 0 <= i < |s[k + 1..]| && s[k + 1..][i] == d;
      assert s[i + k + 1] == d;
    }
  }

  /** How many domains were constructed after a listed one tells its place from the end. */
  lemma PlaceInRecency(history: seq<Tracker>, k: nat)
    requires k < |ByRecency(history)|
    ensures
      var built := LastBuilt(history, ByRecency(history)[k]);
      built > 0 && |BuiltAfter(history, built - 1)| == |ByRecency(history)| - 1 - k
  {
    hide *;
    var s := ByRecency(history);
    RecencyInOrder(history);
    assert s[k] in s;
    var i, later := LastBuilt(history, s[k]) - 1, s[k + 1..];
    forall d
      ensures d in BuiltAfter(history, i) <==> d in later
    {
      BuiltAfterIs(history, i, d);
      if d in s {
        LaterInOrder(history, s, k, d);
      }
    }
    RecencyDistinct(history);
    TailDistinct(s, k + 1);
    assert BuiltAfter(history, i) == set x | x in later;
    Elements(later);
  }

  lemma TailDistinct(s: seq<string>, k: nat)
    requires Distinct(s) && k <= |s|
    ensures Distinct(s[k..])
  {
  }

  lemma InTail(s: seq<string>, k: nat)
    requires Distinct(s) && k < |s|
    ensures s[k] in Tail(s) <==> k >= |s| - 8
  {
    if |s| > 8 && k >= |s| - 8 {
      assert Tail(s)[k - (|s| - 8)] == s[k];
    }
  }

  lemma ValidIs(r: Retention, d: string)
    requires r.Valid()
    ensures r.domains == Tail(ByRecency(r.history)) && (d in r.candidates <==> d in r.domains)
    ensures d in r.candidates ==> Latest(r.history, d) == Some(r.candidates[d])
  {
  }

  lemma LatestIs(history: seq<Tracker>, i: nat)
    requires i < |history| && history[i].domain !in BuiltAfter(history, i)
    ensures LastBuilt(history, history[i].domain) == i + 1 && Latest(history, history[i].domain) == Some(history[i])
  {
    LastBuiltIs(history, history[i].domain);
    BuiltAfterIs(history, i, history[i].domain);
  }

  /** The latest tracker of a domain is kept exactly while fewer than eight other domains were constructed after it. */
  lemma KeptExactlyWhen(r: Retention, i: nat)
    requires r.Valid() && i < |r.history| && r.history[i].domain !in BuiltAfter(r.history, i)
    ensures r.history[i].domain in r.candidates <==> |BuiltAfter(r.history, i)| < 8
    ensures r.history[i].domain in r.candidates ==> r.candidates[r.history[i].domain] == r.history[i]
  {
    hide *;
    var d, s := r.history[i].domain, ByRecency(r.history);
    ValidIs(r, d);
    LatestIs(r.history, i);
    RecencyInOrder(r.history);
    RecencyDistinct(r.history);
    var k :| 0 <= k < |s| && s[k] == d;
    PlaceInRecency(r.history, k);
    InTail(s, k);
  }

  /** Nothing else is kept. */
  lemma OnlyLatestAreKept(r: Retention, d: string)
    requires r.Valid() && d in r.candidates
    ensures exists i: nat :: i < |r.history| && r.candidates[d] == r.history[i] && r.history[i].domain == d && d !in BuiltAfter(r.history, i)
  {
    var i := LastBuilt(r.history, d) - 1;
    BuiltAfterIs(r.history, i, d);
  }

  // ---- the order of the offers ----

  /** Each tracker's domain was constructed later than those of the trackers after it. */
  predicate FromNewest(history: seq<Tracker>, s: seq<Tracker>) {
    forall i, j | 0 <= i < j < |s| :: LastBuilt(history, s[i].domain) > LastBuilt(history, s[j].domain)
  }

  lemma FromNewestSnoc(history: seq<Tracker>, s: seq<Tracker>, c: Tracker)
    requires FromNewest(history, s) && forall x | x in s :: LastBuilt(history, x.domain) > LastBuilt(history, c.domain)
    ensures FromNewest(history, s + [c])
  {
    hide LastBuilt;
    assert forall i | 0 <= i < |s| :: s[i] in s;
  }

  lemma {:induction false} NewestFirstIs(history: seq<Tracker>, domains: seq<string>, candidates: map<string, Tracker>)
    requires forall d | d in domains :: d in candidates && candidates[d].domain == d
    requires InBuildOrder(history, domains)
    ensures FromNewest(history, NewestFirst(domains, candidates))
    ensures forall c | c in NewestFirst(domains, candidates) :: c.domain in domains
  {
    hide LastBuilt;
    if domains != [] {
      var rest := domains[1..];
      assert domains == [domains[0]] + rest;
      NewestFirstIs(history, rest, candidates);
      forall c | c in NewestFirst(rest, candidates)
        ensures LastBuilt(history, c.domain) > LastBuilt(history, domains[0])
      {
        var i :| 0 <= i < |rest| && rest[i] == c.domain;
        assert domains[i + 1] == c.domain;
      }
      FromNewestSnoc(history, NewestFirst(rest, candidates), candidates[domains[0]]);
    }
  }

  lemma {:induction false} OthersFromNewest(history: seq<Tracker>, s: seq<Tracker>, tracker: Tracker, prev: Option<Tracker>)
    requires FromNewest(history, s)
    ensures FromNewest(history, Others(s, tracker, prev))
  {
    hide LastBuilt;
    if s != [] {
      var front, last := s[..|s| - 1], s[|s| - 1];
      OthersFromNewest(history, front, tracker, prev);
      assert forall x | x in front :: LastBuilt(history, x.domain) > LastBuilt(history, last.domain);
      FromNewestSnoc(history, Others(front, tracker, prev), last);
    }
  }

  /** After the published tracker, the retained ones are offered from the most recently constructed. */
  lemma OfferedFromNewest(r: Retention, prev: Option<Tracker>, tracker: Tracker)
    requires r.Valid()
    ensures
      var offers := Offers(prev, NewestFirst(r.domains, r.candidates), tracker);
      FromNewest(r.history, if prev.Some? then offers[1..] else offers)
  {
    hide Latest, ByRecency, LastBuilt, NewestFirst, Others, FromNewest, InBuildOrder, Distinct, Tail;
    var newest := NewestFirst(r.domains, r.candidates);
    RecencyInOrder(r.history);
    NewestFirstIs(r.history, r.domains, r.candidates);
    OthersFromNewest(r.history, newest, tracker, prev);
    assert prev.Some? ==> Offers(prev, newest, tracker)[1..] == Others(newest, tracker, prev);
    assert prev.None? ==> Offers(prev, newest, tracker) == Others(newest, tracker, prev);
  }
}
