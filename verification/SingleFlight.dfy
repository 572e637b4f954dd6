/**
A credential cache filled by at most one exchange per purpose at a time, with any
number of callers. Each step is one stretch of a call between two lock operations.
*/
module SingleFlight {
  import opened Outcomes

  /** Milliseconds a served token must still be usable for, beyond the moment of the check. */
  const MARGIN: int := 300_000

  datatype Token = Token(value: string, usableUntil: int)

  datatype Failure = Transient | Permanent | Unknown

  type Answer = Result<Token, Failure>

  /** How a call came by its answer. */
  datatype Source = Cached(at: int) | Led(flight: nat) | Joined(flight: nat) | OwnContext

  /** Where a call stands. `Answered` is the leader between its exchange and taking the lock again. */
  datatype Pc =
    | Entered(purpose: string)
    | Exchanging(purpose: string, flight: nat)
    | Answered(purpose: string, flight: nat, reply: Answer)
    | Waiting(purpose: string, flight: nat)
    | Returned(purpose: string, reply: Answer, source: Source)

  /** One shared cache fill; `reply` is set when its channel closes. */
  datatype Flight = Flight(purpose: string, leader: nat, reply: Option<Answer>)

  datatype State = State(
    now: int, cache: map<string, Token>, inflight: map<string, nat>, flights: seq<Flight>, calls: map<nat, Pc>)

  const INIT := State(0, map[], map[], [], map[])

  datatype Step =
    | Call(id: nat, purpose: string)
    | Begin(id: nat)
    | Exchange(id: nat, reply: Answer)
    | Finish(id: nat)
    | Wake(id: nat)
    | Cancel(id: nat)
    | Tick(to: int)

  predicate Enabled(s: State, step: Step) {
    match step
    case Call(id, _) => id !in s.calls
    case Begin(id) => id in s.calls && s.calls[id].Entered?
    case Exchange(id, _) => id in s.calls && s.calls[id].Exchanging?
    case Finish(id) => id in s.calls && s.calls[id].Answered? && s.calls[id].flight < |s.flights|
    case Wake(id) =>
      && id in s.calls && s.calls[id].Waiting?
      && s.calls[id].flight < |s.flights| && s.flights[s.calls[id].flight].reply.Some?
    case Cancel(id) => id in s.calls && s.calls[id].Waiting?
    case Tick(to) => s.now <= to
  }

  predicate Usable(s: State, purpose: string) {
    purpose in s.cache && s.now < s.cache[purpose].usableUntil - MARGIN
  }

  function To(s: State, id: nat, pc: Pc): State {
    s.(calls := s.calls[id := pc])
  }

  function Begun(s: State, id: nat, p: string): State {
    if Usable(s, p) then To(s, id, Returned(p, Ok(s.cache[p]), Cached(s.now)))
    else if p in s.inflight then To(s, id, Waiting(p, s.inflight[p]))
    else
      To(s, id, Exchanging(p, |s.flights|)).(
        inflight := s.inflight[p := |s.flights|], flights := s.flights + [Flight(p, id, None)])
  }

  function Finished(s: State, id: nat, p: string, f: nat, reply: Answer): State
    requires f < |s.flights|
  {
    To(s, id, Returned(p, reply, Led(f))).(
      cache := if reply.Ok? then s.cache[p := reply.value] else s.cache,
      flights := s.flights[f := s.flights[f].(reply := Some(reply))],
      inflight := s.inflight - {p})
  }

  function After(s: State, step: Step): State
    requires Enabled(s, step)
  {
    match step
    case Call(id, p) => To(s, id, Entered(p))
    case Begin(id) => Begun(s, id, s.calls[id].purpose)
    case Exchange(id, reply) => To(s, id, Answered(s.calls[id].purpose, s.calls[id].flight, reply))
    case Finish(id) => Finished(s, id, s.calls[id].purpose, s.calls[id].flight, s.calls[id].reply)
    case Wake(id) =>
      To(s, id, Returned(s.calls[id].purpose, s.flights[s.calls[id].flight].reply.value, Joined(s.calls[id].flight)))
    case Cancel(id) => To(s, id, Returned(s.calls[id].purpose, Err(Transient), OwnContext))
    case Tick(to) => s.(now := to)
  }

  predicate Execution(tr: seq<State>, steps: seq<Step>) {
    && |tr| == |steps| + 1 && tr[0] == INIT
    && forall i | 0 <= i < |steps| :: Enabled(tr[i], steps[i]) && tr[i + 1] == After(tr[i], steps[i])
  }

  // ---- the invariant ----

  /** The call leads flight `f`: it is exchanging for it, or has its answer in hand. */
  predicate Leads(pc: Pc, p: string, f: nat) {
    (pc.Exchanging? || pc.Answered?) && pc.purpose == p && pc.flight == f
  }

  /** An open flight is the one in flight for its purpose and its leader is at work on it; a closed one is answered as its leader returned. */
  predicate FlightOk(s: State, f: nat)
    requires f < |s.flights|
  {
    var flight := s.flights[f];
    && flight.leader in s.calls
    && (flight.reply.None? ==>
          && flight.purpose in s.inflight && s.inflight[flight.purpose] == f
          && Leads(s.calls[flight.leader], flight.purpose, f))
    && (flight.reply.Some? ==> s.calls[flight.leader] == Returned(flight.purpose, flight.reply.value, Led(f)))
  }

  predicate CallOk(s: State, id: nat)
    requires id in s.calls
  {
    match s.calls[id]
    case Entered(_) => true
    case Exchanging(p, f) => f < |s.flights| && s.flights[f] == Flight(p, id, None)
    case Answered(p, f, _) => f < |s.flights| && s.flights[f] == Flight(p, id, None)
    case Waiting(p, f) => f < |s.flights| && s.flights[f].purpose == p
    case Returned(p, reply, Cached(at)) => reply.Ok? && at + MARGIN < reply.value.usableUntil && Minted(s, p, reply.value)
    case Returned(p, reply, Led(f)) => f < |s.flights| && s.flights[f] == Flight(p, id, Some(reply))
    case Returned(p, reply, Joined(f)) => f < |s.flights| && s.flights[f].purpose == p && s.flights[f].reply == Some(reply)
    case Returned(_, reply, OwnContext) => reply == Err(Transient)
  }

  /** The token is what some finished flight for this purpose brought back. */
  predicate Minted(s: State, p: string, token: Token) {
    exists f | 0 <= f < |s.flights| :: s.flights[f].purpose == p && s.flights[f].reply == Some(Ok(token))
  }

  predicate Inv(s: State) {
    && (forall f | 0 <= f < |s.flights| :: FlightOk(s, f))
    && (forall id | id in s.calls :: CallOk(s, id))
    && (forall p | p in s.inflight :: s.inflight[p] < |s.flights| && s.flights[s.inflight[p]].purpose == p && s.flights[s.inflight[p]].reply.None?)
    && (forall p | p in s.cache :: Minted(s, p, s.cache[p]))
  }

  /** Flights are only added and answered, never changed otherwise. */
  predicate Grows(s: State, t: State) {
    && |s.flights| <= |t.flights|
    && forall f | 0 <= f < |s.flights| ::
         && t.flights[f].purpose == s.flights[f].purpose && t.flights[f].leader == s.flights[f].leader
         && (s.flights[f].reply.Some? ==> t.flights[f] == s.flights[f])
  }

  lemma MintedStays(s: State, t: State, p: string, token: Token)
    requires Grows(s, t) && Minted(s, p, token)
    ensures Minted(t, p, token)
  {
    var f :| 0 <= f < |s.flights| && s.flights[f].purpose == p && s.flights[f].reply == Some(Ok(token));
    assert t.flights[f] == s.flights[f];
  }

  lemma StepGrows(s: State, step: Step)
    requires Inv(s) && Enabled(s, step)
    ensures Grows(s, After(s, step))
  {
  }

  lemma FlightsKept(s: State, step: Step, f: nat)
    requires Inv(s) && Enabled(s, step) && f < |After(s, step).flights|
    ensures FlightOk(After(s, step), f)
  {
    if f < |s.flights| {
      assert FlightOk(s, f);
    }
    if !step.Tick? && step.id in s.calls {
      assert CallOk(s, step.id);
    }
    if step.Finish? {
      assert FlightOk(s, s.calls[step.id].flight);
    }
  }

  /** A call that did not move is as it was: its flight was only added to. */
  lemma UnmovedCall(s: State, t: State, id: nat)
    requires id in s.calls && CallOk(s, id) && Grows(s, t) && id in t.calls && t.calls[id] == s.calls[id]
    requires (s.calls[id].Exchanging? || s.calls[id].Answered?) && s.calls[id].flight < |s.flights| ==>
      t.flights[s.calls[id].flight] == s.flights[s.calls[id].flight]
    ensures CallOk(t, id)
  {
    if s.calls[id].Returned? && s.calls[id].source.Cached? {
      MintedStays(s, t, s.calls[id].purpose, s.calls[id].reply.value);
    }
  }

  lemma MovedCall(s: State, step: Step)
    requires Inv(s) && Enabled(s, step) && !step.Tick?
    ensures step.id in After(s, step).calls && CallOk(After(s, step), step.id)
  {
    var t := After(s, step);
    if step.id in s.calls {
      assert CallOk(s, step.id);
    }
    if step.Begin? && Usable(s, s.calls[step.id].purpose) {
      var p := s.calls[step.id].purpose;
      StepGrows(s, step);
      MintedStays(s, t, p, s.cache[p]);
    }
  }

  lemma CallsKept(s: State, step: Step, id: nat)
    requires Inv(s) && Enabled(s, step) && id in After(s, step).calls
    ensures CallOk(After(s, step), id)
  {
    if !step.Tick? && id == step.id {
      MovedCall(s, step);
    } else {
      StepGrows(s, step);
      assert CallOk(s, id);
      if step.Finish? {
        assert CallOk(s, step.id);
      }
      UnmovedCall(s, After(s, step), id);
    }
  }

  lemma TablesKept(s: State, step: Step, p: string)
    requires Inv(s) && Enabled(s, step)
    ensures var t := After(s, step);
      && (p in t.inflight ==> t.inflight[p] < |t.flights| && t.flights[t.inflight[p]].purpose == p && t.flights[t.inflight[p]].reply.None?)
      && (p in t.cache ==> Minted(t, p, t.cache[p]))
  {
    var t := After(s, step);
    StepGrows(s, step);
    if step.Finish? {
      assert CallOk(s, step.id);
      var f := s.calls[step.id].flight;
      assert t.flights[f].purpose == s.calls[step.id].purpose && t.flights[f].reply == Some(s.calls[step.id].reply);
    }
    if p in s.cache {
      MintedStays(s, t, p, s.cache[p]);
    }
  }

  lemma StepKeeps(s: State, step: Step)
    requires Inv(s) && Enabled(s, step)
    ensures Inv(After(s, step))
  {
    var t := After(s, step);
    forall f | 0 <= f < |t.flights| ensures FlightOk(t, f) {
      FlightsKept(s, step, f);
    }
    forall id | id in t.calls ensures CallOk(t, id) {
      CallsKept(s, step, id);
    }
    hide After, Enabled, FlightOk, CallOk, Minted;
    forall p {
      TablesKept(s, step, p);
    }
  }

  lemma {:induction false} Holds(tr: seq<State>, steps: seq<Step>, i: nat)
    requires Execution(tr, steps) && i < |tr|
    ensures Inv(tr[i])
  {
    if i > 0 {
      Holds(tr, steps, i - 1);
      StepKeeps(tr[i - 1], steps[i - 1]);
    }
  }

  // ---- what every caller may rely on ----

  predicate AtExchange(s: State, id: nat, p: string) {
    id in s.calls && (s.calls[id].Exchanging? || s.calls[id].Answered?) && s.calls[id].purpose == p
  }

  /** At most one call is at the exchange for a purpose. */
  lemma OneExchangePerPurpose(tr: seq<State>, steps: seq<Step>, i: nat, a: nat, b: nat, p: string)
    requires Execution(tr, steps) && i < |tr| && AtExchange(tr[i], a, p) && AtExchange(tr[i], b, p)
    ensures a == b
  {
    Holds(tr, steps, i);
    var s := tr[i];
    assert CallOk(s, a) && CallOk(s, b);
    assert FlightOk(s, s.calls[a].flight) && FlightOk(s, s.calls[b].flight);
  }

  /** A call that waited returns exactly what the leader of its flight returned, unless its own context ended. */
  lemma WaitersGetTheLeadersAnswer(tr: seq<State>, steps: seq<Step>, i: nat, j: nat, id: nat)
    requires Execution(tr, steps) && i <= j < |tr| && id in tr[i].calls && tr[i].calls[id].Waiting?
    requires id in tr[j].calls && tr[j].calls[id].Returned? && !tr[j].calls[id].source.OwnContext?
    ensures
      var f := tr[i].calls[id].flight;
      && f < |tr[j].flights|
      && var leader := tr[j].flights[f].leader;
      && leader != id && leader in tr[j].calls
      && tr[j].calls[leader] == Returned(tr[i].calls[id].purpose, tr[j].calls[id].reply, Led(f))
  {
    WaitingEnds(tr, steps, i, j, id);
    Holds(tr, steps, j);
    var f := tr[i].calls[id].flight;
    assert CallOk(tr[j], id) && FlightOk(tr[j], f);
  }

  /** A waiting call keeps its flight, until it returns that flight's answer or gives up. */
  predicate StillOf(pc: Pc, p: string, f: nat) {
    || pc == Waiting(p, f)
    || (pc.Returned? && pc.purpose == p && (pc.source == Joined(f) || pc.source.OwnContext?))
  }

  lemma {:induction false} WaitingEnds(tr: seq<State>, steps: seq<Step>, i: nat, j: nat, id: nat)
    requires Execution(tr, steps) && i <= j < |tr| && id in tr[i].calls && tr[i].calls[id].Waiting?
    ensures id in tr[j].calls && StillOf(tr[j].calls[id], tr[i].calls[id].purpose, tr[i].calls[id].flight)
    decreases j
  {
    hide *;
    Sizes(tr, steps);
    if i < j {
      NthStep(tr, steps, j - 1);
      WaitingEnds(tr, steps, i, j - 1, id);
      StillWaits(tr[j - 1], steps[j - 1], id, tr[i].calls[id].purpose, tr[i].calls[id].flight);
    } else {
      StillThere(tr[i].calls[id]);
    }
  }

  lemma NthStep(tr: seq<State>, steps: seq<Step>, j: nat)
    requires Execution(tr, steps) && j < |steps|
    ensures |tr| == |steps| + 1 && Enabled(tr[j], steps[j]) && tr[j + 1] == After(tr[j], steps[j])
  {
    hide Enabled, After;
  }

  lemma Sizes(tr: seq<State>, steps: seq<Step>)
    requires Execution(tr, steps)
    ensures |tr| == |steps| + 1
  {
    hide Enabled, After;
  }

  lemma StillThere(pc: Pc)
    requires pc.Waiting?
    ensures StillOf(pc, pc.purpose, pc.flight)
  {
  }

  lemma StillWaits(s: State, step: Step, id: nat, p: string, f: nat)
    requires Enabled(s, step) && id in s.calls && StillOf(s.calls[id], p, f)
    ensures id in After(s, step).calls && StillOf(After(s, step).calls[id], p, f)
  {
  }

  /** A waiting call is never abandoned: its flight is answered, or its leader is still at work on it. */
  lemma WaitersAreNotAbandoned(tr: seq<State>, steps: seq<Step>, i: nat, id: nat)
    requires Execution(tr, steps) && i < |tr| && id in tr[i].calls && tr[i].calls[id].Waiting?
    ensures
      var s, f := tr[i], tr[i].calls[id].flight;
      || Enabled(s, Wake(id))
      || (f < |s.flights| && s.flights[f].leader in s.calls && Leads(s.calls[s.flights[f].leader], s.calls[id].purpose, f))
  {
    Holds(tr, steps, i);
    assert CallOk(tr[i], id) && FlightOk(tr[i], tr[i].calls[id].flight);
  }

  /** A token served from the cache had more than the margin left when it was checked, and a flight for this purpose brought it. */
  lemma CacheHitsAreUsable(tr: seq<State>, steps: seq<Step>, i: nat, id: nat)
    requires Execution(tr, steps) && i < |tr| && id in tr[i].calls
    requires tr[i].calls[id].Returned? && tr[i].calls[id].source.Cached?
    ensures
      var pc := tr[i].calls[id];
      pc.reply.Ok? && pc.source.at + MARGIN < pc.reply.value.usableUntil && Minted(tr[i], pc.purpose, pc.reply.value)
  {
    Holds(tr, steps, i);
    assert CallOk(tr[i], id);
  }

  // ---- what the cache holds, and when an exchange is made ----

  predicate Brought(s: State, f: nat, p: string) {
    f < |s.flights| && s.flights[f].purpose == p && s.flights[f].reply.Some? && s.flights[f].reply.value.Ok?
  }

  /** Flight `f` is the last one for this purpose that brought a token. */
  predicate LastToBring(s: State, f: nat, p: string) {
    Brought(s, f, p) && forall g | f < g < |s.flights| :: !Brought(s, g, p)
  }

  /** The cache holds what the last flight brought, and a flight in the air is the last one begun. */
  ghost predicate Fresh(s: State, p: string) {
    && (p in s.cache <==> exists f: nat :: Brought(s, f, p))
    && (p in s.cache ==> forall f: nat :: LastToBring(s, f, p) ==> s.flights[f].reply.value.value == s.cache[p])
    && (p in s.inflight ==> forall f | s.inflight[p] < f < |s.flights| :: s.flights[f].purpose != p)
    && (p !in s.inflight ==> forall f | 0 <= f < |s.flights| :: s.flights[f].purpose == p ==> s.flights[f].reply.Some?)
  }

  /** The answers a flight brought stay as they were, and those of other purposes too. */
  lemma SameFlights(s: State, t: State, p: string)
    requires Fresh(s, p) && |s.flights| <= |t.flights|
    requires forall f: nat | f < |s.flights| && s.flights[f].purpose == p :: t.flights[f] == s.flights[f]
    requires forall f: nat | f < |s.flights| && s.flights[f].purpose != p :: t.flights[f].purpose != p
    requires forall f: nat | |s.flights| <= f < |t.flights| :: t.flights[f].purpose != p
    requires p in t.cache <==> p in s.cache
    requires p in s.cache ==> t.cache[p] == s.cache[p]
    requires p in t.inflight <==> p in s.inflight
    requires p in s.inflight ==> t.inflight[p] == s.inflight[p]
    ensures Fresh(t, p)
  {
    forall f: nat
      ensures Brought(t, f, p) <==> Brought(s, f, p)
    {
    }
    forall f: nat | LastToBring(t, f, p)
      ensures LastToBring(s, f, p)
    {
    }
  }

  lemma BeginsFresh(s: State, id: nat, p: string)
    requires Fresh(s, p) && !Usable(s, p) && p !in s.inflight
    ensures Fresh(Begun(s, id, p), p)
  {
    var t := Begun(s, id, p);
    forall f: nat
      ensures Brought(t, f, p) <==> Brought(s, f, p)
    {
    }
    forall f: nat | LastToBring(t, f, p)
      ensures LastToBring(s, f, p)
    {
    }
  }

  lemma FinishesFresh(s: State, id: nat, p: string, f: nat, reply: Answer)
    requires Inv(s) && Fresh(s, p) && f < |s.flights| && s.flights[f] == Flight(p, id, None)
    ensures Fresh(Finished(s, id, p, f, reply), p)
  {
    var t := Finished(s, id, p, f, reply);
    assert FlightOk(s, f);
    forall g: nat
      ensures Brought(t, g, p) <==> Brought(s, g, p) || (g == f && reply.Ok?)
    {
    }
    forall g | 0 <= g < |t.flights| && t.flights[g].purpose == p
      ensures t.flights[g].reply.Some?
    {
      assert FlightOk(s, g);
    }
    if reply.Ok? {
      assert Brought(t, f, p);
    } else {
      forall g: nat | LastToBring(t, g, p)
        ensures LastToBring(s, g, p)
      {
      }
    }
  }

  lemma FreshKept(s: State, step: Step, p: string)
    requires Inv(s) && Enabled(s, step) && Fresh(s, p)
    ensures Fresh(After(s, step), p)
  {
    hide Fresh, Inv;
    if step.Begin? && s.calls[step.id].purpose == p && !Usable(s, p) && p !in s.inflight {
      BeginsFresh(s, step.id, p);
    } else if step.Finish? {
      CallIs(s, step.id);
      if s.calls[step.id].purpose == p {
        FinishesFresh(s, step.id, p, s.calls[step.id].flight, s.calls[step.id].reply);
      } else {
        SameFlights(s, After(s, step), p);
      }
    } else {
      SameFlights(s, After(s, step), p);
    }
  }

  lemma CallIs(s: State, id: nat)
    requires Inv(s) && id in s.calls
    ensures CallOk(s, id)
  {
  }

  lemma {:induction false} AlwaysFresh(tr: seq<State>, steps: seq<Step>, i: nat, p: string)
    requires Execution(tr, steps) && i < |tr|
    ensures Inv(tr[i]) && Fresh(tr[i], p)
  {
    Holds(tr, steps, i);
    if i > 0 {
      hide Inv, Fresh, Enabled, After;
      AlwaysFresh(tr, steps, i - 1, p);
      FreshKept(tr[i - 1], steps[i - 1], p);
    }
  }

  /** The last token brought for this purpose is good for more than five minutes yet. */
  ghost predicate StillGood(s: State, p: string) {
    exists f: nat :: LastToBring(s, f, p) && s.now + 300_000 < s.flights[f].reply.value.value.usableUntil
  }

  predicate InTheAir(s: State, p: string) {
    exists f | 0 <= f < |s.flights| :: s.flights[f].purpose == p && s.flights[f].reply.None?
  }

  lemma {:induction false} SomeLast(s: State, f: nat, p: string) returns (g: nat)
    requires Brought(s, f, p)
    ensures LastToBring(s, g, p)
    decreases |s.flights| - f
  {
    if h: nat :| f < h < |s.flights| && Brought(s, h, p) {
      g := SomeLast(s, h, p);
    } else {
      g := f;
    }
  }

  lemma StillGoodIsUsable(s: State, p: string)
    requires Fresh(s, p)
    ensures StillGood(s, p) <==> Usable(s, p)
  {
    if Usable(s, p) {
      var f: nat :| Brought(s, f, p);
      var g := SomeLast(s, f, p);
      assert LastToBring(s, g, p);
    }
  }

  lemma InTheAirIs(s: State, p: string)
    requires Inv(s) && Fresh(s, p)
    ensures InTheAir(s, p) <==> p in s.inflight
    ensures forall f | 0 <= f < |s.flights| && s.flights[f].purpose == p && s.flights[f].reply.None? :: p in s.inflight && s.inflight[p] == f
  {
    forall f | 0 <= f < |s.flights| && s.flights[f].purpose == p && s.flights[f].reply.None?
      ensures p in s.inflight && s.inflight[p] == f
    {
      assert FlightOk(s, f);
    }
  }

  /** Over every execution, a new exchange is begun exactly by a call that finds no token good enough and no exchange for its purpose. */
  lemma ExchangesExactlyWhen(tr: seq<State>, steps: seq<Step>, i: nat, id: nat, p: string)
    requires Execution(tr, steps) && i < |steps|
    ensures
      var s, t := tr[i], tr[i + 1];
      (|t.flights| > |s.flights| && t.flights[|s.flights|].purpose == p && t.flights[|s.flights|].leader == id) <==>
      (steps[i] == Begin(id) && s.calls[id].purpose == p && !StillGood(s, p) && !InTheAir(s, p))
  {
    AlwaysFresh(tr, steps, i, p);
    StillGoodIsUsable(tr[i], p);
    InTheAirIs(tr[i], p);
    hide Inv, Fresh, StillGood, InTheAir;
  }

  /** A call that finds a token good enough returns it; one that finds an exchange in the air waits for it; any other leads. */
  lemma EveryCallIsServed(tr: seq<State>, steps: seq<Step>, i: nat, id: nat)
    requires Execution(tr, steps) && i < |steps| && steps[i] == Begin(id)
    ensures
      var s, t, p := tr[i], tr[i + 1], tr[i].calls[id].purpose;
      && id in t.calls
      && (StillGood(s, p) ==>
            && t.flights == s.flights && t.calls[id].Returned? && t.calls[id].source.Cached?
            && exists f: nat :: LastToBring(s, f, p) && t.calls[id].reply == s.flights[f].reply.value)
      && (!StillGood(s, p) && InTheAir(s, p) ==>
            && t.flights == s.flights && t.calls[id].Waiting? && t.calls[id].flight < |s.flights|
            && s.flights[t.calls[id].flight].purpose == p && s.flights[t.calls[id].flight].reply.None?)
      && (!StillGood(s, p) && !InTheAir(s, p) ==> t.calls[id] == Exchanging(p, |s.flights|))
  {
    var s, p := tr[i], tr[i].calls[id].purpose;
    AlwaysFresh(tr, steps, i, p);
    StillGoodIsUsable(s, p);
    InTheAirIs(s, p);
    if StillGood(s, p) {
      var f: nat :| LastToBring(s, f, p);
      assert s.flights[f].reply.value == Ok(s.cache[p]);
    }
  }
}
