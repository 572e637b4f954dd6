/**
What the dispatch protocol keeps, in every state of every execution: at most one
run per address, no refusal and no absence over a run that exists, one body, an
owed prompt marked owed, and stdin that is always a prefix of the prompt.
*/
module DispatchSafety {
  import opened Outcomes
  import opened ReplayWindow
  import opened StartStore
  import opened StdinPlanning
  import opened StdinDelivery
  import opened Dispatch

  predicate Ours(d: Deployment, s: State, id: string) {
    id in s.runs && s.runs[id].key == d.key
  }

  /** An envelope a Start may have composed against, and did not refuse locally. */
  predicate Sendable(d: Deployment, limits: Limits) {
    (limits == Unknown || limits == d.envelope) && !PlanOf(d, limits).refused
  }

  predicate SentBody(d: Deployment, b: Body) {
    || (Sendable(d, Unknown) && b == BodyOf(d, Unknown))
    || (Sendable(d, d.envelope) && b == BodyOf(d, d.envelope))
  }

  /** Of the bodies this address may send, the backend accepts at most the final one. */
  lemma OneLiveBody(d: Deployment, b: Body)
    requires Valid(d) && SentBody(d, b) && d.accepts(b)
    ensures b == BodyOf(d, d.envelope) && Sendable(d, d.envelope)
  {
    if b == BodyOf(d, Unknown) {
      AcceptableBodyIsStable(d.envelope, d.prompt, d.frame);
    }
  }

  // ---- the invariant ----

  /** The digest of a body this address composed and that is refused, by the backend or by its own plan. */
  predicate NamesRefused(d: Deployment, fingerprint: string) {
    exists limits | limits in {Unknown, d.envelope} ::
      fingerprint == d.digest(BodyOf(d, limits)) && (!d.accepts(BodyOf(d, limits)) || PlanOf(d, limits).refused)
  }

  ghost predicate BindingOk(d: Deployment, s: State) {
    s.binding.Some? ==>
      var b := s.binding.value;
      && b.address == d.address && b.substrate == d.substrate && 0 < b.version <= CURRENT_VERSION
      && b.principal != "" && 0 < b.attemptedAt <= s.now
      && (b.runId != "" ==> b.refusal.None? && Ours(d, s, b.runId))
      && (b.refusal.Some? ==> !b.stdinPending && NamesRefused(d, b.refusal.value.fingerprint))
  }

  ghost predicate RequestOk(d: Deployment, s: State, r: Request) {
    match r
    case StartReq(principal, body, deadline) =>
      && s.binding.Some? && principal == s.binding.value.principal
      && deadline <= s.now + WINDOW
      && SentBody(d, body)
      && (body != BodyOf(d, Unknown) ==> s.limits == d.envelope)
    case WriteReq(run, w) => Ours(d, s, run) && IsSlice(d.prompt, w)
  }

  /** A refusal on record: nothing ever sent from here could have been accepted. */
  ghost predicate RefusalOk(d: Deployment, s: State) {
    s.binding.Some? && s.binding.value.refusal.Some? ==>
      forall r | r in s.net && r.StartReq? :: !d.accepts(r.body)
  }

  ghost predicate RunOk(d: Deployment, s: State, id: string)
    requires id in s.runs
  {
    var run := s.runs[id];
    && id != "" && run.createdAt <= s.now
    && run.origin in s.net && run.origin.StartReq? && d.accepts(run.origin.body)
    && s.binding.Some? && s.binding.value.refusal.None?
    && s.binding.value.attemptedAt <= run.createdAt
    && (forall r | r in s.net && r.StartReq? && d.accepts(r.body) :: r.deadline <= run.createdAt + WINDOW)
    && (s.now < run.createdAt + WINDOW ==>
          && run.origin.principal in s.keys
          && s.keys[run.origin.principal] == Claim(run.createdAt, id, run.origin.body))
    && (Streams(run) && !run.closed && !s.gaveUp ==> s.binding.value.stdinPending)
  }

  ghost predicate StreamOk(d: Deployment, run: Run) {
    && run.stdin <= d.prompt
    && (run.closed ==> run.stdin == d.prompt)
    && forall o | o in run.receipts ::
         var w := run.receipts[o];
         IsSlice(d.prompt, w) && w.offset == o && o + |w.data| <= |run.stdin| && (w.close ==> run.closed)
  }

  ghost predicate RunsOk(d: Deployment, s: State) {
    && (forall i, j | Ours(d, s, i) && Ours(d, s, j) :: i == j)
    && (forall i | Ours(d, s, i) :: RunOk(d, s, i) && StreamOk(d, s.runs[i]))
    && (forall p | p in s.keys :: Ours(d, s, s.keys[p].run))
    && ((forall i | i in s.runs :: !Ours(d, s, i)) ==>
          forall r | r in s.net && r.StartReq? && d.accepts(r.body) && r.body.mode == Streaming ::
            s.binding.Some? && s.binding.value.stdinPending)
  }

  /** The body being composed is the only one sent so far, or the final one. */
  ghost predicate Fresh(d: Deployment, s: State, limits: Limits) {
    && (limits == Unknown || limits == d.envelope)
    && (limits == d.envelope ==> s.limits == d.envelope)
    && (BodyOf(d, limits) != BodyOf(d, d.envelope) ==>
          forall r | r in s.net && r.StartReq? :: r.body != BodyOf(d, d.envelope))
  }

  ghost predicate MaySend(d: Deployment, s: State, limits: Limits, principal: string, deadline: nat) {
    && Fresh(d, s, limits)
    && s.binding.Some? && s.binding.value.refusal.None? && s.binding.value.principal == principal
    && deadline == s.binding.value.attemptedAt + WINDOW <= s.now + WINDOW
    && forall i | Ours(d, s, i) :: deadline <= s.runs[i].createdAt + WINDOW
  }

  ghost predicate PcOk(d: Deployment, s: State) {
    match s.pc
    case Idle => true
    case Composed(limits) => Fresh(d, s, limits)
    case MustRenew(limits, principal) =>
      && Fresh(d, s, limits) && s.binding.Some? && s.binding.value.principal == principal
      && (s.binding.value.refusal.Some? ==> s.binding.value.refusal.value.fingerprint != d.digest(BodyOf(d, limits)))
    case Armed(limits, principal, deadline, pending) =>
      && MaySend(d, s, limits, principal, deadline)
      && (pending ==> s.binding.value.stdinPending)
    case Ready(limits, principal, deadline) =>
      && MaySend(d, s, limits, principal, deadline) && !PlanOf(d, limits).refused
      && (PlanOf(d, limits).mode == Streaming ==> s.binding.value.stdinPending)
    case Awaiting(limits, request) =>
      && Fresh(d, s, limits)
      && request in s.net && request.StartReq? && request.body == BodyOf(d, limits)
    case RefusedBy(limits) => Fresh(d, s, limits) && !d.accepts(BodyOf(d, limits))
    case Got(limits, run) => Ours(d, s, run)
    case Delivering(run, offset, chunk) => Ours(d, s, run) && offset <= |s.runs[run].stdin| && offset <= |d.prompt| && chunk > 0
    case Writing(run, chunk, w) => Ours(d, s, run) && w.offset <= |s.runs[run].stdin| && IsSlice(d.prompt, w) && chunk > 0
    case Delivered(run) => Ours(d, s, run) && (s.runs[run].closed || s.gaveUp)
  }

  ghost predicate Inv(d: Deployment, s: State) {
    && (s.limits == Unknown || s.limits == d.envelope)
    && BindingOk(d, s)
    && (forall r | r in s.net :: RequestOk(d, s, r))
    && RefusalOk(d, s)
    && RunsOk(d, s)
    && PcOk(d, s)
  }

  // ---- every step keeps it ----

  lemma InitKeeps(d: Deployment, s: State)
    requires Init(s)
    ensures Inv(d, s)
  {
  }

  /** Only the daemon's volatile state, or what it knows of the envelope, moved. */
  lemma VolatileFrame(d: Deployment, s: State, s': State)
    requires Inv(d, s)
    requires s' == s.(pc := s'.pc, limits := s'.limits)
    requires s'.limits == s.limits || s'.limits == d.envelope
    requires PcOk(d, s')
    ensures Inv(d, s')
  {
    hide PlanOf, BodyOf;
    assert forall i :: Ours(d, s', i) <==> Ours(d, s, i);
    assert forall r | r in s.net :: RequestOk(d, s, r) && RequestOk(d, s', r);
    assert forall i | Ours(d, s, i) :: RunOk(d, s, i) && RunOk(d, s', i);
  }

  /** The binding kept its fence and principal; the prompt is still owed, or `done`'s delivery ended. */
  lemma BindingFrame(d: Deployment, s: State, s': State, done: Option<string>)
    requires Inv(d, s) && s.binding.Some? && s'.binding.Some?
    requires s' == s.(binding := s'.binding, pc := s'.pc)
    requires var b, b' := s.binding.value, s'.binding.value;
             && b'.principal == b.principal && b'.attemptedAt == b.attemptedAt
             && (b'.refusal.Some? ==> b.refusal.Some?)
             && (b.stdinPending ==> b'.stdinPending || done.Some?)
    requires done.Some? ==> Ours(d, s, done.value) && (s.runs[done.value].closed || s.gaveUp)
    requires BindingOk(d, s') && PcOk(d, s')
    ensures Inv(d, s')
  {
    assert forall i :: Ours(d, s', i) <==> Ours(d, s, i);
    assert forall r | r in s.net :: RequestOk(d, s, r) && RequestOk(d, s', r);
    assert forall i | Ours(d, s, i) :: RunOk(d, s, i) && RunOk(d, s', i);
  }

  predicate Grew(run: Run, run': Run) {
    && run' == run.(stdin := run'.stdin, closed := run'.closed, receipts := run'.receipts)
    && |run.stdin| <= |run'.stdin|
    && (run.closed ==> run'.closed)
  }

  lemma UnheardFrame(d: Deployment, s: State, s': State)
    requires PcOk(d, s) && s' == s.(runs := s'.runs, gaveUp := s'.gaveUp) && (s.gaveUp ==> s'.gaveUp)
    requires forall i :: Ours(d, s', i) <==> Ours(d, s, i)
    requires forall i | Ours(d, s, i) && Ours(d, s', i) :: Grew(s.runs[i], s'.runs[i])
    ensures PcOk(d, s')
  {
    hide PlanOf, BodyOf;
  }

  /** Runs of other addresses came and went; this one's run took stdin. */
  lemma BackendFrame(d: Deployment, s: State, s': State)
    requires Inv(d, s)
    requires s' == s.(pc := s'.pc, runs := s'.runs, gaveUp := s'.gaveUp) && (s.gaveUp ==> s'.gaveUp)
    requires forall i :: Ours(d, s', i) <==> Ours(d, s, i)
    requires forall i | Ours(d, s, i) && Ours(d, s', i) :: Grew(s.runs[i], s'.runs[i]) && StreamOk(d, s'.runs[i])
    requires PcOk(d, s')
    ensures Inv(d, s')
  {
    hide PlanOf, BodyOf, StreamOk;
    assert forall r | r in s.net :: RequestOk(d, s, r) && RequestOk(d, s', r);
    forall i | Ours(d, s', i)
      ensures RunOk(d, s', i)
    {
      assert Ours(d, s, i) && RunOk(d, s, i) && Grew(s.runs[i], s'.runs[i]);
    }
  }

  /** Where the daemon stands does not hang on the clock standing still or a key being remembered. */
  lemma PcFrame(d: Deployment, s: State, s': State)
    requires PcOk(d, s) && s.now <= s'.now && s' == s.(now := s'.now, keys := s'.keys)
    ensures PcOk(d, s')
  {
    hide PlanOf, BodyOf;
    assert forall i :: Ours(d, s', i) <==> Ours(d, s, i);
  }

  lemma TickKeeps(d: Deployment, s: State, elapsed: nat, s': State)
    requires Valid(d) && Inv(d, s) && s' == s.(now := s.now + elapsed)
    ensures Inv(d, s')
  {
    PcFrame(d, s, s');
    hide PlanOf, BodyOf, StreamOk, PcOk;
    assert forall i :: Ours(d, s', i) <==> Ours(d, s, i);
    assert forall r | r in s.net :: RequestOk(d, s, r) && RequestOk(d, s', r);
    assert forall i | Ours(d, s, i) :: RunOk(d, s, i) && RunOk(d, s', i);
  }

  lemma LoadedKeeps(d: Deployment, s: State, learning: Learning, s': State)
    requires Valid(d) && Inv(d, s) && Loaded(d, s, learning, s')
    ensures Inv(d, s')
  {
    assert forall r | r in s.net :: RequestOk(d, s, r);
    VolatileFrame(d, s, s');
  }

  lemma ReservedKeeps(d: Deployment, s: State, principal: string, at: nat, s': State)
    requires Valid(d) && Inv(d, s) && Reserved(d, s, principal, at, s')
    ensures Inv(d, s')
  {
    if s.binding.Some? {
      VolatileFrame(d, s, s');
    } else {
      assert forall r | r in s.net :: RequestOk(d, s, r) && !r.StartReq?;
      assert forall i :: !Ours(d, s', i) && !Ours(d, s, i);
    }
  }

  lemma RenewedKeeps(d: Deployment, s: State, at: nat, s': State)
    requires Valid(d) && Inv(d, s) && Renewed(d, s, at, s')
    ensures Inv(d, s')
  {
    assert forall i :: Ours(d, s', i) <==> Ours(d, s, i);
  }

  /** What is refused now was never accepted: no start sent from here was. */
  lemma RefusedIsDead(d: Deployment, s: State)
    requires Valid(d) && Inv(d, s) && s.binding.Some? && s.binding.value.runId == ""
    requires s.pc.RefusedBy? || (s.pc.Armed? && PlanOf(d, s.pc.limits).refused)
    ensures forall r | r in s.net && r.StartReq? :: !d.accepts(r.body)
    ensures forall i :: !Ours(d, s, i)
  {
    assert forall r | r in s.net :: RequestOk(d, s, r);
    forall r | r in s.net && r.StartReq?
      ensures !d.accepts(r.body)
    {
      if d.accepts(r.body) {
        OneLiveBody(d, r.body);
      }
    }
    assert forall i | Ours(d, s, i) :: RunOk(d, s, i);
  }

  lemma KeptRefusalKeeps(d: Deployment, s: State, refusal: Refusal, s': State)
    requires Valid(d) && Inv(d, s) && KeptRefusal(d, s, refusal, s')
    ensures Inv(d, s')
  {
    RefusedIsDead(d, s);
    assert s.pc.limits in {Unknown, d.envelope};
    assert NamesRefused(d, refusal.fingerprint);
    hide NamesRefused;
    hide PlanOf, BodyOf, SentBody, StreamOk;
    assert forall i :: Ours(d, s', i) <==> Ours(d, s, i);
    assert forall r | r in s.net :: RequestOk(d, s, r) && RequestOk(d, s', r);
  }

  lemma OwedKeeps(d: Deployment, s: State, s': State)
    requires Valid(d) && Inv(d, s) && Owed(d, s, s')
    ensures Inv(d, s')
  {
    BindingFrame(d, s, s', None);
  }

  /** What a ready Start is about to send. */
  lemma ReadyBody(d: Deployment, s: State)
    requires Inv(d, s) && s.pc.Ready?
    ensures SentBody(d, BodyOf(d, s.pc.limits)) && BodyOf(d, s.pc.limits).mode == PlanOf(d, s.pc.limits).mode
    ensures BodyOf(d, s.pc.limits) != BodyOf(d, Unknown) ==> s.limits == d.envelope
  {
  }

  lemma SentRequests(d: Deployment, s: State, s': State)
    requires Inv(d, s) && Sent(d, s, s')
    ensures forall r | r in s'.net :: RequestOk(d, s', r)
  {
    ReadyBody(d, s);
    hide PlanOf, BodyOf, SentBody, RunsOk;
    assert forall r | r in s.net :: RequestOk(d, s, r) && RequestOk(d, s', r);
  }

  lemma SentRuns(d: Deployment, s: State, s': State)
    requires Inv(d, s) && Sent(d, s, s')
    ensures RunsOk(d, s')
  {
    ReadyBody(d, s);
    hide StreamOk, PlanOf, BodyOf, SentBody, RequestOk;
    assert forall i :: Ours(d, s', i) <==> Ours(d, s, i);
    assert forall i | Ours(d, s, i) :: RunOk(d, s, i) && RunOk(d, s', i);
  }

  lemma SentKeeps(d: Deployment, s: State, s': State)
    requires Valid(d) && Inv(d, s) && Sent(d, s, s')
    ensures Inv(d, s')
  {
    SentRequests(d, s, s');
    SentRuns(d, s, s');
    hide RunsOk, RequestOk, PlanOf, BodyOf, Valid;
  }

  lemma ServedRefusalKeeps(d: Deployment, s: State, request: Request, heard: bool, s': State)
    requires Valid(d) && Inv(d, s) && ServedRefusal(d, s, request, heard, s')
    ensures Inv(d, s')
  {
    VolatileFrame(d, s, s');
  }

  lemma ServedReplayKeeps(d: Deployment, s: State, request: Request, heard: bool, s': State)
    requires Valid(d) && Inv(d, s) && ServedReplay(d, s, request, heard, s')
    ensures Inv(d, s')
  {
    VolatileFrame(d, s, s');
  }

  /** While a run exists, every start that can still be served finds its key remembered. */
  lemma NoRunYet(d: Deployment, s: State, request: Request, heard: bool)
    requires Inv(d, s) && Serves(s, request, heard) && d.accepts(request.body)
    requires request.principal !in s.keys
    ensures forall i :: !Ours(d, s, i)
  {
    assert RequestOk(d, s, request);
  }

  lemma ServedCreateKeeps(d: Deployment, s: State, request: Request, id: string, heard: bool, s': State)
    requires Valid(d) && Inv(d, s) && ServedCreate(d, s, request, id, heard, s')
    ensures Inv(d, s')
  {
    NoRunYet(d, s, request, heard);
    assert forall i :: Ours(d, s', i) <==> i == id;
    assert RequestOk(d, s, request) && RunOk(d, s', id);
  }

  lemma AdoptedKeeps(d: Deployment, s: State, s': State)
    requires Valid(d) && Inv(d, s) && Adopted(d, s, s')
    ensures Inv(d, s')
  {
    BindingFrame(d, s, s', None);
  }

  lemma PutOutKeeps(d: Deployment, s: State, s': State)
    requires Valid(d) && Inv(d, s) && PutOut(d, s, s')
    ensures Inv(d, s')
  {
    assert forall i :: Ours(d, s', i) <==> Ours(d, s, i);
  }

  lemma WrittenKeeps(d: Deployment, run: Run, w: Write, answer: WriteAnswer, run': Run)
    requires StreamOk(d, run) && IsSlice(d.prompt, w) && Written(run, w, answer, run')
    ensures StreamOk(d, run') && Grew(run, run')
    ensures Receipted(answer) ==> run'.closed
    ensures answer.Accepted? ==> answer.next <= |run'.stdin|
    ensures answer.OffsetMismatch? ==> answer.expected == Some(|run'.stdin|)
  {
    if run' != run {
      assert run'.stdin == d.prompt[..w.offset + |w.data|];
    }
  }

  lemma HeardWriteMovesOn(d: Deployment, s: State, s': State, answer: WriteAnswer)
    requires s.pc.Writing? && PcOk(d, s) && s'.pc == AfterWrite(d, s.pc, answer)
    requires Ours(d, s', s.pc.run)
    requires s'.gaveUp == (s.gaveUp || (Final(answer) && !Receipted(answer)))
    requires Receipted(answer) ==> s'.runs[s.pc.run].closed
    requires Ours(d, s, s.pc.run) && |s.runs[s.pc.run].stdin| <= |s'.runs[s.pc.run].stdin|
    requires answer.Accepted? ==> answer.next <= |s'.runs[s.pc.run].stdin|
    requires answer.OffsetMismatch? ==> answer.expected == Some(|s'.runs[s.pc.run].stdin|)
    ensures PcOk(d, s')
  {
    ReactShrinks(|d.prompt|, s.pc.write.offset, s.pc.chunk, answer);
  }

  lemma ServedWriteKeeps(d: Deployment, s: State, request: Request, run': Run, answer: WriteAnswer, heard: bool, s': State)
    requires Valid(d) && Inv(d, s) && ServedWrite(d, s, request, run', answer, heard, s')
    ensures Inv(d, s')
  {
    assert RequestOk(d, s, request);
    WrittenKeeps(d, s.runs[request.run], request.write, answer, run');
    hide StreamOk, RequestOk, RunOk, RefusalOk, Written;
    if heard {
      HeardWriteMovesOn(d, s, s', answer);
    } else {
      UnheardFrame(d, s, s');
    }
    hide PcOk;
    BackendFrame(d, s, s');
  }

  lemma SettledKeeps(d: Deployment, s: State, s': State)
    requires Valid(d) && Inv(d, s) && Settled(d, s, s')
    ensures Inv(d, s')
  {
    BindingFrame(d, s, s', Some(s.pc.run));
  }

  lemma ForgotKeeps(d: Deployment, s: State, principal: string, s': State)
    requires Valid(d) && Inv(d, s) && Forgot(s, principal, s')
    ensures Inv(d, s')
  {
    PcFrame(d, s, s');
    hide PlanOf, BodyOf, StreamOk, PcOk, SentBody;
    assert forall r | r in s.net :: RequestOk(d, s, r) && RequestOk(d, s', r);
    assert forall i | Ours(d, s, i) :: RunOk(d, s, i) && RunOk(d, s', i);
    assert forall i :: Ours(d, s', i) <==> Ours(d, s, i);
  }

  lemma ObservedKeeps(d: Deployment, s: State, id: string, s': State)
    requires Valid(d) && Inv(d, s) && Observed(d, s, id, s')
    ensures Inv(d, s')
  {
    BindingFrame(d, s, s', None);
  }

  lemma OtherRanKeeps(d: Deployment, s: State, id: string, other: Run, s': State)
    requires Valid(d) && Inv(d, s) && OtherRan(d, s, id, other, s')
    ensures Inv(d, s')
  {
    BackendFrame(d, s, s');
  }

  lemma ReturnKeeps(d: Deployment, s: State, s': State)
    requires Inv(d, s) && s' == s.(pc := Idle)
    ensures Inv(d, s')
  {
    VolatileFrame(d, s, s');
  }

  lemma LearnedElsewhereKeeps(d: Deployment, s: State, s': State)
    requires Inv(d, s) && s' == s.(limits := d.envelope)
    ensures Inv(d, s')
  {
    VolatileFrame(d, s, s');
  }
}
