/**
The dispatch protocol at one address, as a step machine.

Four parts: the durable store (start binding, recorded envelope), the volatile
daemon (how far the current Start has got), the backend (idempotency table, runs,
stdin), and the clock.  The network is the set of requests ever sent: a request may
be served late, twice, or after the daemon that sent it died.  `Return` abandons a
Start anywhere: an error return, a cancelled context and a crash are all that step.

What is assumed of the backend is spelled out where it acts: validation depends on
the body and the pinned envelope alone and precedes the claim (`ServedRefusal`, `ServedCreate`);
a claimed key is remembered, per principal, for at least the window (`Forgot`); no
start is served after the deadline it was sent under (`Serves`); stdin appends
only at its length and answers an exact resend from its receipt (`Written`).
*/
module Dispatch {
  import opened Outcomes
  import opened ReplayWindow
  import opened StartStore
  import opened StdinPlanning
  import opened StdinDelivery

  /**
  What stays fixed at one address: the request (its prompt and the size of the rest
  of its body), the sandbox's pinned envelope, and the backend's validation.
  */
  datatype Deployment = Deployment(
    address: string,
    key: string,
    substrate: Substrate,
    prompt: Bytes,
    frame: nat,
    envelope: Limits,
    accepts: Body -> bool,
    digest: Body -> string)

  ghost predicate Valid(d: Deployment) {
    && d.substrate.Complete()
    && d.envelope.Known()
    && forall b | d.accepts(b) :: InlineWithin(d.envelope, d.frame, b)
  }

  function PlanOf(d: Deployment, limits: Limits): Plan {
    PlanStart(limits, d.prompt, d.frame)
  }

  function BodyOf(d: Deployment, limits: Limits): Body {
    ComposeBody(PlanOf(d, limits), d.prompt)
  }

  datatype Request =
    | StartReq(principal: string, body: Body, deadline: nat)
    | WriteReq(run: string, write: Write)

  datatype Claim = Claim(at: nat, run: string, body: Body)

  /** `key` is the label the run carries, `origin` the request that created it. */
  datatype Run = Run(
    key: string,
    origin: Request,
    createdAt: nat,
    stdin: Bytes,
    closed: bool,
    receipts: map<nat, Write>)

  /** How far the current Start has got; `limits` is the envelope it composed against. */
  datatype Pc =
    | Idle
    | Composed(limits: Limits)
    | MustRenew(limits: Limits, principal: string)
    | Armed(limits: Limits, principal: string, deadline: nat, pending: bool)
    | Ready(limits: Limits, principal: string, deadline: nat)
    | Awaiting(limits: Limits, request: Request)
    | RefusedBy(limits: Limits)
    | Got(limits: Limits, run: string)
    | Delivering(run: string, offset: nat, chunk: int)
    | Writing(run: string, chunk: int, write: Write)
    | Delivered(run: string)

  /** `gaveUp` remembers that a delivery here ended on a terminal answer of the backend. */
  datatype State = State(
    now: nat,
    binding: Slot,
    limits: Limits,
    pc: Pc,
    net: set<Request>,
    keys: map<string, Claim>,
    runs: map<string, Run>,
    gaveUp: bool)

  ghost predicate Init(s: State) {
    && s.binding == None && s.limits == Unknown && s.pc == Idle
    && s.net == {} && s.keys == map[] && s.runs == map[] && !s.gaveUp
  }

  // ---- steps ----

  /** Reading the profile: not matched, matched and recorded, or recorded by a write reported as failed. */
  datatype Learning = NotLearned | Learned | LandedUnseen

  datatype Step =
    | Tick(elapsed: nat)
    | LoadEnvelope(learning: Learning)
    | Prepare(principal: string, at: nat)
    | Renew(at: nat)
    | KeepRefusal(refusal: Refusal)
    | Owe
    | Send
    | Refuse(request: Request, heard: bool)
    | Replay(request: Request, heard: bool)
    | Create(request: Request, id: string, heard: bool)
    | Adopt
    | PutWrite
    | ServeWrite(request: Request, run': Run, answer: WriteAnswer, heard: bool)
    | Settle
    | Return
    | Forget(principal: string)
    | Observe(id: string)
    | LearnElsewhere
    | OtherRun(id: string, other: Run)

  /** prepareStart: reserve or read the fence, then decide what this Start may do. */
  function Prepared(d: Deployment, s: State, principal: string, b: StartBinding): Pc
    requires s.pc.Composed?
  {
    var limits := s.pc.limits;
    if b.runId != "" then
      if b.stdinPending then Delivering(b.runId, 0, FirstChunk(PlanOf(d, limits).chunk)) else Idle
    else if b.refusal.Some? then
      if b.refusal.value.fingerprint == d.digest(BodyOf(d, limits)) then Idle else MustRenew(limits, principal)
    else if s.now < b.attemptedAt + WINDOW then
      Armed(limits, principal, b.attemptedAt + WINDOW, b.stdinPending)
    else Idle
  }

  function AfterWrite(d: Deployment, pc: Pc, answer: WriteAnswer): Pc
    requires pc.Writing?
  {
    match React(|d.prompt|, pc.write.offset, pc.chunk, answer)
    case Continue(offset, chunk) => Delivering(pc.run, offset, chunk)
    case Wait => Delivering(pc.run, pc.write.offset, pc.chunk)
    case Done => Delivered(pc.run)
    case Stop => Idle
  }

  predicate Streams(run: Run) {
    run.origin.StartReq? && run.origin.body.mode == Streaming
  }

  /** The backend's stdin contract. */
  ghost predicate Written(run: Run, w: Write, answer: WriteAnswer, run': Run) {
    || (run' == run && (answer.Failed? || answer.TooLarge?))
    || (if w.offset in run.receipts then
          run' == run && answer ==
            if run.receipts[w.offset] == w then Accepted(w.offset + |w.data|, w.close)
            else OffsetMismatch(Some(|run.stdin|))
        else if !Streams(run) || run.closed then
          run' == run && answer == NotAccepting
        else
          || (run' == run && (answer.NotReady? || answer.NotAccepting? || answer.OutcomeUnknown?))
          || (run' == run && w.offset != |run.stdin| && answer == OffsetMismatch(Some(|run.stdin|)))
          || (w.offset == |run.stdin| && answer == Accepted(w.offset + |w.data|, w.close)
              && run' == run.(stdin := run.stdin + w.data, closed := w.close,
                              receipts := run.receipts[w.offset := w])))
  }

  ghost predicate Loaded(d: Deployment, s: State, learning: Learning, s': State) {
    s.pc.Idle? && match learning
      case NotLearned => s' == s.(pc := Composed(s.limits))
      case Learned => s' == s.(limits := d.envelope, pc := Composed(d.envelope))
      case LandedUnseen => s' == s.(limits := d.envelope, pc := Composed(s.limits))
  }

  ghost predicate Reserved(d: Deployment, s: State, principal: string, at: nat, s': State) {
    s.pc.Composed? && at <= s.now &&
    var r := Reserve(s.binding, d.address, d.substrate, principal, at);
    r.Ok? && s' == s.(binding := Some(r.value), pc := Prepared(d, s, principal, r.value))
  }

  ghost predicate Renewed(d: Deployment, s: State, at: nat, s': State) {
    s.pc.MustRenew? && at <= s.now &&
    var r := RenewStart(s.binding, d.address, d.substrate, s.pc.principal, at);
    r.Ok? && s' == s.(binding := Some(r.value), pc := Armed(s.pc.limits, s.pc.principal, at + WINDOW, false))
  }

  /** A refusal of the composed body, the plan's own or the backend's, becomes durable. */
  ghost predicate KeptRefusal(d: Deployment, s: State, refusal: Refusal, s': State) {
    (s.pc.RefusedBy? || (s.pc.Armed? && PlanOf(d, s.pc.limits).refused)) &&
    refusal.fingerprint == d.digest(BodyOf(d, s.pc.limits)) &&
    var r := RecordRefusal(s.binding, d.address, d.substrate, refusal);
    r.Ok? && s' == s.(binding := Some(r.value), pc := Idle)
  }

  ghost predicate Owed(d: Deployment, s: State, s': State) {
    s.pc.Armed? && !PlanOf(d, s.pc.limits).refused &&
    var ready := Ready(s.pc.limits, s.pc.principal, s.pc.deadline);
    if PlanOf(d, s.pc.limits).mode == Streaming && !s.pc.pending then
      var r := SetStdinPending(s.binding, d.address, d.substrate, true);
      r.Ok? && s' == s.(binding := Some(r.value), pc := ready)
    else s' == s.(pc := ready)
  }

  ghost predicate Sent(d: Deployment, s: State, s': State) {
    s.pc.Ready? &&
    var request := StartReq(s.pc.principal, BodyOf(d, s.pc.limits), s.pc.deadline);
    s' == s.(net := s.net + {request}, pc := Awaiting(s.pc.limits, request))
  }

  /** The daemon hears the answer to the request it is waiting on, and to no other. */
  ghost predicate Serves(s: State, request: Request, heard: bool) {
    && request in s.net && request.StartReq? && s.now < request.deadline
    && (heard ==> s.pc.Awaiting? && s.pc.request == request)
  }

  ghost predicate ServedRefusal(d: Deployment, s: State, request: Request, heard: bool, s': State) {
    && Serves(s, request, heard) && !d.accepts(request.body)
    && s' == s.(pc := if heard then RefusedBy(s.pc.limits) else s.pc)
  }

  ghost predicate ServedReplay(d: Deployment, s: State, request: Request, heard: bool, s': State) {
    && Serves(s, request, heard) && d.accepts(request.body)
    && request.principal in s.keys && s.keys[request.principal].body == request.body
    && s' == s.(pc := if heard then Got(s.pc.limits, s.keys[request.principal].run) else s.pc)
  }

  ghost predicate ServedCreate(d: Deployment, s: State, request: Request, id: string, heard: bool, s': State) {
    && Serves(s, request, heard) && d.accepts(request.body)
    && request.principal !in s.keys && id !in s.runs && id != ""
    && s' == s.(
         keys := s.keys[request.principal := Claim(s.now, id, request.body)],
         runs := s.runs[id := Run(d.key, request, s.now, request.body.inline,
                                  request.body.mode != Streaming, map[])],
         pc := if heard then Got(s.pc.limits, id) else s.pc)
  }

  ghost predicate Adopted(d: Deployment, s: State, s': State) {
    s.pc.Got? &&
    var r := BindRun(s.binding, d.address, d.substrate, s.pc.run);
    var plan := PlanOf(d, s.pc.limits);
    r.Ok? && s' == s.(binding := Some(r.value),
                      pc := if plan.mode == Streaming then Delivering(s.pc.run, 0, FirstChunk(plan.chunk)) else Idle)
  }

  ghost predicate PutOut(d: Deployment, s: State, s': State) {
    s.pc.Delivering? && s.pc.offset <= |d.prompt| && s.pc.chunk > 0 &&
    var w := WriteAt(d.prompt, s.pc.offset, s.pc.chunk);
    s' == s.(net := s.net + {WriteReq(s.pc.run, w)}, pc := Writing(s.pc.run, s.pc.chunk, w))
  }

  ghost predicate ServedWrite(d: Deployment, s: State, request: Request, run': Run, answer: WriteAnswer, heard: bool, s': State) {
    && request in s.net && request.WriteReq? && request.run in s.runs
    && (heard ==> s.pc.Writing? && s.pc.run == request.run && s.pc.write == request.write)
    && Written(s.runs[request.run], request.write, answer, run')
    && s' == s.(runs := s.runs[request.run := run'],
                pc := if heard then AfterWrite(d, s.pc, answer) else s.pc,
                gaveUp := s.gaveUp || (heard && Final(answer) && !Receipted(answer)))
  }

  ghost predicate Settled(d: Deployment, s: State, s': State) {
    s.pc.Delivered? &&
    var r := SetStdinPending(s.binding, d.address, d.substrate, false);
    r.Ok? && s' == s.(binding := Some(r.value), pc := Idle)
  }

  ghost predicate Forgot(s: State, principal: string, s': State) {
    && principal in s.keys && s.now >= s.keys[principal].at + WINDOW
    && s' == s.(keys := s.keys - {principal})
  }

  /** Status finds a run labelled with this address's key, or Attach is handed its id. */
  ghost predicate Observed(d: Deployment, s: State, id: string, s': State) {
    id in s.runs && s.runs[id].key == d.key && s.binding.Some? &&
    var r := BindRun(s.binding, d.address, d.substrate, id);
    r.Ok? && s' == s.(binding := Some(r.value))
  }

  ghost predicate OtherRan(d: Deployment, s: State, id: string, other: Run, s': State) {
    id !in s.runs && id != "" && other.key != d.key && s' == s.(runs := s.runs[id := other])
  }

  ghost predicate By(d: Deployment, s: State, step: Step, s': State) {
    match step
    case Tick(elapsed) => s' == s.(now := s.now + elapsed)
    case LoadEnvelope(learning) => Loaded(d, s, learning, s')
    case Prepare(principal, at) => Reserved(d, s, principal, at, s')
    case Renew(at) => Renewed(d, s, at, s')
    case KeepRefusal(refusal) => KeptRefusal(d, s, refusal, s')
    case Owe => Owed(d, s, s')
    case Send => Sent(d, s, s')
    case Refuse(request, heard) => ServedRefusal(d, s, request, heard, s')
    case Replay(request, heard) => ServedReplay(d, s, request, heard, s')
    case Create(request, id, heard) => ServedCreate(d, s, request, id, heard, s')
    case Adopt => Adopted(d, s, s')
    case PutWrite => PutOut(d, s, s')
    case ServeWrite(request, run', answer, heard) => ServedWrite(d, s, request, run', answer, heard, s')
    case Settle => Settled(d, s, s')
    case Return => s' == s.(pc := Idle)
    case Forget(principal) => Forgot(s, principal, s')
    case Observe(id) => Observed(d, s, id, s')
    case LearnElsewhere => s' == s.(limits := d.envelope)
    case OtherRun(id, other) => OtherRan(d, s, id, other, s')
  }

  ghost predicate Next(d: Deployment, s: State, s': State) {
    exists step :: By(d, s, step, s')
  }

  ghost predicate Execution(d: Deployment, tr: seq<State>) {
    && tr != [] && Init(tr[0])
    && forall i | 0 <= i < |tr| - 1 :: Next(d, tr[i], tr[i + 1])
  }
}
