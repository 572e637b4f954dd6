/**
What a Start can still do from every reachable state: a first start is sent, an unanswered one
is offered again under its own fence, and a refused address takes another body.
*/
module DispatchResends {
  import opened Outcomes
  import opened ReplayWindow
  import opened StartStore
  import opened StdinPlanning
  import opened StdinDelivery
  import opened Dispatch
  import opened DispatchSafety
  import opened DispatchTheorems
  import opened DispatchProgress

  /** The path ends with the daemon waiting for this start. */
  ghost predicate EndsSending(d: Deployment, s: State, more: seq<State>, r: Request) {
    && Path(d, more) && more[0] == s
    && r.StartReq? && r in more[|more| - 1].net && more[|more| - 1].pc.Awaiting? && more[|more| - 1].pc.request == r
  }

  /** An armed Start whose plan is not refused marks the debt and sends. */
  lemma ArmedSends(d: Deployment, s: State) returns (more: seq<State>, r: Request)
    requires Valid(d) && Inv(d, s) && s.pc.Armed? && !PlanOf(d, s.pc.limits).refused
    ensures EndsSending(d, s, more, r) && r == StartReq(s.pc.principal, BodyOf(d, s.pc.limits), s.pc.deadline)
  {
    var ready := s.(pc := Ready(s.pc.limits, s.pc.principal, s.pc.deadline));
    if PlanOf(d, s.pc.limits).mode == Streaming && !s.pc.pending {
      ready := ready.(binding := Some(SetStdinPending(s.binding, d.address, d.substrate, true).value));
    }
    assert By(d, s, Owe, ready);
    r := StartReq(s.pc.principal, BodyOf(d, s.pc.limits), s.pc.deadline);
    var sent := ready.(net := ready.net + {r}, pc := Awaiting(s.pc.limits, r));
    assert By(d, ready, Send, sent);
    hide *;
    Alone(d, s);
    Extend(d, [s], Owe, ready);
    Extend(d, [s] + [ready], Send, sent);
    more := [s] + [ready] + [sent];
    Ends(d, s, more, r);
  }

  lemma Ends(d: Deployment, s: State, more: seq<State>, r: Request)
    requires Path(d, more) && more[0] == s
    requires r.StartReq? && r in more[|more| - 1].net && more[|more| - 1].pc.Awaiting? && more[|more| - 1].pc.request == r
    ensures EndsSending(d, s, more, r)
  {
  }

  lemma JoinSending(d: Deployment, s: State, first: seq<State>, rest: seq<State>, r: Request)
    requires Path(d, first) && first[0] == s && EndsSending(d, first[|first| - 1], rest, r)
    ensures rest != [] && EndsSending(d, s, first + rest[1..], r)
  {
    hide By;
    Chain(d, first, rest);
  }

  /** The daemon drops what it was at and composes against the envelope on record. */
  lemma Compose(d: Deployment, s: State) returns (more: seq<State>)
    requires Valid(d) && Inv(d, s)
    ensures more != [] && Path(d, more) && more[0] == s && more[|more| - 1] == s.(pc := Composed(s.limits)) && Inv(d, more[|more| - 1])
  {
    var idle, composed := s.(pc := Idle), s.(pc := Composed(s.limits));
    assert By(d, s, Return, idle) && By(d, idle, LoadEnvelope(NotLearned), composed);
    hide *;
    StepKeeps(d, s, Return, idle);
    StepKeeps(d, idle, LoadEnvelope(NotLearned), composed);
    Alone(d, s);
    Extend(d, [s], Return, idle);
    Extend(d, [s] + [idle], LoadEnvelope(NotLearned), composed);
    more := [s] + [idle] + [composed];
  }

  // ---- a refused address ----

  lemma RenewSteps(d: Deployment, s: State) returns (armed: State, renewing: State)
    requires Valid(d) && Inv(d, s) && s.pc == Composed(s.limits)
    requires s.binding.Some? && s.binding.value.runId == "" && s.binding.value.refusal.Some?
    requires s.binding.value.refusal.value.fingerprint != d.digest(BodyOf(d, s.limits))
    ensures By(d, s, Prepare(s.binding.value.principal, 0), renewing) && By(d, renewing, Renew(s.now), armed)
    ensures armed.pc == Armed(s.limits, s.binding.value.principal, s.now + WINDOW, false) && armed.limits == s.limits
  {
    var p := s.binding.value.principal;
    renewing := s.(pc := MustRenew(s.limits, p));
    var r := RenewStart(s.binding, d.address, d.substrate, p, s.now);
    armed := s.(binding := Some(r.value), pc := Armed(s.limits, p, s.now + WINDOW, false));
    hide BodyOf, PlanOf;
  }

  /** From every reachable refused state, another body that is not refused locally can be sent. */
  lemma AChangedBodyIsSent(d: Deployment, tr: seq<State>, k: nat) returns (more: seq<State>, r: Request)
    requires Valid(d) && Execution(d, tr) && k < |tr|
    requires tr[k].binding.Some? && tr[k].binding.value.runId == "" && tr[k].binding.value.refusal.Some?
    requires tr[k].binding.value.refusal.value.fingerprint != d.digest(BodyOf(d, tr[k].limits))
    requires !PlanOf(d, tr[k].limits).refused
    ensures EndsSending(d, tr[k], more, r) && r.body == BodyOf(d, tr[k].limits) && r.deadline == tr[k].now + 24 * 60 * 60
  {
    hide *;
    WindowIs();
    InvHolds(d, tr, k);
    var s := tr[k];
    var up := Compose(d, s);
    var composed := up[|up| - 1];
    var armed, renewing := RenewSteps(d, composed);
    StepKeeps(d, composed, Prepare(s.binding.value.principal, 0), renewing);
    StepKeeps(d, renewing, Renew(s.now), armed);
    Extend(d, up, Prepare(s.binding.value.principal, 0), renewing);
    Extend(d, up + [renewing], Renew(s.now), armed);
    var first := up + [renewing] + [armed];
    var rest;
    rest, r := ArmedSends(d, armed);
    JoinSending(d, s, first, rest, r);
    more := first + rest[1..];
  }

  // ---- an unanswered one ----

  lemma RearmStep(d: Deployment, s: State) returns (armed: State)
    requires Valid(d) && Inv(d, s) && s.pc == Composed(s.limits)
    requires s.binding.Some? && s.binding.value.runId == "" && s.binding.value.refusal.None?
    requires s.now < s.binding.value.attemptedAt + WINDOW
    ensures By(d, s, Prepare(s.binding.value.principal, 0), armed)
    ensures armed.pc == Armed(s.limits, s.binding.value.principal, s.binding.value.attemptedAt + WINDOW, s.binding.value.stdinPending)
  {
    var b := s.binding.value;
    armed := s.(pc := Armed(s.limits, b.principal, b.attemptedAt + WINDOW, b.stdinPending));
    hide BodyOf, PlanOf;
  }

  /** From every reachable state with an unanswered start inside its window, the same fence can be offered again. */
  lemma AnUnansweredStartIsOfferedAgain(d: Deployment, tr: seq<State>, k: nat) returns (more: seq<State>, r: Request)
    requires Valid(d) && Execution(d, tr) && k < |tr|
    requires tr[k].binding.Some? && tr[k].binding.value.runId == "" && tr[k].binding.value.refusal.None?
    requires tr[k].now < tr[k].binding.value.attemptedAt + 24 * 60 * 60 && !PlanOf(d, tr[k].limits).refused
    ensures EndsSending(d, tr[k], more, r) && r.body == BodyOf(d, tr[k].limits)
    ensures r.principal == tr[k].binding.value.principal && r.deadline == tr[k].binding.value.attemptedAt + 24 * 60 * 60
  {
    hide *;
    WindowIs();
    InvHolds(d, tr, k);
    var s := tr[k];
    var up := Compose(d, s);
    var composed := up[|up| - 1];
    var armed := RearmStep(d, composed);
    StepKeeps(d, composed, Prepare(s.binding.value.principal, 0), armed);
    Extend(d, up, Prepare(s.binding.value.principal, 0), armed);
    var first := up + [armed];
    var rest;
    rest, r := ArmedSends(d, armed);
    JoinSending(d, s, first, rest, r);
    more := first + rest[1..];
  }

  // ---- a first one ----

  lemma ReserveStep(d: Deployment, s: State, principal: string) returns (armed: State)
    requires Valid(d) && Inv(d, s) && s.pc == Composed(s.limits) && s.binding.None? && principal != "" && s.now > 0
    ensures By(d, s, Prepare(principal, s.now), armed)
    ensures armed.pc == Armed(s.limits, principal, s.now + WINDOW, false)
  {
    var b := StartBinding(CURRENT_VERSION, d.address, d.substrate, principal, "", s.now, false, None);
    armed := s.(binding := Some(b), pc := Armed(s.limits, principal, s.now + WINDOW, false));
    hide BodyOf, PlanOf;
  }

  /** From every reachable state without a binding, any principal can start. */
  lemma AFirstStartIsSent(d: Deployment, tr: seq<State>, k: nat, principal: string) returns (more: seq<State>, r: Request)
    requires Valid(d) && Execution(d, tr) && k < |tr| && tr[k].binding.None? && principal != "" && tr[k].now > 0
    requires !PlanOf(d, tr[k].limits).refused
    ensures EndsSending(d, tr[k], more, r)
    ensures r == StartReq(principal, BodyOf(d, tr[k].limits), tr[k].now + 24 * 60 * 60)
  {
    hide *;
    WindowIs();
    InvHolds(d, tr, k);
    var s := tr[k];
    var up := Compose(d, s);
    var composed := up[|up| - 1];
    var armed := ReserveStep(d, composed, principal);
    StepKeeps(d, composed, Prepare(principal, s.now), armed);
    Extend(d, up, Prepare(principal, s.now), armed);
    var first := up + [armed];
    var rest;
    rest, r := ArmedSends(d, armed);
    JoinSending(d, s, first, rest, r);
    more := first + rest[1..];
  }
}
