/**
What a Start puts on the wire, over every execution: under which fence, for whom, when,
and never again the body it was refused.
*/
module DispatchOffers {
  import opened Outcomes
  import opened ReplayWindow
  import opened StartStore
  import opened StdinPlanning
  import opened StdinDelivery
  import opened Dispatch
  import opened DispatchSafety
  import opened DispatchTheorems

  /** A start that was not in the network before. */
  predicate NewStart(s: State, s': State, r: Request) {
    r in s'.net && r !in s.net && r.StartReq?
  }

  lemma OnlySendAddsStarts(d: Deployment, s: State, step: Step, s': State, r: Request)
    requires By(d, s, step, s') && NewStart(s, s', r)
    ensures s.pc.Ready? && r == StartReq(s.pc.principal, BodyOf(d, s.pc.limits), s.pc.deadline)
  {
    hide PlanOf, BodyOf, Prepared, AfterWrite, WriteAt;
  }

  lemma NthStep(d: Deployment, tr: seq<State>, k: nat) returns (step: Step)
    requires Valid(d) && Execution(d, tr) && k + 1 < |tr|
    ensures Inv(d, tr[k]) && By(d, tr[k], step, tr[k + 1])
  {
    InvHolds(d, tr, k);
    hide Inv, By, Valid;
    assert Next(d, tr[k], tr[k + 1]);
    step :| By(d, tr[k], step, tr[k + 1]);
  }

  /**
  Every start is sent under the fence and the principal on record, over no refusal, carrying the whole
  prompt or, with the debt already on record, none of it.
  */
  lemma SentUnderTheFence(d: Deployment, tr: seq<State>, k: nat, r: Request)
    requires Valid(d) && Execution(d, tr) && k + 1 < |tr| && NewStart(tr[k], tr[k + 1], r)
    ensures tr[k].binding.Some?
    ensures
      var b := tr[k].binding.value;
      && r.principal == b.principal && r.deadline == b.attemptedAt + 24 * 60 * 60 && b.refusal.None?
      && (r.body == Body(Inline, d.prompt) || (r.body == Body(Streaming, []) && b.stdinPending) || (r.body == Body(Closed, []) && d.prompt == []))
  {
    var step := NthStep(d, tr, k);
    OnlySendAddsStarts(d, tr[k], step, tr[k + 1], r);
    hide By;
  }

  // ---- within one Start ----

  /** The daemon is still at the Start that composed against `limits`, before or after sending. */
  predicate Within(pc: Pc, limits: Limits) {
    || ComposedLimits(pc) == Some(limits)
    || pc.Got? || pc.Delivering? || pc.Writing? || pc.Delivered?
  }

  lemma StaysWithin(d: Deployment, s: State, step: Step, s': State, limits: Limits)
    requires By(d, s, step, s') && Within(s.pc, limits) && !s.pc.Idle? && !s'.pc.Idle?
    ensures Within(s'.pc, limits)
  {
    hide PlanOf, BodyOf, Written, WriteAt;
  }

  /** Clearing a refusal without a run is a renewal, by a Start whose body is another one. */
  lemma RearmedForAnother(d: Deployment, s: State, step: Step, s': State)
    requires Inv(d, s) && By(d, s, step, s')
    requires s.binding.Some? && s.binding.value.refusal.Some?
    requires s'.binding.Some? && s'.binding.value.refusal.None? && s'.binding.value.runId == ""
    ensures s.pc.MustRenew? && Within(s'.pc, s.pc.limits)
    ensures d.digest(BodyOf(d, s.pc.limits)) != s.binding.value.refusal.value.fingerprint
  {
    hide PlanOf, BodyOf, Prepared, Written, RunsOk, RequestOk;
  }

  lemma {:induction false} WithinOneStart(d: Deployment, tr: seq<State>, i: nat, j: nat, limits: Limits)
    requires Valid(d) && Execution(d, tr) && i <= j < |tr| && Within(tr[i].pc, limits)
    requires forall m | i <= m <= j :: !tr[m].pc.Idle?
    ensures Within(tr[j].pc, limits)
    decreases j
  {
    hide *;
    if i < j {
      WithinOneStart(d, tr, i, j - 1, limits);
      var step := NthStep(d, tr, j - 1);
      StaysWithin(d, tr[j - 1], step, tr[j], limits);
    }
  }

  lemma ReadyWithin(pc: Pc, limits: Limits)
    requires Within(pc, limits) && pc.Ready?
    ensures pc.limits == limits
  {
  }

  /** A Start that re-arms a refused address sends another body than the refused one. */
  lemma RenewedBodyIsNew(d: Deployment, tr: seq<State>, i: nat, j: nat, r: Request)
    requires Valid(d) && Execution(d, tr) && i < j && j + 1 < |tr|
    requires tr[i].binding.Some? && tr[i].binding.value.refusal.Some?
    requires tr[i + 1].binding.Some? && tr[i + 1].binding.value.refusal.None? && tr[i + 1].binding.value.runId == ""
    requires forall m | i < m <= j :: !tr[m].pc.Idle?
    requires NewStart(tr[j], tr[j + 1], r)
    ensures d.digest(r.body) != tr[i].binding.value.refusal.value.fingerprint
  {
    hide *;
    var step := NthStep(d, tr, i);
    RearmedForAnother(d, tr[i], step, tr[i + 1]);
    WithinOneStart(d, tr, i + 1, j, tr[i].pc.limits);
    var last := NthStep(d, tr, j);
    OnlySendAddsStarts(d, tr[j], last, tr[j + 1], r);
    ReadyWithin(tr[j].pc, tr[i].pc.limits);
  }

  // ---- in time ----

  predicate Holds(pc: Pc, deadline: nat) {
    (pc.Armed? || pc.Ready?) && pc.deadline == deadline
  }

  /** The Start holding this deadline read the clock before it, or set the fence itself. */
  ghost predicate InTime(tr: seq<State>, k: nat, deadline: nat)
    requires k < |tr|
  {
    exists m | 0 <= m <= k :: Opened(tr, m, k, deadline)
  }

  ghost predicate Opened(tr: seq<State>, m: nat, k: nat, deadline: nat)
    requires m <= k < |tr|
  {
    && (forall n | m <= n <= k :: !tr[n].pc.Idle?)
    && (tr[m].now < deadline || (m > 0 && tr[m - 1].pc.MustRenew? && tr[m].pc.Armed?))
  }

  lemma OpensInTime(d: Deployment, s: State, step: Step, s': State, deadline: nat)
    requires By(d, s, step, s') && Holds(s'.pc, deadline)
    ensures Holds(s.pc, deadline) || s'.now < deadline || (s.pc.MustRenew? && s'.pc.Armed?)
  {
    hide PlanOf, BodyOf, Written, WriteAt, FirstChunk;
  }

  lemma {:induction false} HeldInTime(d: Deployment, tr: seq<State>, k: nat, deadline: nat)
    requires Valid(d) && Execution(d, tr) && k < |tr| && Holds(tr[k].pc, deadline)
    ensures InTime(tr, k, deadline)
  {
    hide By, Inv, Valid;
    if k > 0 {
      var step := NthStep(d, tr, k - 1);
      OpensInTime(d, tr[k - 1], step, tr[k], deadline);
      if Holds(tr[k - 1].pc, deadline) {
        HeldInTime(d, tr, k - 1, deadline);
        var m :| 0 <= m <= k - 1 && Opened(tr, m, k - 1, deadline);
        assert Opened(tr, m, k, deadline);
      } else {
        assert Opened(tr, k, k, deadline);
      }
    }
  }

  /** No Start that found its fence expired sends anything: the one that sends saw the clock before the deadline. */
  lemma NothingIsSentLate(d: Deployment, tr: seq<State>, k: nat, r: Request)
    requires Valid(d) && Execution(d, tr) && k + 1 < |tr| && NewStart(tr[k], tr[k + 1], r)
    ensures InTime(tr, k, r.deadline)
  {
    var step := NthStep(d, tr, k);
    OnlySendAddsStarts(d, tr[k], step, tr[k + 1], r);
    hide By, Inv, Execution, Valid, InTime;
    HeldInTime(d, tr, k, r.deadline);
  }

  // ---- only an owed prompt is written ----

  predicate Owing(slot: Slot) {
    slot.Some? && slot.value.stdinPending
  }

  /** A Start that sent a streaming body, or delivers its prompt, has the debt on record, and the run it writes to. */
  predicate DebtOk(d: Deployment, s: State) {
    match s.pc
    case Awaiting(limits, _) => PlanOf(d, limits).mode == Streaming ==> Owing(s.binding)
    case Got(limits, _) => PlanOf(d, limits).mode == Streaming ==> Owing(s.binding)
    case Delivering(run, _, _) => Owing(s.binding) && s.binding.value.runId == run != ""
    case Writing(run, _, _) => Owing(s.binding) && s.binding.value.runId == run != ""
    case Delivered(run) => Owing(s.binding) && s.binding.value.runId == run != ""
    case _ => true
  }

  /** Finding a run binds its id over nothing, or over itself, and leaves the debt alone. */
  lemma ObservedDebt(d: Deployment, s: State, id: string, s': State)
    requires DebtOk(d, s) && Observed(d, s, id, s')
    ensures DebtOk(d, s')
  {
    hide PlanOf;
  }

  lemma StartDebt(d: Deployment, s: State, step: Step, s': State)
    requires Inv(d, s) && By(d, s, step, s') && DebtOk(d, s) && (step.Prepare? || step.Send? || step.Adopt?)
    ensures DebtOk(d, s')
  {
    hide PlanOf, BodyOf, FirstChunk;
  }

  lemma StepDebt(d: Deployment, s: State, step: Step, s': State)
    requires Inv(d, s) && By(d, s, step, s') && DebtOk(d, s)
    ensures DebtOk(d, s')
  {
    if step.Prepare? || step.Send? || step.Adopt? {
      StartDebt(d, s, step, s');
    } else if step.Observe? {
      ObservedDebt(d, s, step.id, s');
    } else if step.ServeWrite? {
      WriteDebt(d, s, step.request, step.run', step.answer, step.heard, s');
    } else if step.Refuse? || step.Replay? || step.Create? {
      AnswerDebt(d, s, step, s');
    } else {
      OtherDebt(d, s, step, s');
    }
  }

  lemma WriteDebt(d: Deployment, s: State, request: Request, run': Run, answer: WriteAnswer, heard: bool, s': State)
    requires DebtOk(d, s) && ServedWrite(d, s, request, run', answer, heard, s')
    ensures DebtOk(d, s')
  {
    hide PlanOf, Written, React, Final, Receipted;
  }

  lemma AnswerDebt(d: Deployment, s: State, step: Step, s': State)
    requires By(d, s, step, s') && DebtOk(d, s) && (step.Refuse? || step.Replay? || step.Create?)
    ensures DebtOk(d, s')
  {
    hide PlanOf;
  }

  lemma OtherDebt(d: Deployment, s: State, step: Step, s': State)
    requires By(d, s, step, s') && DebtOk(d, s) && !step.Prepare? && !step.Send? && !step.Adopt? && !step.Observe?
    requires !step.ServeWrite? && !step.Refuse? && !step.Replay? && !step.Create?
    ensures DebtOk(d, s')
  {
    hide PlanOf, BodyOf, WriteAt, RenewStart, RecordRefusal, SetStdinPending;
  }

  lemma {:induction false} DebtHolds(d: Deployment, tr: seq<State>, k: nat)
    requires Valid(d) && Execution(d, tr) && k < |tr|
    ensures DebtOk(d, tr[k])
  {
    hide By, Inv, Valid;
    if k > 0 {
      DebtHolds(d, tr, k - 1);
      var step := NthStep(d, tr, k - 1);
      StepDebt(d, tr[k - 1], step, tr[k - 1 + 1]);
    }
  }

  lemma OnlyPutWriteAddsWrites(d: Deployment, s: State, step: Step, s': State, r: Request)
    requires By(d, s, step, s') && r in s'.net && r !in s.net && r.WriteReq?
    ensures s.pc.Delivering? && s.pc.offset <= |d.prompt| && s.pc.chunk > 0
    ensures r == WriteReq(s.pc.run, WriteAt(d.prompt, s.pc.offset, s.pc.chunk))
  {
    hide PlanOf, BodyOf, Prepared, AfterWrite, WriteAt;
  }

  /** Every write ever sent goes to the run on record, while the debt stands there, and carries the prompt's own bytes. */
  lemma OnlyOwedPromptsAreWritten(d: Deployment, tr: seq<State>, k: nat, r: Request)
    requires Valid(d) && Execution(d, tr) && k + 1 < |tr| && r in tr[k + 1].net && r !in tr[k].net && r.WriteReq?
    ensures Owing(tr[k].binding) && tr[k].binding.value.runId == r.run && IsSlice(d.prompt, r.write)
  {
    var step := NthStep(d, tr, k);
    OnlyPutWriteAddsWrites(d, tr[k], step, tr[k + 1], r);
    DebtHolds(d, tr, k);
    hide By, Inv;
  }
}
