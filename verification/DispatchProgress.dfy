/**
What a delivery can count on: the backend never disagrees with its offsets to the point
of stopping it, and an owed prompt can still be delivered from every reachable state.
*/
module DispatchProgress {
  import opened Outcomes
  import opened StartStore
  import opened StdinPlanning
  import opened StdinDelivery
  import opened Dispatch
  import opened DispatchSafety
  import opened DispatchTheorems

  // ---- no disagreement about offsets ----

  /** An answered write moves the writer strictly on, or the answer was a failure of the transport or the size. */
  lemma AnswerMovesOn(d: Deployment, run: Run, w: Write, chunk: int, answer: WriteAnswer, run': Run)
    requires StreamOk(d, run) && IsSlice(d.prompt, w) && w.offset <= |run.stdin| && Written(run, w, answer, run')
    ensures React(|d.prompt|, w.offset, chunk, answer).Stop? ==> answer.Failed? || answer.TooLarge?
    ensures answer.OffsetMismatch? || (answer.Accepted? && !answer.closed) ==>
      var r := React(|d.prompt|, w.offset, chunk, answer);
      r.Continue? && w.offset < r.offset <= |run'.stdin| && r.chunk == chunk
  {
    if w.offset in run.receipts {
      var first := run.receipts[w.offset];
      assert IsSlice(d.prompt, first) && w.offset + |first.data| <= |run.stdin|;
      if first.data == [] {
        assert first == w;
      }
    }
  }

  /**
  In every execution, what an answered write leads to: no offset stops a delivery, however
  often it was resumed, only a failed write or one too large at half a kibibyte; a run not
  ready is written to again; and every other answer moves the writer on or ends the delivery.
  */
  lemma OnlyFailuresStop(
      d: Deployment, tr: seq<State>, k: nat, request: Request, run': Run, answer: WriteAnswer, s': State)
    requires Valid(d) && Execution(d, tr) && k < |tr| && ServedWrite(d, tr[k], request, run', answer, true, s')
    ensures
      var run, w, chunk := tr[k].pc.run, tr[k].pc.write, tr[k].pc.chunk;
      && (s'.pc.Idle? <==> answer.Failed? || (answer.TooLarge? && (if 0 < answer.limit < chunk then answer.limit else chunk / 2) < 512))
      && (s'.pc == Delivered(run) <==> Final(answer))
      && (answer.NotReady? ==> s'.pc == Delivering(run, w.offset, chunk))
      && (s'.pc.Delivering? && answer.TooLarge? ==> s'.pc.run == run && s'.pc.offset == w.offset && 512 <= s'.pc.chunk < chunk)
      && (answer.OffsetMismatch? || (answer.Accepted? && !answer.closed) ==>
            s'.pc.Delivering? && s'.pc.run == run && w.offset < s'.pc.offset <= |s'.runs[run].stdin| && s'.pc.chunk == chunk)
  {
    hide By, Written, React, Final, Inv, Execution;
    InvHolds(d, tr, k);
    Resuming(d, tr[k]);
    var s := tr[k];
    AnswerMovesOn(d, s.runs[s.pc.run], s.pc.write, s.pc.chunk, answer, run');
    ReactsTo(|d.prompt|, s.pc.write.offset, s.pc.chunk, answer);
  }

  lemma Resuming(d: Deployment, s: State)
    requires Inv(d, s) && s.pc.Writing? && s.pc.run in s.runs
    ensures StreamOk(d, s.runs[s.pc.run]) && IsSlice(d.prompt, s.pc.write) && s.pc.write.offset <= |s.runs[s.pc.run].stdin|
    ensures s.pc.chunk > 0
  {
  }

  lemma ReactsTo(total: nat, offset: nat, chunk: int, answer: WriteAnswer)
    requires chunk > 0
    ensures
      var r := React(total, offset, chunk, answer);
      && (answer.TooLarge? ==>
            var next := if 0 < answer.limit < chunk then answer.limit else chunk / 2;
            next < chunk && r == if next < 512 then Stop else Continue(offset, next))
      && (r.Done? <==> Final(answer)) && (r.Wait? <==> answer.NotReady?) && (answer.Failed? ==> r.Stop?)
  {
  }

  // ---- continuations ----

  ghost predicate Path(d: Deployment, tr: seq<State>) {
    tr != [] && forall i | 0 <= i < |tr| - 1 :: Next(d, tr[i], tr[i + 1])
  }

  lemma Extend(d: Deployment, tr: seq<State>, step: Step, s': State)
    requires Path(d, tr) && By(d, tr[|tr| - 1], step, s')
    ensures Path(d, tr + [s'])
  {
    hide By;
    var more := tr + [s'];
    forall i | 0 <= i < |more| - 1
      ensures Next(d, more[i], more[i + 1])
    {
      if i < |tr| - 1 {
        assert more[i] == tr[i] && more[i + 1] == tr[i + 1];
      }
    }
  }

  lemma Chain(d: Deployment, a: seq<State>, b: seq<State>)
    requires Path(d, a) && Path(d, b) && a[|a| - 1] == b[0]
    ensures b != []
    ensures
      var c := a + b[1..];
      Path(d, c) && c[0] == a[0] && c[|c| - 1] == b[|b| - 1]
  {
    hide Next;
    var c := a + b[1..];
    forall i | 0 <= i < |c| - 1
      ensures Next(d, c[i], c[i + 1])
    {
      if i >= |a| - 1 {
        assert c[i] == b[i - |a| + 1] && c[i + 1] == b[i - |a| + 1 + 1];
      }
    }
  }

  /** A streaming run of this address that still waits for its prompt. */
  ghost predicate Waits(d: Deployment, s: State, id: string) {
    Inv(d, s) && Ours(d, s, id) && Streams(s.runs[id]) && !s.runs[id].closed && !s.gaveUp
  }

  // ---- back to delivering ----

  function Bindable(s: State, id: string): State
    requires s.binding.Some?
  {
    s.(binding := Some(s.binding.value.(runId := id, refusal := None)))
  }

  lemma RecoverId(d: Deployment, s: State, id: string)
    requires Valid(d) && Waits(d, s, id)
    ensures s.binding.Some? && By(d, s, Observe(id), Bindable(s, id)) && Waits(d, Bindable(s, id), id)
  {
    assert RunOk(d, s, id);
    assert By(d, s, Observe(id), Bindable(s, id));
    hide By, Waits;
    assert Inv(d, s);
    StepKeeps(d, s, Observe(id), Bindable(s, id));
  }

  /** The run's own daemon, restarted: it reads the binding and takes the delivery up from the start. */
  lemma TakeUp(d: Deployment, s: State, id: string) returns (tr: seq<State>, chunk: int)
    requires Valid(d) && Waits(d, s, id) && s.pc.Idle? && s.binding.Some? && s.binding.value.runId == id
    ensures Path(d, tr) && tr[0] == s && chunk > 0
    ensures tr[|tr| - 1] == s.(pc := Delivering(id, 0, chunk)) && Waits(d, tr[|tr| - 1], id)
  {
    assert RunOk(d, s, id);
    var loaded := s.(pc := Composed(s.limits));
    chunk := FirstChunk(PlanOf(d, s.limits).chunk);
    var ready := s.(pc := Delivering(id, 0, chunk));
    assert By(d, s, LoadEnvelope(NotLearned), loaded);
    assert By(d, loaded, Prepare("anyone", 0), ready);
    hide By, PlanOf;
    StepKeeps(d, s, LoadEnvelope(NotLearned), loaded);
    StepKeeps(d, loaded, Prepare("anyone", 0), ready);
    Alone(d, s);
    Extend(d, [s], LoadEnvelope(NotLearned), loaded);
    Extend(d, [s, loaded], Prepare("anyone", 0), ready);
    tr := [s, loaded] + [ready];
    assert [s] + [loaded] == [s, loaded];
  }

  // ---- one write ----

  /** How a backend in good health answers. */
  function Healthy(run: Run, w: Write): (WriteAnswer, Run) {
    if w.offset in run.receipts then
      (if run.receipts[w.offset] == w then Accepted(w.offset + |w.data|, w.close) else OffsetMismatch(Some(|run.stdin|)), run)
    else if w.offset != |run.stdin| then (OffsetMismatch(Some(|run.stdin|)), run)
    else
      (Accepted(w.offset + |w.data|, w.close),
       run.(stdin := run.stdin + w.data, closed := w.close, receipts := run.receipts[w.offset := w]))
  }

  lemma HealthyAnswers(d: Deployment, run: Run, w: Write)
    requires Streams(run) && !run.closed && StreamOk(d, run) && IsSlice(d.prompt, w)
    ensures Written(run, w, Healthy(run, w).0, Healthy(run, w).1)
    ensures Healthy(run, w).0.OffsetMismatch? || Healthy(run, w).0.Accepted?
    ensures !Receipted(Healthy(run, w).0) ==> !Healthy(run, w).1.closed
  {
  }

  function Put(d: Deployment, s: State, id: string, w: Write, chunk: int): State {
    s.(net := s.net + {WriteReq(id, w)}, pc := Writing(id, chunk, w))
  }

  function Answered(d: Deployment, s: State, id: string, w: Write): State
    requires s.pc.Writing? && id in s.runs
  {
    var answer := Healthy(s.runs[id], w);
    s.(runs := s.runs[id := answer.1], pc := AfterWrite(d, s.pc, answer.0))
  }

  lemma PutStep(d: Deployment, s: State, id: string, offset: nat, chunk: int) returns (w: Write)
    requires Valid(d) && Waits(d, s, id) && s.pc == Delivering(id, offset, chunk)
    ensures w.offset == offset && IsSlice(d.prompt, w) && By(d, s, PutWrite, Put(d, s, id, w, chunk))
    ensures Waits(d, Put(d, s, id, w, chunk), id)
  {
    w := WriteAt(d.prompt, offset, chunk);
    var s' := Put(d, s, id, w, chunk);
    assert By(d, s, PutWrite, s');
    hide By, WriteAt;
    StepKeeps(d, s, PutWrite, s');
  }

  lemma AnswerStep(d: Deployment, s: State, id: string, w: Write)
    requires Valid(d) && Waits(d, s, id) && s.pc.Writing? && s.pc.run == id && s.pc.write == w && WriteReq(id, w) in s.net
    ensures
      var answer := Healthy(s.runs[id], w);
      By(d, s, ServeWrite(WriteReq(id, w), answer.1, answer.0, true), Answered(d, s, id, w))
  {
    HealthyAnswers(d, s.runs[id], w);
    hide AfterWrite, Healthy, Written;
  }

  /** The writer is further on and the run still waits, or the prompt is complete. */
  lemma AnswerCounts(d: Deployment, s: State, id: string, w: Write)
    requires Valid(d) && Waits(d, s, id) && s.pc.Writing? && s.pc.run == id && s.pc.write == w && WriteReq(id, w) in s.net
    ensures
      var s' := Answered(d, s, id, w);
      if Receipted(Healthy(s.runs[id], w).0) then
        Inv(d, s') && s'.pc == Delivered(id) && Ours(d, s', id) && s'.runs[id].closed && !s'.gaveUp
      else
        Waits(d, s', id) && s'.pc.Delivering? && s'.pc.run == id && w.offset < s'.pc.offset
  {
    var run, s' := s.runs[id], Answered(d, s, id, w);
    var answer := Healthy(run, w);
    AnswerStep(d, s, id, w);
    HealthyAnswers(d, run, w);
    AnswerMovesOn(d, run, w, s.pc.chunk, answer.0, answer.1);
    StepKeeps(d, s, ServeWrite(WriteReq(id, w), answer.1, answer.0, true), s');
    WrittenKeeps(d, run, w, answer.0, answer.1);
    hide By, Healthy, Written, Inv, StreamOk;
  }

  /** From any offset the healthy backend's answers lead to the end of the prompt. */
  lemma {:induction false} DeliverOn(d: Deployment, s: State, id: string) returns (tr: seq<State>)
    requires Valid(d) && Waits(d, s, id) && s.pc.Delivering? && s.pc.run == id
    ensures Path(d, tr) && tr[0] == s && forall i | 0 <= i < |tr| :: !tr[i].pc.Idle?
    ensures
      var t := tr[|tr| - 1];
      Inv(d, t) && t.pc == Delivered(id) && Ours(d, t, id) && t.runs[id].closed && !t.gaveUp && t.binding == s.binding
    decreases |d.prompt| - s.pc.offset
  {
    hide *;
    WaitsInside(d, s, id);
    var w := PutStep(d, s, id, s.pc.offset, s.pc.chunk);
    var put := Put(d, s, id, w, s.pc.chunk);
    PutIs(d, s, id, w, s.pc.chunk);
    var next := Answered(d, put, id, w);
    AnswerStep(d, put, id, w);
    AnswerCounts(d, put, id, w);
    WaitsInside(d, next, id);
    var answer := Healthy(put.runs[id], w);
    Alone(d, s);
    Extend(d, [s], PutWrite, put);
    Extend(d, [s] + [put], ServeWrite(WriteReq(id, w), answer.1, answer.0, true), next);
    tr := [s] + [put] + [next];
    if !Receipted(answer.0) {
      var rest := DeliverOn(d, next, id);
      Chain(d, tr, rest);
      tr := tr + rest[1..];
    }
    AnsweredIs(d, put, id, w);
  }

  lemma Alone(d: Deployment, s: State)
    ensures Path(d, [s])
  {
  }

  lemma PutIs(d: Deployment, s: State, id: string, w: Write, chunk: int)
    requires id in s.runs
    ensures
      var s' := Put(d, s, id, w, chunk);
      s'.pc == Writing(id, chunk, w) && s'.runs == s.runs && s'.binding == s.binding && WriteReq(id, w) in s'.net
  {
  }

  lemma AnsweredIs(d: Deployment, s: State, id: string, w: Write)
    requires s.pc.Writing? && id in s.runs
    ensures Answered(d, s, id, w).binding == s.binding
  {
  }

  lemma WaitsInside(d: Deployment, s: State, id: string)
    ensures Waits(d, s, id) ==> id in s.runs && (s.pc.Delivering? ==> s.pc.offset <= |d.prompt|)
  {
  }

  // ---- the theorem ----

  /** Delivered in full, and nothing owed any more. */
  ghost predicate FullyDelivered(d: Deployment, s: State, id: string) {
    && Ours(d, s, id) && s.runs[id].closed && s.runs[id].stdin == d.prompt && !s.gaveUp
    && s.pc.Idle? && s.binding.Some? && s.binding.value.runId == id && !s.binding.value.stdinPending
  }

  lemma SettleStep(d: Deployment, s: State, id: string) returns (s': State)
    requires Valid(d) && Inv(d, s) && s.pc == Delivered(id) && Ours(d, s, id) && s.runs[id].closed && !s.gaveUp
    requires s.binding.Some? && s.binding.value.runId == id
    ensures By(d, s, Settle, s') && FullyDelivered(d, s', id)
  {
    assert RunOk(d, s, id) && StreamOk(d, s.runs[id]);
    var r := SetStdinPending(s.binding, d.address, d.substrate, false);
    s' := s.(binding := Some(r.value), pc := Idle);
  }

  lemma AdoptStep(d: Deployment, s: State, id: string) returns (s': State)
    requires Valid(d) && Waits(d, s, id) && s.pc.Got? && s.pc.run == id && PlanOf(d, s.pc.limits).mode == Streaming
    ensures By(d, s, Adopt, s') && Waits(d, s', id) && s'.pc.Delivering? && s'.pc.run == id && s'.pc.offset == 0
    ensures s'.binding.Some? && s'.binding.value.runId == id
  {
    assert RunOk(d, s, id);
    var r := BindRun(s.binding, d.address, d.substrate, id);
    s' := s.(binding := Some(r.value), pc := Delivering(id, 0, FirstChunk(PlanOf(d, s.pc.limits).chunk)));
    assert By(d, s, Adopt, s');
    hide By, PlanOf;
    StepKeeps(d, s, Adopt, s');
  }

  /** The Start that created a streaming run delivers its prompt itself, without another one. */
  lemma AStartDeliversItsPrompt(d: Deployment, tr: seq<State>, k: nat, id: string) returns (more: seq<State>)
    requires Valid(d) && Execution(d, tr) && k < |tr|
    requires tr[k].pc.Got? && tr[k].pc.run == id && PlanOf(d, tr[k].pc.limits).mode == Streaming
    requires Ours(d, tr[k], id) && Streams(tr[k].runs[id]) && !tr[k].runs[id].closed && !tr[k].gaveUp
    ensures Path(d, more) && more[0] == tr[k] && FullyDelivered(d, more[|more| - 1], id)
    ensures forall i | 0 <= i < |more| - 1 :: !more[i].pc.Idle?
  {
    InvHolds(d, tr, k);
    var s := tr[k];
    assert Waits(d, s, id);
    hide *;
    var adopted := AdoptStep(d, s, id);
    Alone(d, s);
    Extend(d, [s], Adopt, adopted);
    var rest := DeliverOn(d, adopted, id);
    Chain(d, [s] + [adopted], rest);
    var whole := [s] + [adopted] + rest[1..];
    var last := SettleStep(d, rest[|rest| - 1], id);
    Extend(d, whole, Settle, last);
    more := whole + [last];
  }

  lemma Abandon(d: Deployment, s: State, id: string)
    requires Valid(d) && Waits(d, s, id)
    ensures By(d, s, Return, s.(pc := Idle)) && Waits(d, s.(pc := Idle), id)
  {
    ReturnKeeps(d, s, s.(pc := Idle));
  }

  /** However a delivery was cut short, a continuation exists that completes it and clears the debt. */
  lemma AnOwedPromptCanArrive(d: Deployment, tr: seq<State>, k: nat, id: string) returns (more: seq<State>)
    requires Valid(d) && Execution(d, tr) && k < |tr|
    requires Ours(d, tr[k], id) && Streams(tr[k].runs[id]) && !tr[k].runs[id].closed && !tr[k].gaveUp
    ensures Path(d, more) && more[0] == tr[k] && FullyDelivered(d, more[|more| - 1], id)
  {
    InvHolds(d, tr, k);
    var s := tr[k];
    assert Waits(d, s, id);
    hide Inv, By, Execution, FullyDelivered, Waits;
    Abandon(d, s, id);
    var idle := s.(pc := Idle);
    RecoverId(d, idle, id);
    var bound := Bindable(idle, id);
    Alone(d, s);
    Extend(d, [s], Return, idle);
    Extend(d, [s] + [idle], Observe(id), bound);
    var found := [s] + [idle] + [bound];
    var up, chunk := TakeUp(d, bound, id);
    Chain(d, found, up);
    var rest := DeliverOn(d, up[|up| - 1], id);
    Chain(d, found + up[1..], rest);
    var whole := found + up[1..] + rest[1..];
    var last := SettleStep(d, rest[|rest| - 1], id);
    Extend(d, whole, Settle, last);
    more := whole + [last];
  }
}
