/**
What one address's start binding says, told by the operations the store accepted: who
established it, what it owes, what refused it and what it is bound to.
*/
module StoreHistory {
  import opened Outcomes
  import opened StartStore

  /** The slot after these operations on an address that began with none. */
  function Now(address: string, ops: seq<Op>): Slot {
    After(None, address, ops)
  }

  predicate Accepted(address: string, ops: seq<Op>, i: nat) {
    i < |ops| && Perform(Now(address, ops[..i]), address, ops[i]).Ok?
  }

  /** Operation `i` was accepted and nothing accepted since then ends it. */
  predicate Since(address: string, ops: seq<Op>, i: nat, ends: Op -> bool) {
    Accepted(address, ops, i) && forall j | i < j < |ops| && Accepted(address, ops, j) :: !ends(ops[j])
  }

  predicate Withdraws(op: Op) {
    op.RefuseOp? || op.RenewOp? || (op.StdinOp? && !op.pending)
  }

  predicate Replaces(op: Op) {
    op.RefuseOp? || op.RenewOp? || op.BindOp?
  }

  predicate Renews(op: Op) {
    op.RenewOp?
  }

  /** A prompt was marked owed, and neither delivered nor withdrawn by a refusal or a new start. */
  ghost predicate OwesPrompt(address: string, ops: seq<Op>) {
    exists i: nat :: Since(address, ops, i, Withdraws) && ops[i].StdinOp? && ops[i].pending
  }

  ghost predicate RefusedWith(address: string, ops: seq<Op>, refusal: Refusal) {
    exists i: nat :: Since(address, ops, i, Replaces) && ops[i].RefuseOp? && ops[i].refusal == refusal
  }

  ghost predicate BoundTo(address: string, ops: seq<Op>, id: string) {
    exists i: nat :: Accepted(address, ops, i) && ops[i].BindOp? && ops[i].runId == id
  }

  /** The first accepted operation, which made the binding. */
  predicate Establishes(address: string, ops: seq<Op>, i: nat) {
    Accepted(address, ops, i) && forall j | 0 <= j < i :: !Accepted(address, ops, j)
  }

  /** Operation `i` set the fence: it renewed the start, or reserved it first. */
  predicate Arms(address: string, ops: seq<Op>, i: nat, principal: string, at: nat) {
    i < |ops| && (
      || ops[i] == RenewOp(ops[i].substrate, principal, at)
      || (Establishes(address, ops, i) && ops[i] == ReserveOp(ops[i].substrate, principal, at)))
  }

  ghost predicate ArmedBy(address: string, ops: seq<Op>, principal: string, at: nat) {
    exists i: nat :: Since(address, ops, i, Renews) && Arms(address, ops, i, principal, at)
  }

  ghost predicate MadeUnder(address: string, ops: seq<Op>, substrate: Substrate) {
    exists i: nat :: Establishes(address, ops, i) && ops[i].substrate == substrate
  }

  /** Every field of the binding is what the accepted operations say. */
  ghost predicate Tells(address: string, ops: seq<Op>, b: StartBinding) {
    && b.address == address && b.version == CURRENT_VERSION
    && b.substrate.Complete() && MadeUnder(address, ops, b.substrate)
    && (b.stdinPending <==> OwesPrompt(address, ops))
    && (forall f :: b.refusal == Some(f) <==> RefusedWith(address, ops, f))
    && (forall id | id != "" :: b.runId == id <==> BoundTo(address, ops, id))
    && (if b.attemptedAt > 0 then b.principal != "" && ArmedBy(address, ops, b.principal, b.attemptedAt)
        else b.principal == "" && b.runId != "")
    && (b.runId != "" ==> b.refusal.None?)
  }

  lemma NowSnoc(address: string, ops: seq<Op>, op: Op)
    ensures
      var r := Perform(Now(address, ops), address, op);
      Now(address, ops + [op]) == if r.Ok? then Some(r.value) else Now(address, ops)
  {
    assert (ops + [op])[..|ops|] == ops;
  }

  lemma AcceptedSnoc(address: string, ops: seq<Op>, op: Op, i: nat)
    ensures i < |ops| ==> (Accepted(address, ops + [op], i) <==> Accepted(address, ops, i))
    ensures Accepted(address, ops + [op], |ops|) <==> Perform(Now(address, ops), address, op).Ok?
  {
    hide Perform, Now;
    assert (ops + [op])[..|ops|] == ops;
    assert i < |ops| ==> (ops + [op])[..i] == ops[..i];
  }

  lemma SinceSnoc(address: string, ops: seq<Op>, op: Op, i: nat, ends: Op -> bool)
    ensures
      var ok := Perform(Now(address, ops), address, op).Ok?;
      && (i < |ops| ==> (Since(address, ops + [op], i, ends) <==> Since(address, ops, i, ends) && (ok ==> !ends(op))))
      && (i >= |ops| ==> (Since(address, ops + [op], i, ends) <==> i == |ops| && ok))
  {
    hide Perform, Now, Accepted;
    forall j: nat {
      AcceptedSnoc(address, ops, op, j);
    }
    NotBeyond(address, ops + [op]);
  }

  lemma NotBeyond(address: string, ops: seq<Op>)
    ensures forall i: nat | i >= |ops| :: !Accepted(address, ops, i)
  {
  }

  lemma OwedFollows(address: string, ops: seq<Op>, op: Op)
    ensures
      var ok := Perform(Now(address, ops), address, op).Ok?;
      OwesPrompt(address, ops + [op]) <==>
      (ok && op.StdinOp? && op.pending) || (OwesPrompt(address, ops) && (ok ==> !Withdraws(op)))
  {
    hide Perform, Now;
    var more := ops + [op];
    SinceSnoc(address, ops, op, |ops|, Withdraws);
    if OwesPrompt(address, ops) {
      var i: nat :| Since(address, ops, i, Withdraws) && ops[i].StdinOp? && ops[i].pending;
      SinceSnoc(address, ops, op, i, Withdraws);
      assert more[i] == ops[i];
    }
    if OwesPrompt(address, more) {
      var i: nat :| Since(address, more, i, Withdraws) && more[i].StdinOp? && more[i].pending;
      SinceSnoc(address, ops, op, i, Withdraws);
    }
    assert more[|ops|] == op;
  }

  lemma RefusedFollows(address: string, ops: seq<Op>, op: Op, f: Refusal)
    ensures
      var ok := Perform(Now(address, ops), address, op).Ok?;
      RefusedWith(address, ops + [op], f) <==>
      (ok && op.RefuseOp? && op.refusal == f) || (RefusedWith(address, ops, f) && (ok ==> !Replaces(op)))
  {
    hide Perform, Now;
    var more := ops + [op];
    SinceSnoc(address, ops, op, |ops|, Replaces);
    if RefusedWith(address, ops, f) {
      var i: nat :| Since(address, ops, i, Replaces) && ops[i].RefuseOp? && ops[i].refusal == f;
      SinceSnoc(address, ops, op, i, Replaces);
      assert more[i] == ops[i];
    }
    if RefusedWith(address, more, f) {
      var i: nat :| Since(address, more, i, Replaces) && more[i].RefuseOp? && more[i].refusal == f;
      SinceSnoc(address, ops, op, i, Replaces);
    }
    assert more[|ops|] == op;
  }

  lemma BoundFollows(address: string, ops: seq<Op>, op: Op, id: string)
    ensures
      var ok := Perform(Now(address, ops), address, op).Ok?;
      BoundTo(address, ops + [op], id) <==> (ok && op.BindOp? && op.runId == id) || BoundTo(address, ops, id)
  {
    hide Perform, Now;
    var more := ops + [op];
    AcceptedSnoc(address, ops, op, |ops|);
    if BoundTo(address, ops, id) {
      var i: nat :| Accepted(address, ops, i) && ops[i].BindOp? && ops[i].runId == id;
      AcceptedSnoc(address, ops, op, i);
      assert more[i] == ops[i];
    }
    if BoundTo(address, more, id) {
      var i: nat :| Accepted(address, more, i) && more[i].BindOp? && more[i].runId == id;
      AcceptedSnoc(address, ops, op, i);
    }
    assert more[|ops|] == op;
  }

  lemma EstablishesSnoc(address: string, ops: seq<Op>, op: Op, i: nat)
    ensures i < |ops| ==> (Establishes(address, ops + [op], i) <==> Establishes(address, ops, i))
    ensures Establishes(address, ops + [op], |ops|)
      <==> Perform(Now(address, ops), address, op).Ok? && forall j | 0 <= j < |ops| :: !Accepted(address, ops, j)
  {
    hide Perform, Now, Accepted;
    forall j: nat {
      AcceptedSnoc(address, ops, op, j);
    }
  }

  /** An address has a binding once an operation was accepted. */
  lemma {:induction false} SomeIffAccepted(address: string, ops: seq<Op>)
    ensures Now(address, ops).None? <==> forall i | 0 <= i < |ops| :: !Accepted(address, ops, i)
  {
    if ops != [] {
      var front, op := ops[..|ops| - 1], ops[|ops| - 1];
      assert ops == front + [op];
      SomeIffAccepted(address, front);
      NowSnoc(address, front, op);
      hide Perform, Now, Accepted;
      forall i: nat
        ensures i < |front| ==> (Accepted(address, ops, i) <==> Accepted(address, front, i))
      {
        AcceptedSnoc(address, front, op, i);
      }
      AcceptedSnoc(address, front, op, |front|);
    }
  }

  lemma MadeFollows(address: string, ops: seq<Op>, op: Op, substrate: Substrate)
    ensures MadeUnder(address, ops, substrate) ==> MadeUnder(address, ops + [op], substrate)
    ensures Now(address, ops).None? && Perform(None, address, op).Ok? ==> MadeUnder(address, ops + [op], op.substrate)
  {
    hide Perform, Now, Accepted;
    var more := ops + [op];
    SomeIffAccepted(address, ops);
    EstablishesSnoc(address, ops, op, |ops|);
    NotBeyond(address, ops);
    if MadeUnder(address, ops, substrate) {
      var i: nat :| Establishes(address, ops, i) && ops[i].substrate == substrate;
      EstablishesSnoc(address, ops, op, i);
      assert more[i] == ops[i];
    }
    assert more[|ops|] == op;
  }

  lemma ArmedFollows(address: string, ops: seq<Op>, op: Op, principal: string, at: nat)
    ensures
      var ok := Perform(Now(address, ops), address, op).Ok?;
      && (ArmedBy(address, ops, principal, at) && (ok ==> !op.RenewOp?) ==> ArmedBy(address, ops + [op], principal, at))
      && (ok && op == RenewOp(op.substrate, principal, at) ==> ArmedBy(address, ops + [op], principal, at))
      && (ok && Now(address, ops).None? && op == ReserveOp(op.substrate, principal, at) ==> ArmedBy(address, ops + [op], principal, at))
  {
    hide Perform, Now, Accepted;
    var more := ops + [op];
    SomeIffAccepted(address, ops);
    EstablishesSnoc(address, ops, op, |ops|);
    SinceSnoc(address, ops, op, |ops|, Renews);
    assert more[|ops|] == op;
    NotBeyond(address, ops);
    if ArmedBy(address, ops, principal, at) {
      var i: nat :| Since(address, ops, i, Renews) && Arms(address, ops, i, principal, at);
      EstablishesSnoc(address, ops, op, i);
      SinceSnoc(address, ops, op, i, Renews);
      assert more[i] == ops[i];
    }
  }

  lemma NothingToldYet(address: string, id: string, f: Refusal)
    ensures !OwesPrompt(address, []) && !RefusedWith(address, [], f) && !BoundTo(address, [], id)
  {
  }

  /** What was told of an address without a binding: nothing. */
  ghost predicate TellsNothing(address: string, ops: seq<Op>) {
    && !OwesPrompt(address, ops) && (forall f :: !RefusedWith(address, ops, f)) && (forall id :: !BoundTo(address, ops, id))
  }

  ghost predicate Told(address: string, ops: seq<Op>) {
    var now := Now(address, ops);
    (now.None? ==> TellsNothing(address, ops)) && (now.Some? ==> Tells(address, ops, now.value))
  }

  /** Every history: the binding is exactly what the accepted operations say. */
  lemma {:induction false} EveryHistoryTells(address: string, ops: seq<Op>)
    ensures Told(address, ops)
  {
    if ops == [] {
      forall id, f {
        NothingToldYet(address, id, f);
      }
    } else {
      var front, op := ops[..|ops| - 1], ops[|ops| - 1];
      assert ops == front + [op];
      EveryHistoryTells(address, front);
      StepTells(address, front, op);
    }
  }

  /** What an accepted operation leaves in each field. */
  lemma Changes(slot: Slot, address: string, op: Op)
    requires Perform(slot, address, op).Ok?
    requires slot.Some? ==> slot.value.version == CURRENT_VERSION && (slot.value.runId != "" ==> slot.value.refusal.None?)
    ensures
      var b := Perform(slot, address, op).value;
      && b.address == address && b.version == CURRENT_VERSION && b.substrate == op.substrate && b.substrate.Complete()
      && (slot.Some? ==> b.substrate == slot.value.substrate)
      && (b.stdinPending <==> (op.StdinOp? && op.pending) || (slot.Some? && slot.value.stdinPending && !Withdraws(op)))
      && (b.refusal == if op.RefuseOp? then Some(op.refusal) else if slot.None? || Replaces(op) then None else slot.value.refusal)
      && (b.runId == if op.BindOp? then op.runId else if slot.None? then "" else slot.value.runId)
      && (op.BindOp? ==> op.runId != "" && (slot.Some? ==> slot.value.runId in {"", op.runId}))
      && (op.RefuseOp? ==> b.runId == "")
      && (slot.None? ==> op.ReserveOp? || op.BindOp?)
      && (op.RenewOp? || (op.ReserveOp? && slot.None?) ==> b.attemptedAt == op.at > 0 && b.principal == op.principal != "")
      && (slot.None? && op.BindOp? ==> b.attemptedAt == 0 && b.principal == "")
      && (slot.Some? && !op.RenewOp? ==> b.attemptedAt == slot.value.attemptedAt && b.principal == slot.value.principal)
  {
  }

  lemma StepTells(address: string, ops: seq<Op>, op: Op)
    requires Told(address, ops)
    ensures Told(address, ops + [op])
  {
    hide OwesPrompt, RefusedWith, BoundTo, MadeUnder, ArmedBy, Now, Perform;
    NowSnoc(address, ops, op);
    OwedFollows(address, ops, op);
    forall f {
      RefusedFollows(address, ops, op, f);
    }
    forall id {
      BoundFollows(address, ops, op, id);
    }
    var now := Now(address, ops);
    if Perform(now, address, op).Ok? {
      Changes(now, address, op);
    }
    if now.Some? {
      MadeFollows(address, ops, op, now.value.substrate);
      ArmedFollows(address, ops, op, now.value.principal, now.value.attemptedAt);
    }
    MadeFollows(address, ops, op, op.substrate);
    if op.RenewOp? || op.ReserveOp? {
      ArmedFollows(address, ops, op, op.principal, op.at);
    }
  }

  // ---- which operations are accepted ----

  predicate Permitted(slot: Slot, op: Op) {
    match slot
    case None =>
      op.substrate.Complete() && ((op.ReserveOp? && op.principal != "" && op.at > 0) || (op.BindOp? && op.runId != ""))
    case Some(b) =>
      op.substrate == b.substrate && (
        match op
        case ReserveOp(_, principal, _) => b.runId != "" || principal == b.principal
        case BindOp(_, id) => id != "" && b.runId in {"", id}
        case RefuseOp(_, refusal) => b.runId == "" && refusal.Complete()
        case RenewOp(_, principal, at) => b.runId == "" && b.refusal.Some? && principal != "" && at > 0
        case StdinOp(_, _) => true)
  }

  /** The substrate or the principal is not the one the binding was made under. */
  predicate Foreign(slot: Slot, op: Op) {
    match slot
    case None => (op.ReserveOp? || op.BindOp?) && (!op.substrate.Complete() || (op.ReserveOp? && op.principal == ""))
    case Some(b) =>
      op.substrate != b.substrate || (b.runId == "" && (
        (op.ReserveOp? && op.principal != b.principal) || (op.RenewOp? && b.refusal.Some? && op.principal == "")))
  }

  /** After every history, which operations are accepted and with which error the others are refused. */
  lemma AcceptedExactlyWhen(address: string, ops: seq<Op>, op: Op)
    ensures
      var now, r := Now(address, ops), Perform(Now(address, ops), address, op);
      && (r.Ok? <==> Permitted(now, op))
      && (r == Err(NoRunBinding) <==> now.None? && !op.ReserveOp? && !op.BindOp?)
      && (r == Err(WrongSubstrate) <==> Foreign(now, op) && (op.BindOp? ==> op.runId != ""))
      && r != Err(TooNew) && r != Err(WriteFailed)
  {
    EveryHistoryTells(address, ops);
    hide OwesPrompt, RefusedWith, BoundTo, MadeUnder, ArmedBy, Now;
  }
}
