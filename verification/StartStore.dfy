/**
The durable start binding: the write-ahead record one dispatch address owns.

Every store operation is first a pure function from the address's slot to the
binding it leaves behind (or the error that leaves the slot alone); `DirStore`
is the mutable store, each of whose methods is proved to be that function.  The
laws at the end quantify over every sequence of operations.
*/
module StartStore {
  import opened Outcomes

  const CURRENT_VERSION: nat := 4

  datatype Substrate = Substrate(baseUrl: string, credentialKind: string, credentialKey: string) {
    predicate Complete() {
      baseUrl != "" && credentialKind != "" && credentialKey != ""
    }
  }

  datatype Refusal = Refusal(code: string, fingerprint: string, refusedAt: nat) {
    predicate Complete() {
      code != "" && fingerprint != ""
    }
  }

  /** `runId == ""` is an unanswered start; `attemptedAt == 0` is the zero time. */
  datatype StartBinding = StartBinding(
    version: nat,
    address: string,
    substrate: Substrate,
    principal: string,
    runId: string,
    attemptedAt: nat,
    stdinPending: bool,
    refusal: Option<Refusal>)

  datatype StoreError = NoRunBinding | WrongSubstrate | UnexpectedRun | TooNew | WriteFailed

  type Slot = Option<StartBinding>
  type Answer = Result<StartBinding, StoreError>

  // ---- the operations, on one address's slot ----

  /** A reader that understands versions up to `understands`. */
  function ReadAs(understands: nat, slot: Slot, address: string): Answer {
    match slot
    case None => Err(NoRunBinding)
    case Some(b) =>
      if b.version > understands then Err(TooNew)
      else if b.address != address || (b.runId == "" && b.attemptedAt == 0) then Err(UnexpectedRun)
      else Ok(b)
  }

  function Load(slot: Slot, address: string): Answer {
    ReadAs(CURRENT_VERSION, slot, address)
  }

  predicate SameSubstrate(recorded: Substrate, current: Substrate) {
    recorded.Complete() && recorded == current
  }

  predicate SamePrincipal(recorded: string, current: string) {
    recorded != "" && current != "" && recorded == current
  }

  function Stamp(b: StartBinding): StartBinding {
    if b.version == 0 then b.(version := CURRENT_VERSION) else b
  }

  function Reserve(slot: Slot, address: string, substrate: Substrate, principal: string, at: nat): Answer {
    match Load(slot, address)
    case Ok(b) =>
      if !SameSubstrate(b.substrate, substrate) then Err(WrongSubstrate)
      else if b.runId == "" && !SamePrincipal(b.principal, principal) then Err(WrongSubstrate)
      else Ok(b)
    case Err(NoRunBinding) =>
      if !substrate.Complete() || principal == "" then Err(WrongSubstrate)
      else if at == 0 then Err(UnexpectedRun)
      else Ok(StartBinding(CURRENT_VERSION, address, substrate, principal, "", at, false, None))
    case Err(e) => Err(e)
  }

  function BindRun(slot: Slot, address: string, substrate: Substrate, runId: string): Answer {
    if runId == "" then Err(UnexpectedRun)
    else match Load(slot, address)
      case Ok(b) =>
        if !SameSubstrate(b.substrate, substrate) then Err(WrongSubstrate)
        else if b.runId == runId then Ok(b)
        else if b.runId != "" then Err(UnexpectedRun)
        else Ok(Stamp(b.(runId := runId, refusal := None)))
      case Err(NoRunBinding) =>
        if !substrate.Complete() then Err(WrongSubstrate)
        else Ok(StartBinding(CURRENT_VERSION, address, substrate, "", runId, 0, false, None))
      case Err(e) => Err(e)
  }

  function RecordRefusal(slot: Slot, address: string, substrate: Substrate, refusal: Refusal): Answer {
    match Load(slot, address)
    case Err(e) => Err(e)
    case Ok(b) =>
      if !SameSubstrate(b.substrate, substrate) then Err(WrongSubstrate)
      else if b.runId != "" || !refusal.Complete() then Err(UnexpectedRun)
      else Ok(b.(version := CURRENT_VERSION, refusal := Some(refusal), stdinPending := false))
  }

  function RenewStart(slot: Slot, address: string, substrate: Substrate, principal: string, at: nat): Answer {
    match Load(slot, address)
    case Err(e) => Err(e)
    case Ok(b) =>
      if !SameSubstrate(b.substrate, substrate) then Err(WrongSubstrate)
      else if b.runId != "" || b.refusal.None? then Err(UnexpectedRun)
      else if principal == "" then Err(WrongSubstrate)
      else if at == 0 then Err(UnexpectedRun)
      else Ok(b.(version := CURRENT_VERSION, refusal := None, stdinPending := false,
                 principal := principal, attemptedAt := at))
  }

  function SetStdinPending(slot: Slot, address: string, substrate: Substrate, pending: bool): Answer {
    match Load(slot, address)
    case Err(e) => Err(e)
    case Ok(b) =>
      if !SameSubstrate(b.substrate, substrate) then Err(WrongSubstrate)
      else if b.stdinPending == pending then Ok(b)
      else Ok(Stamp(b.(stdinPending := pending,
                       version := if pending then CURRENT_VERSION else b.version)))
  }

  // ---- the mutable store ----

  /**
  What every operation of the mutable store promises: it answers as its pure
  function does, it replaces this address's file and no other, and when it had to
  write (`writes`) and the write did not land it says so and leaves every file alone.
  */
  predicate Performed(before: map<string, StartBinding>, after: map<string, StartBinding>,
                      address: string, spec: Answer, writes: bool, writable: bool, r: Answer)
  {
    if spec.Ok? && writes && !writable then r == Err(WriteFailed) && after == before
    else r == spec && after == if spec.Ok? then before[address := spec.value] else before
  }

  function SlotIn(files: map<string, StartBinding>, address: string): Slot {
    if address in files then Some(files[address]) else None
  }

  /** One file per address.  `writable` is whether the file replacement of this call lands. */
  class DirStore {
    var files: map<string, StartBinding>

    constructor ()
      ensures files == map[]
    {
      files := map[];
    }

    function SlotOf(address: string): Slot
      reads this
    {
      SlotIn(files, address)
    }

    /** The one write: a failure leaves every file as it was. */
    method SaveFile(b: StartBinding, writable: bool) returns (r: Answer)
      modifies this
      ensures r == (if writable then Ok(Stamp(b)) else Err(WriteFailed))
      ensures files == (if writable then old(files)[b.address := Stamp(b)] else old(files))
    {
      if writable {
        files := files[b.address := Stamp(b)];
        return Ok(Stamp(b));
      }
      return Err(WriteFailed);
    }

    method LoadBinding(address: string) returns (r: Answer)
      ensures r == Load(SlotOf(address), address)
    {
      if address !in files {
        return Err(NoRunBinding);
      }
      var b := files[address];
      if b.version > CURRENT_VERSION {
        return Err(TooNew);
      }
      if b.address != address || (b.runId == "" && b.attemptedAt == 0) {
        return Err(UnexpectedRun);
      }
      return Ok(b);
    }

    method ReserveBinding(address: string, substrate: Substrate, principal: string, at: nat, writable: bool)
      returns (r: Answer)
      modifies this
      ensures var spec := Reserve(old(SlotOf(address)), address, substrate, principal, at);
              Performed(old(files), files, address, spec, old(SlotOf(address)).None?, writable, r)
    {
      r := LoadBinding(address);
      if r.Ok? {
        if !SameSubstrate(r.value.substrate, substrate) {
          return Err(WrongSubstrate);
        }
        if r.value.runId == "" && !SamePrincipal(r.value.principal, principal) {
          return Err(WrongSubstrate);
        }
        return;
      }
      if r.error != NoRunBinding {
        return;
      }
      if !substrate.Complete() || principal == "" {
        return Err(WrongSubstrate);
      }
      if at == 0 {
        return Err(UnexpectedRun);
      }
      r := SaveFile(StartBinding(CURRENT_VERSION, address, substrate, principal, "", at, false, None), writable);
    }

    method SaveBinding(address: string, substrate: Substrate, runId: string, writable: bool)
      returns (r: Answer)
      modifies this
      ensures var spec := BindRun(old(SlotOf(address)), address, substrate, runId);
              Performed(old(files), files, address, spec, !Bound(old(SlotOf(address))), writable, r)
    {
      if runId == "" {
        return Err(UnexpectedRun);
      }
      r := LoadBinding(address);
      var b: StartBinding;
      if r.Ok? {
        b := r.value;
        if !SameSubstrate(b.substrate, substrate) {
          return Err(WrongSubstrate);
        }
        if b.runId == runId {
          return;
        }
        if b.runId != "" {
          return Err(UnexpectedRun);
        }
      } else if r.error == NoRunBinding {
        if !substrate.Complete() {
          return Err(WrongSubstrate);
        }
        b := StartBinding(CURRENT_VERSION, address, substrate, "", "", 0, false, None);
      } else {
        return;
      }
      r := SaveFile(b.(runId := runId, refusal := None), writable);
    }

    method Refuse(address: string, substrate: Substrate, refusal: Refusal, writable: bool)
      returns (r: Answer)
      modifies this
      ensures var spec := RecordRefusal(old(SlotOf(address)), address, substrate, refusal);
              Performed(old(files), files, address, spec, true, writable, r)
    {
      r := LoadBinding(address);
      if r.Err? {
        return;
      }
      var b := r.value;
      if !SameSubstrate(b.substrate, substrate) {
        return Err(WrongSubstrate);
      }
      if b.runId != "" || !refusal.Complete() {
        return Err(UnexpectedRun);
      }
      var refused := b.(version := CURRENT_VERSION, refusal := Some(refusal), stdinPending := false);
      r := SaveFile(refused, writable);
    }

    method Renew(address: string, substrate: Substrate, principal: string, at: nat, writable: bool)
      returns (r: Answer)
      modifies this
      ensures var spec := RenewStart(old(SlotOf(address)), address, substrate, principal, at);
              Performed(old(files), files, address, spec, true, writable, r)
    {
      r := LoadBinding(address);
      if r.Err? {
        return;
      }
      var b := r.value;
      if !SameSubstrate(b.substrate, substrate) {
        return Err(WrongSubstrate);
      }
      if b.runId != "" || b.refusal.None? {
        return Err(UnexpectedRun);
      }
      if principal == "" {
        return Err(WrongSubstrate);
      }
      if at == 0 {
        return Err(UnexpectedRun);
      }
      r := SaveFile(b.(version := CURRENT_VERSION, refusal := None, stdinPending := false,
                       principal := principal, attemptedAt := at), writable);
    }

    method MarkStdin(address: string, substrate: Substrate, pending: bool, writable: bool)
      returns (r: Answer)
      modifies this
      ensures var spec := SetStdinPending(old(SlotOf(address)), address, substrate, pending);
              Performed(old(files), files, address, spec, spec.Ok? && old(SlotOf(address)) != Some(spec.value), writable, r)
    {
      r := LoadBinding(address);
      if r.Err? {
        return;
      }
      var b := r.value;
      if !SameSubstrate(b.substrate, substrate) {
        return Err(WrongSubstrate);
      }
      if b.stdinPending == pending {
        return;
      }
      r := SaveFile(b.(stdinPending := pending,
                       version := if pending then CURRENT_VERSION else b.version), writable);
    }
  }

  // ---- laws over every sequence of operations ----

  datatype Op =
    | ReserveOp(substrate: Substrate, principal: string, at: nat)
    | BindOp(substrate: Substrate, runId: string)
    | RefuseOp(substrate: Substrate, refusal: Refusal)
    | RenewOp(substrate: Substrate, principal: string, at: nat)
    | StdinOp(substrate: Substrate, pending: bool)

  function Perform(slot: Slot, address: string, op: Op): Answer {
    match op
    case ReserveOp(s, p, at) => Reserve(slot, address, s, p, at)
    case BindOp(s, id) => BindRun(slot, address, s, id)
    case RefuseOp(s, refusal) => RecordRefusal(slot, address, s, refusal)
    case RenewOp(s, p, at) => RenewStart(slot, address, s, p, at)
    case StdinOp(s, pending) => SetStdinPending(slot, address, s, pending)
  }

  function After(slot: Slot, address: string, ops: seq<Op>): Slot
    decreases |ops|
  {
    if ops == [] then slot
    else
      var before := After(slot, address, ops[..|ops| - 1]);
      match Perform(before, address, ops[|ops| - 1])
      case Ok(b) => Some(b)
      case Err(_) => before
  }

  predicate Bound(slot: Slot) {
    slot.Some? && slot.value.runId != ""
  }

  predicate RefusedUnbound(slot: Slot) {
    slot.Some? && slot.value.runId == "" && slot.value.refusal.Some?
  }

  /** A run id ends a refusal, and either of the newer fields comes with the version that knows it. */
  predicate WellFormed(slot: Slot) {
    slot.Some? ==>
      && (slot.value.runId != "" ==> slot.value.refusal.None?)
      && (slot.value.refusal.Some? || slot.value.stdinPending ==> slot.value.version >= CURRENT_VERSION)
  }

  lemma {:induction false} EveryHistoryIsWellFormed(slot: Slot, address: string, ops: seq<Op>)
    requires WellFormed(slot)
    ensures WellFormed(After(slot, address, ops))
    decreases |ops|
  {
    if ops != [] {
      EveryHistoryIsWellFormed(slot, address, ops[..|ops| - 1]);
    }
  }

  /** A refusal or an owed prompt is invisible to every release that predates the field. */
  lemma {:induction false} OlderReadersRefuse(slot: Slot, address: string, ops: seq<Op>, understands: nat)
    requires WellFormed(slot) && understands < CURRENT_VERSION
    ensures var now := After(slot, address, ops);
            now.Some? && (now.value.refusal.Some? || now.value.stdinPending) ==>
              ReadAs(understands, now, address) == Err(TooNew)
  {
    EveryHistoryIsWellFormed(slot, address, ops);
  }

  lemma {:induction false} BoundRunNeverMoves(slot: Slot, address: string, ops: seq<Op>)
    requires WellFormed(slot) && Bound(slot)
    ensures var now := After(slot, address, ops);
            Bound(now) && now.value.runId == slot.value.runId && now.value.refusal.None?
    decreases |ops|
  {
    if ops != [] {
      BoundRunNeverMoves(slot, address, ops[..|ops| - 1]);
      EveryHistoryIsWellFormed(slot, address, ops);
    }
  }

  /** The replay fence moves only by re-arming an address that was refused and never bound. */
  lemma {:induction false} FenceMovesOnlyByRenewal(slot: Slot, address: string, ops: seq<Op>)
    requires slot.Some?
    ensures After(slot, address, ops).Some?
    ensures After(slot, address, ops).value.attemptedAt != slot.value.attemptedAt ==>
              exists i | 0 <= i < |ops| ::
                ops[i].RenewOp? && RefusedUnbound(After(slot, address, ops[..i]))
    decreases |ops|
  {
    if ops != [] {
      var n := |ops| - 1;
      var init := ops[..n];
      FenceMovesOnlyByRenewal(slot, address, init);
      var before := After(slot, address, init);
      if before.value.attemptedAt != slot.value.attemptedAt {
        var i :| 0 <= i < |init| && init[i].RenewOp? && RefusedUnbound(After(slot, address, init[..i]));
        assert ops[..i] == init[..i] && ops[i] == init[i];
      } else if After(slot, address, ops).value.attemptedAt != slot.value.attemptedAt {
        assert ops[n].RenewOp? && RefusedUnbound(After(slot, address, ops[..n]));
      }
    }
  }
}
