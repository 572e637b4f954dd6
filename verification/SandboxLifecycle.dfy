/**
One claim cycle's sandbox: the write-ahead record, the keyed create and its replay
window, and deletion that waits for three independent facts.

As in `Dispatch`, the network is the set of creates ever sent, any of which may be
served late or twice before its deadline, and `Return` is an error return or a crash.
A claim's own verbs do not overlap.
*/
module SandboxLifecycle {
  import opened Outcomes
  import opened ReplayWindow

  /** `id == ""` is a reservation whose create was never answered. */
  datatype Record = Record(key: string, principal: string, attemptedAt: nat, id: string)

  datatype CreateReq = CreateReq(key: string, principal: string, deadline: nat)

  datatype Sandbox = Sandbox(
    key: string, principal: string, createdAt: nat,
    computeReleased: bool, volumeDestroyed: bool, recordTombstoned: bool)
  {
    predicate Confirmed() {
      computeReleased && volumeDestroyed && recordTombstoned
    }
  }

  datatype Claim = Claim(at: nat, id: string)

  /** The idempotency table is scoped by principal as well as key. */
  datatype Scope = Scope(principal: string, key: string)

  /** `MayCreate` is an acquire for this key, holding the credential of this principal. */
  datatype Pc =
    | Idle
    | MayCreate(key: string, principal: string)
    | Awaiting(request: CreateReq)
    | Answered(id: string)

  datatype State = State(
    now: nat,
    record: Option<Record>,
    pc: Pc,
    net: set<CreateReq>,
    keys: map<Scope, Claim>,
    sandboxes: map<string, Sandbox>)

  predicate Init(s: State) {
    s.record == None && s.pc == Idle && s.net == {} && s.keys == map[] && s.sandboxes == map[]
  }

  datatype Step =
    | Tick(elapsed: nat)
    | Reserve(key: string, principal: string)
    | Retry(key: string, principal: string)
    | Send
    | Replay(request: CreateReq, heard: bool)
    | Create(request: CreateReq, id: string, heard: bool)
    | Bind
    | Confirm(id: string, compute: bool, volume: bool, tombstone: bool)
    | Remove
    | Forget(scope: Scope)
    | Return

  /** Acquire with no record: the record lands before any create is attempted. */
  predicate Reserved(s: State, key: string, principal: string, s': State) {
    && s.pc.Idle? && s.record.None? && principal != ""
    && s' == s.(record := Some(Record(key, principal, s.now, "")), pc := MayCreate(key, principal))
  }

  /** Acquire over an unanswered reservation: same key, same principal, inside the window. */
  predicate Retried(s: State, key: string, principal: string, s': State) {
    && s.pc.Idle? && s.record.Some? && s.record.value.id == ""
    && s.record.value.key == key && s.record.value.principal == principal
    && s.now < s.record.value.attemptedAt + WINDOW
    && s' == s.(pc := MayCreate(key, principal))
  }

  /** The create carries the record's key and fence under the caller's own credential. */
  predicate Sent(s: State, s': State) {
    s.pc.MayCreate? && s.record.Some? &&
    var request := CreateReq(s.record.value.key, s.pc.principal, s.record.value.attemptedAt + WINDOW);
    s' == s.(net := s.net + {request}, pc := Awaiting(request))
  }

  function ScopeOf(request: CreateReq): Scope {
    Scope(request.principal, request.key)
  }

  predicate Serves(s: State, request: CreateReq, heard: bool) {
    request in s.net && s.now < request.deadline && (heard ==> s.pc == Awaiting(request))
  }

  predicate Replayed(s: State, request: CreateReq, heard: bool, s': State) {
    && Serves(s, request, heard) && ScopeOf(request) in s.keys
    && s' == s.(pc := if heard then Answered(s.keys[ScopeOf(request)].id) else s.pc)
  }

  predicate Created(s: State, request: CreateReq, id: string, heard: bool, s': State) {
    && Serves(s, request, heard) && ScopeOf(request) !in s.keys && id !in s.sandboxes && id != ""
    && s' == s.(
         keys := s.keys[ScopeOf(request) := Claim(s.now, id)],
         sandboxes := s.sandboxes[id := Sandbox(request.key, request.principal, s.now, false, false, false)],
         pc := if heard then Answered(id) else s.pc)
  }

  /** bind: Airlock's answer is recorded once and never moved. */
  predicate Bound(s: State, s': State) {
    && s.pc.Answered? && s.record.Some? && (s.record.value.id == "" || s.record.value.id == s.pc.id)
    && s' == s.(record := Some(s.record.value.(id := s.pc.id)), pc := Idle)
  }

  /** Deletion progresses at the backend's pace, requested or by its own idle ceiling; facts only accrue. */
  predicate Confirming(s: State, id: string, compute: bool, volume: bool, tombstone: bool, s': State) {
    id in s.sandboxes &&
    var x := s.sandboxes[id];
    s' == s.(sandboxes := s.sandboxes[id := x.(
      computeReleased := x.computeReleased || compute,
      volumeDestroyed := x.volumeDestroyed || volume,
      recordTombstoned := x.recordTombstoned || tombstone)])
  }

  /** Delete drops the record only after reading all three facts confirmed. */
  predicate Removed(s: State, s': State) {
    && s.pc.Idle? && s.record.Some? && s.record.value.id in s.sandboxes
    && s.sandboxes[s.record.value.id].Confirmed()
    && s' == s.(record := None)
  }

  predicate Forgot(s: State, scope: Scope, s': State) {
    && scope in s.keys && s.now >= s.keys[scope].at + WINDOW
    && s' == s.(keys := s.keys - {scope})
  }

  predicate By(s: State, step: Step, s': State) {
    match step
    case Tick(elapsed) => s' == s.(now := s.now + elapsed)
    case Reserve(key, principal) => Reserved(s, key, principal, s')
    case Retry(key, principal) => Retried(s, key, principal, s')
    case Send => Sent(s, s')
    case Replay(request, heard) => Replayed(s, request, heard, s')
    case Create(request, id, heard) => Created(s, request, id, heard, s')
    case Bind => Bound(s, s')
    case Confirm(id, compute, volume, tombstone) => Confirming(s, id, compute, volume, tombstone, s')
    case Remove => Removed(s, s')
    case Forget(scope) => Forgot(s, scope, s')
    case Return => s' == s.(pc := Idle)
  }

  /** A run of the machine: `steps[i]` leads from `tr[i]` to `tr[i + 1]`. */
  ghost predicate Path(tr: seq<State>, steps: seq<Step>) {
    && |tr| == |steps| + 1
    && forall i | 0 <= i < |steps| :: By(tr[i], steps[i], tr[i + 1])
  }

  // ---- the property ----

  /** The durable record leads to the sandbox: by its id, or by the unanswered create that made it. */
  predicate Covers(record: Option<Record>, id: string, x: Sandbox) {
    record.Some? &&
    (record.value.id == id ||
     (record.value.id == "" && record.value.key == x.key && record.value.principal == x.principal))
  }

  /** Every sandbox not confirmed deleted is led to. */
  ghost predicate NoOrphan(s: State) {
    forall i | i in s.sandboxes && !s.sandboxes[i].Confirmed() :: Covers(s.record, i, s.sandboxes[i])
  }

  ghost predicate AtMostOneLive(s: State) {
    forall i, j | i in s.sandboxes && j in s.sandboxes
      && !s.sandboxes[i].Confirmed() && !s.sandboxes[j].Confirmed() :: i == j
  }

  /** No create key of an older sandbox is still remembered when this claim is reserved. */
  predicate CleanReserve(s: State, step: Step) {
    step.Reserve? && Scope(step.principal, step.key) in s.keys ==>
      s.keys[Scope(step.principal, step.key)].at == s.now
  }

  // ---- the invariant behind it ----

  predicate Mine(r: Record, x: Sandbox) {
    x.key == r.key && x.principal == r.principal && r.attemptedAt <= x.createdAt
  }

  ghost predicate RecordOk(s: State) {
    s.record.Some? ==>
      var r := s.record.value;
      && r.attemptedAt <= s.now && r.principal != ""
      && (r.id != "" ==> r.id in s.sandboxes && Mine(r, s.sandboxes[r.id]))
      && (r.id == "" ==>
            && (Scope(r.principal, r.key) in s.keys ==> s.keys[Scope(r.principal, r.key)].at >= r.attemptedAt)
            && forall i, j | i in s.sandboxes && j in s.sandboxes && Mine(r, s.sandboxes[i]) && Mine(r, s.sandboxes[j]) :: i == j)
  }

  ghost predicate KeysOk(s: State) {
    && "" !in s.sandboxes
    && (forall i | i in s.sandboxes :: s.sandboxes[i].createdAt <= s.now)
    && (forall scope | scope in s.keys ::
          var c := s.keys[scope];
          && c.id in s.sandboxes && s.sandboxes[c.id].createdAt == c.at <= s.now
          && s.sandboxes[c.id].key == scope.key && s.sandboxes[c.id].principal == scope.principal)
    && (forall i | i in s.sandboxes ::
          var x := s.sandboxes[i];
          s.now < x.createdAt + WINDOW ==>
            Scope(x.principal, x.key) in s.keys && s.keys[Scope(x.principal, x.key)] == Claim(x.createdAt, i))
  }

  predicate FromRecord(s: State, request: CreateReq) {
    && s.record.Some? && s.record.value.id == ""
    && request.key == s.record.value.key && request.principal == s.record.value.principal
    && request.deadline <= s.record.value.attemptedAt + WINDOW
  }

  predicate Within(request: CreateReq, x: Sandbox) {
    x.key == request.key && x.principal == request.principal && request.deadline <= x.createdAt + WINDOW
  }

  /** A create still in the network can only replay a sandbox, or serve the standing reservation. */
  ghost predicate NetOk(s: State) {
    forall r | r in s.net ::
      FromRecord(s, r) || exists i | i in s.sandboxes :: Within(r, s.sandboxes[i])
  }

  predicate PcOk(s: State) {
    match s.pc
    case Idle => true
    case MayCreate(key, principal) =>
      s.record.Some? && s.record.value.id == "" && s.record.value.key == key && s.record.value.principal == principal
    case Awaiting(request) => request in s.net && FromRecord(s, request)
    case Answered(id) =>
      && s.record.Some? && s.record.value.id == ""
      && id in s.sandboxes && Mine(s.record.value, s.sandboxes[id])
  }

  ghost predicate LiveOk(s: State) {
    forall i | i in s.sandboxes && !s.sandboxes[i].Confirmed() ::
      && s.record.Some?
      && (s.record.value.id == "" ==> Mine(s.record.value, s.sandboxes[i]))
      && (s.record.value.id != "" ==> s.record.value.id == i)
  }

  ghost predicate Inv(s: State) {
    RecordOk(s) && KeysOk(s) && NetOk(s) && PcOk(s) && LiveOk(s)
  }

  lemma InvImpliesProperty(s: State)
    requires Inv(s)
    ensures NoOrphan(s) && AtMostOneLive(s)
  {
  }

  /** A create that finds its key forgotten serves the standing reservation, which has no sandbox yet. */
  lemma CreatedIsFirst(s: State, request: CreateReq, id: string, heard: bool, s': State)
    requires Inv(s) && Created(s, request, id, heard, s')
    ensures FromRecord(s, request)
    ensures forall i | i in s.sandboxes :: !Mine(s.record.value, s.sandboxes[i])
  {
  }

  lemma CreatedNet(s: State, request: CreateReq, id: string, heard: bool, s': State)
    requires NetOk(s) && Created(s, request, id, heard, s')
    ensures NetOk(s')
  {
    forall r | r in s.net
      ensures FromRecord(s', r) || exists i | i in s'.sandboxes :: Within(r, s'.sandboxes[i])
    {
      if !FromRecord(s, r) {
        var i :| i in s.sandboxes && Within(r, s.sandboxes[i]);
        assert s'.sandboxes[i] == s.sandboxes[i];
      }
    }
  }

  lemma CreatedKeeps(s: State, request: CreateReq, id: string, heard: bool, s': State)
    requires Inv(s) && Created(s, request, id, heard, s')
    ensures Inv(s')
  {
    CreatedIsFirst(s, request, id, heard, s');
    CreatedNet(s, request, id, heard, s');
    hide NetOk, Within;
  }

  lemma BoundKeeps(s: State, s': State)
    requires Inv(s) && Bound(s, s')
    ensures Inv(s')
  {
    var id := s.pc.id;
    forall r | r in s.net
      ensures exists i | i in s'.sandboxes :: Within(r, s'.sandboxes[i])
    {
      if FromRecord(s, r) {
        assert Within(r, s.sandboxes[id]);
      }
    }
  }

  lemma ConfirmingKeeps(s: State, id: string, compute: bool, volume: bool, tombstone: bool, s': State)
    requires Inv(s) && Confirming(s, id, compute, volume, tombstone, s')
    ensures Inv(s')
  {
    assert forall i | i in s.sandboxes ::
        s'.sandboxes[i] == s.sandboxes[i].(computeReleased := s'.sandboxes[i].computeReleased,
          volumeDestroyed := s'.sandboxes[i].volumeDestroyed, recordTombstoned := s'.sandboxes[i].recordTombstoned);
    forall r | r in s.net
      ensures FromRecord(s', r) || exists i | i in s'.sandboxes :: Within(r, s'.sandboxes[i])
    {
      if !FromRecord(s, r) {
        var i :| i in s.sandboxes && Within(r, s.sandboxes[i]);
        assert i in s'.sandboxes && Within(r, s'.sandboxes[i]);
      }
    }
  }

  lemma AcquireKeeps(s: State, step: Step, s': State)
    requires Inv(s) && By(s, step, s') && CleanReserve(s, step) && (step.Reserve? || step.Retry? || step.Send? || step.Replay?)
    ensures Inv(s')
  {
  }

  lemma StepKeeps(s: State, step: Step, s': State)
    requires Inv(s) && By(s, step, s') && CleanReserve(s, step)
    ensures Inv(s')
  {
    if step.Reserve? || step.Retry? || step.Send? || step.Replay? {
      AcquireKeeps(s, step, s');
      return;
    }
    match step
    case Create(request, id, heard) => CreatedKeeps(s, request, id, heard, s');
    case Bind => BoundKeeps(s, s');
    case Confirm(id, compute, volume, tombstone) => ConfirmingKeeps(s, id, compute, volume, tombstone, s');
    case _ => assert s'.sandboxes == s.sandboxes;
  }

  lemma {:induction false} CleanPathKeeps(tr: seq<State>, steps: seq<Step>, k: nat)
    requires Path(tr, steps) && Inv(tr[0]) && k < |tr|
    requires forall i | 0 <= i < |steps| :: CleanReserve(tr[i], steps[i])
    ensures Inv(tr[k])
    decreases k
  {
    hide Inv;
    if k > 0 {
      CleanPathKeeps(tr, steps, k - 1);
      StepKeeps(tr[k - 1], steps[k - 1], tr[k]);
    }
  }

  /**
  Every sandbox ever created for the claim is led to by the durable record or had
  all three deletion facts confirmed, and at most one is not, provided no reservation
  was made while an older sandbox's key was still remembered.
  */
  lemma NothingIsOrphaned(tr: seq<State>, steps: seq<Step>, k: nat)
    requires Path(tr, steps) && Init(tr[0]) && k < |tr|
    requires forall i | 0 <= i < |steps| :: CleanReserve(tr[i], steps[i])
    ensures NoOrphan(tr[k]) && AtMostOneLive(tr[k])
  {
    CleanPathKeeps(tr, steps, k);
    InvImpliesProperty(tr[k]);
  }

  /** A path that starts with this reservation and reserves nothing else. */
  ghost predicate ReservesOnce(s: State, key: string, principal: string, tr: seq<State>, steps: seq<Step>) {
    && Path(tr, steps) && tr[0] == s
    && |steps| > 0 && steps[0] == Reserve(key, principal)
    && forall i | 0 < i < |steps| :: !steps[i].Reserve?
  }

  ghost predicate ReservesNothing(s: State, tr: seq<State>, steps: seq<Step>) {
    Path(tr, steps) && tr[0] == s && forall i | 0 <= i < |steps| :: !steps[i].Reserve?
  }

  ghost predicate Orphaning(s: State, key: string, principal: string, tr: seq<State>, steps: seq<Step>) {
    ReservesOnce(s, key, principal, tr, steps) && !NoOrphan(tr[|steps|])
  }

  /** This reservation, followed by no other, can end in an orphan. */
  ghost predicate CanOrphan(s: State, key: string, principal: string) {
    exists tr, steps :: Orphaning(s, key, principal, tr, steps)
  }

  /** Reserve, send, hear the deleted sandbox replayed, record it, delete it: only the request is left behind. */
  lemma StaleReservation(s: State, key: string, principal: string)
    requires Inv(s) && s.pc.Idle? && s.record.None? && principal != ""
    requires Scope(principal, key) in s.keys
    ensures exists tr, steps ::
              && ReservesOnce(s, key, principal, tr, steps)
              && tr[|steps|] == s.(net := s.net + {CreateReq(key, principal, s.now + WINDOW)})
  {
    var earlier := s.keys[Scope(principal, key)];
    assert earlier.id in s.sandboxes && s.sandboxes[earlier.id].Confirmed();
    hide Inv;
    var request := CreateReq(key, principal, s.now + WINDOW);
    var s1 := s.(record := Some(Record(key, principal, s.now, "")), pc := MayCreate(key, principal));
    var s2 := s1.(net := s1.net + {request}, pc := Awaiting(request));
    var s3 := s2.(pc := Answered(earlier.id));
    var s4 := s3.(record := Some(Record(key, principal, s.now, earlier.id)), pc := Idle);
    var tr := [s, s1, s2, s3, s4, s4.(record := None)];
    var steps := [Reserve(key, principal), Send, Replay(request, true), Bind, Remove];
    assert ReservesOnce(s, key, principal, tr, steps);
  }

  /** The key expires and the late copy of the request creates a sandbox while no record stands. */
  lemma LateCreate(s: State, request: CreateReq, unused: string)
    requires request in s.net && ScopeOf(request) in s.keys && s.record.None?
    requires s.keys[ScopeOf(request)].at + WINDOW < request.deadline && s.now < request.deadline
    requires unused !in s.sandboxes && unused != ""
    ensures exists tr, steps :: ReservesNothing(s, tr, steps) && !NoOrphan(tr[|steps|])
  {
    var scope := ScopeOf(request);
    var expiry := s.keys[scope].at + WINDOW;
    var wait := if s.now < expiry then expiry - s.now else 0;
    var s1 := s.(now := s.now + wait);
    var s2 := s1.(keys := s1.keys - {scope});
    var s3 := s2.(keys := s2.keys[scope := Claim(s2.now, unused)],
                  sandboxes := s2.sandboxes[unused := Sandbox(request.key, request.principal, s2.now, false, false, false)]);
    assert !s3.sandboxes[unused].Confirmed();
    var tr, steps := [s, s1, s2, s3], [Tick(wait), Forget(scope), Create(request, unused, false)];
    assert ReservesNothing(s, tr, steps);
  }

  ghost function LongestName(names: set<string>): (n: nat)
    ensures forall x | x in names :: |x| <= n
  {
    if names == {} then 0
    else
      var x :| x in names;
      var n := LongestName(names - {x});
      if |x| > n then |x| else n
  }

  /** The backend can always find an id it has not given out. */
  lemma UnusedId(taken: set<string>) returns (id: string)
    ensures id !in taken && id != ""
  {
    id := seq(LongestName(taken) + 1, _ => 'x');
  }

  /**
  Re-reserving a claim whose deleted sandbox's key is still remembered: the create
  replays the deleted sandbox, the delete drops the record again, the key expires, and
  a late copy of that create makes a sandbox no record leads to.
  */
  lemma UncleanReserveOrphans(s: State, key: string, principal: string)
    requires Inv(s) && s.pc.Idle? && s.record.None? && principal != ""
    requires !CleanReserve(s, Reserve(key, principal))
    ensures CanOrphan(s, key, principal)
  {
    var unused := UnusedId(s.sandboxes.Keys);
    var request := CreateReq(key, principal, s.now + WINDOW);
    var left := s.(net := s.net + {request});
    StaleReservation(s, key, principal);
    LateCreate(left, request, unused);
    hide By, Inv, NoOrphan;
    var tr, steps :| ReservesOnce(s, key, principal, tr, steps) && tr[|steps|] == left;
    var late, lateSteps :| ReservesNothing(left, late, lateSteps) && !NoOrphan(late[|lateSteps|]);
    assert Orphaning(s, key, principal, tr + late[1..], steps + lateSteps);
  }

  lemma CleanReserveIsSafe(s: State, key: string, principal: string)
    requires Inv(s) && CleanReserve(s, Reserve(key, principal))
    ensures !CanOrphan(s, key, principal)
  {
    hide Inv, NoOrphan;
    forall tr, steps
      ensures !Orphaning(s, key, principal, tr, steps)
    {
      if ReservesOnce(s, key, principal, tr, steps) {
        assert forall i | 0 <= i < |steps| :: CleanReserve(tr[i], steps[i]);
        CleanPathKeeps(tr, steps, |steps|);
        InvImpliesProperty(tr[|steps|]);
      }
    }
  }

  /** A history from nothing, every reservation in it clean. */
  ghost predicate CleanHistory(tr: seq<State>, steps: seq<Step>) {
    Path(tr, steps) && Init(tr[0]) && forall i | 0 <= i < |steps| :: CleanReserve(tr[i], steps[i])
  }

  lemma CleanHistoryOk(tr: seq<State>, steps: seq<Step>)
    requires CleanHistory(tr, steps)
    ensures Inv(tr[|steps|])
  {
    InitOk(tr[0]);
    hide Inv;
    CleanPathKeeps(tr, steps, |steps|);
  }

  /** After a clean history the next reservation can end in an orphan exactly when it is not clean. */
  lemma ReserveOrphansIffUnclean(tr: seq<State>, steps: seq<Step>, key: string, principal: string)
    requires CleanHistory(tr, steps) && principal != ""
    requires tr[|steps|].pc.Idle? && tr[|steps|].record.None?
    ensures CleanReserve(tr[|steps|], Reserve(key, principal)) <==> !CanOrphan(tr[|steps|], key, principal)
  {
    CleanHistoryOk(tr, steps);
    hide Inv, CleanHistory, CanOrphan;
    if CleanReserve(tr[|steps|], Reserve(key, principal)) {
      CleanReserveIsSafe(tr[|steps|], key, principal);
    } else {
      UncleanReserveOrphans(tr[|steps|], key, principal);
    }
  }

  lemma Prefix(tr: seq<State>, steps: seq<Step>, k: nat)
    requires Path(tr, steps) && Init(tr[0]) && k <= |steps|
    requires forall i | 0 <= i < k :: CleanReserve(tr[i], steps[i])
    ensures CleanHistory(tr[..k + 1], steps[..k])
  {
    hide By, CleanReserve, Init;
  }

  lemma NthReserve(tr: seq<State>, steps: seq<Step>, i: nat)
    requires Path(tr, steps) && Init(tr[0]) && i < |steps| && steps[i].Reserve?
    requires forall j | 0 <= j < i :: CleanReserve(tr[j], steps[j])
    ensures CleanReserve(tr[i], steps[i]) <==> !CanOrphan(tr[i], steps[i].key, steps[i].principal)
  {
    assert By(tr[i], steps[i], tr[i + 1]);
    Prefix(tr, steps, i);
    hide CanOrphan, Path;
    ReserveOrphansIffUnclean(tr[..i + 1], steps[..i], steps[i].key, steps[i].principal);
  }

  /**
  The exact condition, over every history from nothing: every reservation was clean if
  and only if none of them could end in an orphan.
  */
  lemma SafeIffClean(tr: seq<State>, steps: seq<Step>)
    requires Path(tr, steps) && Init(tr[0])
    ensures (forall i | 0 <= i < |steps| :: CleanReserve(tr[i], steps[i]))
      <==> (forall i | 0 <= i < |steps| && steps[i].Reserve? :: !CanOrphan(tr[i], steps[i].key, steps[i].principal))
  {
    hide Path, By, Init, CanOrphan;
    SafeUpTo(tr, steps, |steps|);
  }

  lemma {:induction false} SafeUpTo(tr: seq<State>, steps: seq<Step>, k: nat)
    requires Path(tr, steps) && Init(tr[0]) && k <= |steps|
    ensures (forall i | 0 <= i < k :: CleanReserve(tr[i], steps[i]))
      <==> (forall i | 0 <= i < k && steps[i].Reserve? :: !CanOrphan(tr[i], steps[i].key, steps[i].principal))
  {
    hide By, Init, CanOrphan;
    if k > 0 {
      SafeUpTo(tr, steps, k - 1);
      if steps[k - 1].Reserve? && forall i | 0 <= i < k - 1 :: CleanReserve(tr[i], steps[i]) {
        NthReserve(tr, steps, k - 1);
      }
    }
  }

  /** A claim acquired and deleted, and `gap` seconds gone by with its key not yet forgotten. */
  lemma DeletedOnce(gap: nat) returns (tr: seq<State>, steps: seq<Step>)
    requires gap > 0
    ensures CleanHistory(tr, steps) && |steps| > 0 && steps[0] == Reserve("k", "p")
    ensures tr[0].now == 0 && tr[|steps|].now == gap && forall i | 0 < i < |steps| :: !steps[i].Reserve?
    ensures
      var s := tr[|steps|];
      s.pc.Idle? && s.record.None? && !CleanReserve(s, Reserve("k", "p"))
  {
    var request := CreateReq("k", "p", WINDOW);
    var s0 := State(0, None, Idle, {}, map[], map[]);
    var s1 := s0.(record := Some(Record("k", "p", 0, "")), pc := MayCreate("k", "p"));
    var s2 := s1.(net := {request}, pc := Awaiting(request));
    var s3 := s2.(keys := map[Scope("p", "k") := Claim(0, "a")],
                  sandboxes := map["a" := Sandbox("k", "p", 0, false, false, false)], pc := Answered("a"));
    var s4 := s3.(record := Some(Record("k", "p", 0, "a")), pc := Idle);
    var s5 := s4.(sandboxes := map["a" := Sandbox("k", "p", 0, true, true, true)]);
    var s6 := s5.(record := None);
    var s7 := s6.(now := gap);
    tr := [s0, s1, s2, s3, s4, s5, s6, s7];
    steps := [Reserve("k", "p"), Send, Create(request, "a", true), Bind, Confirm("a", true, true, true), Remove, Tick(gap)];
    assert s2.net == s1.net + {request};
    assert s3.keys == s2.keys[Scope("p", "k") := Claim(0, "a")];
    assert s3.sandboxes == s2.sandboxes["a" := Sandbox("k", "p", 0, false, false, false)];
    assert s5.sandboxes == s4.sandboxes["a" := Sandbox("k", "p", 0, true, true, true)];
    assert Path(tr, steps);
  }

  lemma InitOk(s: State)
    requires Init(s)
    ensures Inv(s)
  {
  }

  /** Whatever time passes before a claim is acquired a second time, a history exists in which that orphans a sandbox. */
  lemma AnOrphanIsReachable(gap: nat) returns (tr: seq<State>, steps: seq<Step>, k: nat)
    requires gap > 0
    ensures Path(tr, steps) && Init(tr[0]) && !NoOrphan(tr[|steps|])
    ensures 0 < k < |steps| && steps[0] == steps[k] && steps[0].Reserve? && tr[k].now == tr[0].now + gap
    ensures forall i | 0 < i < |steps| && i != k :: !steps[i].Reserve?
  {
    var first, firstSteps := DeletedOnce(gap);
    var s := first[|firstSteps|];
    CleanHistoryOk(first, firstSteps);
    UncleanReserveOrphans(s, "k", "p");
    hide By, Inv, NoOrphan, Init, CleanReserve;
    var more, moreSteps :| Orphaning(s, "k", "p", more, moreSteps);
    tr, steps, k := first + more[1..], firstSteps + moreSteps, |firstSteps|;
    assert Path(tr, steps);
    assert steps[k] == moreSteps[0] && tr[k] == s;
  }

  // ---- the caller's side of the condition ----

  ghost predicate ReservedBefore(steps: seq<Step>, k: nat, scope: Scope) {
    exists i | 0 <= i < k && i < |steps| :: steps[i] == Reserve(scope.key, scope.principal)
  }

  ghost predicate Traced(steps: seq<Step>, k: nat, s: State) {
    && (s.pc.MayCreate? ==> s.record.Some? && s.record.value.principal == s.pc.principal)
    && (s.record.Some? ==> ReservedBefore(steps, k, Scope(s.record.value.principal, s.record.value.key)))
    && (forall r | r in s.net :: ReservedBefore(steps, k, ScopeOf(r)))
    && (forall scope | scope in s.keys :: ReservedBefore(steps, k, scope))
  }

  lemma {:induction false} EverythingTraced(tr: seq<State>, steps: seq<Step>, k: nat)
    requires Path(tr, steps) && Init(tr[0]) && k < |tr|
    ensures Traced(steps, k, tr[k])
    decreases k
  {
    if k > 0 {
      EverythingTraced(tr, steps, k - 1);
      assert By(tr[k - 1], steps[k - 1], tr[k]);
      assert forall scope | ReservedBefore(steps, k - 1, scope) :: ReservedBefore(steps, k, scope);
    }
  }

  /** A caller that acquires each claim cycle once, as approvals do, never orphans a sandbox. */
  lemma AcquiredOnceIsSafe(tr: seq<State>, steps: seq<Step>, k: nat)
    requires Path(tr, steps) && Init(tr[0]) && k < |tr|
    requires forall i, j | 0 <= i < j < |steps| :: steps[i].Reserve? ==> steps[i] != steps[j]
    ensures NoOrphan(tr[k]) && AtMostOneLive(tr[k])
  {
    forall i | 0 <= i < |steps|
      ensures CleanReserve(tr[i], steps[i])
    {
      EverythingTraced(tr, steps, i);
    }
    NothingIsOrphaned(tr, steps, k);
  }

  /** A sandbox of this scope was created in the given span. */
  predicate LeftBehind(s: State, scope: Scope, from: nat, upto: nat) {
    exists id | id in s.sandboxes ::
      s.sandboxes[id].key == scope.key && s.sandboxes[id].principal == scope.principal && from <= s.sandboxes[id].createdAt <= upto
  }

  predicate Stands(s: State, scope: Scope, from: nat) {
    && s.record.Some? && s.record.value.key == scope.key && s.record.value.principal == scope.principal
    && from <= s.record.value.attemptedAt
  }

  lemma LeftBehindStays(s: State, step: Step, s': State, scope: Scope, from: nat, upto: nat)
    requires By(s, step, s') && LeftBehind(s, scope, from, upto)
    ensures LeftBehind(s', scope, from, upto)
  {
    var id :| id in s.sandboxes
      && s.sandboxes[id].key == scope.key && s.sandboxes[id].principal == scope.principal && from <= s.sandboxes[id].createdAt <= upto;
    assert id in s'.sandboxes && s'.sandboxes[id].createdAt == s.sandboxes[id].createdAt;
  }

  /** A record is dropped only over its own sandbox. */
  lemma StandsUntilRemoved(s: State, step: Step, s': State, scope: Scope, from: nat)
    requires Inv(s) && By(s, step, s') && Stands(s, scope, from)
    ensures if step.Remove? then LeftBehind(s', scope, from, s.now) else Stands(s', scope, from)
  {
    if step.Remove? {
      assert Mine(s.record.value, s.sandboxes[s.record.value.id]);
    }
  }

  lemma LeftBehindWidens(s: State, scope: Scope, from: nat, upto: nat, later: nat)
    requires LeftBehind(s, scope, from, upto) && upto <= later
    ensures LeftBehind(s, scope, from, later)
  {
  }

  lemma ClockAdvances(s: State, step: Step, s': State)
    requires By(s, step, s')
    ensures s.now <= s'.now
  {
  }

  lemma NthStep(tr: seq<State>, steps: seq<Step>, j: nat)
    requires CleanHistory(tr, steps) && j < |steps|
    ensures |tr| == |steps| + 1 && Inv(tr[j]) && By(tr[j], steps[j], tr[j + 1])
  {
    hide By, Inv, Init, CleanReserve;
    Prefix(tr, steps, j);
    CleanHistoryOk(tr[..j + 1], steps[..j]);
  }

  lemma ReservedStands(s: State, key: string, principal: string, s': State)
    requires By(s, Reserve(key, principal), s')
    ensures Stands(s', Scope(principal, key), s.now)
  {
  }

  lemma {:induction false} ReservationStands(tr: seq<State>, steps: seq<Step>, i: nat, j: nat)
    requires CleanHistory(tr, steps) && i < j <= |steps| < |tr| && steps[i].Reserve?
    ensures
      var scope := Scope(steps[i].principal, steps[i].key);
      LeftBehind(tr[j], scope, tr[i].now, tr[j].now) || Stands(tr[j], scope, tr[i].now)
    decreases j
  {
    hide *;
    var scope, from := Scope(steps[i].principal, steps[i].key), tr[i].now;
    var s, step, s' := tr[j - 1], steps[j - 1], tr[j - 1 + 1];
    NthStep(tr, steps, j - 1);
    if j == i + 1 {
      ReservedStands(s, step.key, step.principal, s');
    } else {
      ReservationStands(tr, steps, i, j - 1);
      ClockAdvances(s, step, s');
      if LeftBehind(s, scope, from, s.now) {
        LeftBehindStays(s, step, s', scope, from, s.now);
        LeftBehindWidens(s', scope, from, s.now, s'.now);
      } else {
        StandsUntilRemoved(s, step, s', scope, from);
        if step.Remove? {
          LeftBehindWidens(s', scope, from, s.now, s'.now);
        }
      }
    }
  }

  lemma {:induction false} ReservationLeaves(tr: seq<State>, steps: seq<Step>, i: nat, n: nat, j: nat)
    requires CleanHistory(tr, steps) && i < n < j <= |steps| < |tr| && steps[i].Reserve? && steps[n].Remove?
    ensures LeftBehind(tr[j], Scope(steps[i].principal, steps[i].key), tr[i].now, tr[n].now)
    decreases j
  {
    hide *;
    var scope, from := Scope(steps[i].principal, steps[i].key), tr[i].now;
    var s, step, s' := tr[j - 1], steps[j - 1], tr[j - 1 + 1];
    NthStep(tr, steps, j - 1);
    if j > n + 1 {
      ReservationLeaves(tr, steps, i, n, j - 1);
      LeftBehindStays(s, step, s', scope, from, tr[n].now);
    } else {
      ReservationStands(tr, steps, i, n);
      if LeftBehind(s, scope, from, s.now) {
        LeftBehindStays(s, step, s', scope, from, s.now);
      } else {
        StandsUntilRemoved(s, step, s', scope, from);
      }
    }
  }

  /** A sandbox younger than the window still has its key remembered. */
  lemma StillRemembered(s: State, scope: Scope, from: nat, upto: nat)
    requires Inv(s) && LeftBehind(s, scope, from, upto) && upto < s.now < from + WINDOW
    ensures !CleanReserve(s, Reserve(scope.key, scope.principal))
  {
  }

  /**
  The failing half: acquiring a claim cycle again within 24 hours of its own reservation,
  any time after it was deleted, can orphan a sandbox in every history, not only in some.
  */
  lemma AcquiredAgainOrphans(tr: seq<State>, steps: seq<Step>, i: nat, n: nat)
    requires CleanHistory(tr, steps) && i < n < |steps| && steps[i].Reserve? && steps[n].Remove?
    requires tr[|steps|].pc.Idle? && tr[|steps|].record.None?
    requires tr[n].now < tr[|steps|].now < tr[i].now + WINDOW
    ensures CanOrphan(tr[|steps|], steps[i].key, steps[i].principal)
  {
    assert By(tr[i], steps[i], tr[i + 1]);
    assert steps[i].principal != "";
    hide *;
    ReservationLeaves(tr, steps, i, n, |steps|);
    CleanHistoryOk(tr, steps);
    StillRemembered(tr[|steps|], Scope(steps[i].principal, steps[i].key), tr[i].now, tr[n].now);
    UncleanReserveOrphans(tr[|steps|], steps[i].key, steps[i].principal);
  }

  // ---- what an acquire sends, and what it can bring about ----

  /** The steps that open an acquire, and the key and principal it is opened with. */
  predicate Opens(step: Step, key: string, principal: string) {
    step == Reserve(key, principal) || step == Retry(key, principal)
  }

  /** The acquire now at work was opened at step `j`, while a create under this fence could still be served. */
  ghost predicate OpenedAt(tr: seq<State>, steps: seq<Step>, i: nat, j: nat)
    requires i < |tr|
  {
    && j < i && i <= |steps| && j < |tr| && tr[i].pc.MayCreate? && tr[i].record.Some?
    && Opens(steps[j], tr[i].pc.key, tr[i].pc.principal) && tr[j].now < tr[i].record.value.attemptedAt + WINDOW
    && forall k | j < k < i :: !steps[k].Reserve? && !steps[k].Retry?
  }

  lemma {:induction false} EveryAcquireWasOpened(tr: seq<State>, steps: seq<Step>, i: nat) returns (j: nat)
    requires Path(tr, steps) && Init(tr[0]) && i < |tr| && tr[i].pc.MayCreate?
    ensures OpenedAt(tr, steps, i, j)
    decreases i
  {
    WindowIs();
    assert i > 0;
    assert By(tr[i - 1], steps[i - 1], tr[i - 1 + 1]);
    if steps[i - 1].Reserve? || steps[i - 1].Retry? {
      j := i - 1;
    } else {
      assert tr[i - 1].pc.MayCreate? && tr[i].record == tr[i - 1].record;
      j := EveryAcquireWasOpened(tr, steps, i - 1);
    }
  }

  /**
  Every create sent asks for the claim its acquire was opened for, under the credential
  that acquire holds, and that acquire was opened less than 24 hours after the record's fence.
  */
  lemma CreatesAreTheCallers(tr: seq<State>, steps: seq<Step>, i: nat) returns (j: nat, request: CreateReq)
    requires CleanHistory(tr, steps) && i < |steps| && steps[i].Send?
    ensures |tr| == |steps| + 1 && tr[i + 1].net == tr[i].net + {request} && tr[i + 1].pc == Awaiting(request)
    ensures j < i && Opens(steps[j], request.key, request.principal)
    ensures forall k | j < k < i :: !steps[k].Reserve? && !steps[k].Retry?
    ensures tr[i].record.Some? && tr[i].record.value.id == ""
    ensures
      var r := tr[i].record.value;
      request == CreateReq(r.key, r.principal, r.attemptedAt + 86400) && r.principal != "" && tr[j].now < r.attemptedAt + 86400
  {
    WindowIs();
    NthStep(tr, steps, i);
    hide Inv, CleanReserve;
    AnswersTheRecord(tr[i]);
    j := EveryAcquireWasOpened(tr, steps, i);
    request := tr[i + 1].pc.request;
  }

  lemma AnswersTheRecord(s: State)
    requires Inv(s) && s.pc.MayCreate?
    ensures s.record.Some? && s.record.value.id == "" && s.record.value.key == s.pc.key
    ensures s.record.value.principal == s.pc.principal != ""
  {
  }

  /** Every id the backend, an acquire or the record names was created. */
  ghost predicate Known(s: State) {
    && (forall scope | scope in s.keys :: s.keys[scope].id in s.sandboxes)
    && (s.pc.Answered? ==> s.pc.id in s.sandboxes)
    && (s.record.Some? && s.record.value.id != "" ==> s.record.value.id in s.sandboxes)
  }

  lemma {:induction false} AlwaysKnown(tr: seq<State>, steps: seq<Step>, k: nat)
    requires Path(tr, steps) && Init(tr[0]) && k < |tr|
    ensures Known(tr[k])
    decreases k
  {
    if k > 0 {
      AlwaysKnown(tr, steps, k - 1);
      assert By(tr[k - 1], steps[k - 1], tr[k - 1 + 1]);
    }
  }

  /** Inside its window an unanswered reservation can always be retried into a sandbox the record names. */
  lemma AReservationCanBeBound(s: State) returns (tr: seq<State>, steps: seq<Step>)
    requires s.pc.Idle? && s.record.Some? && s.record.value.id == "" && s.now < s.record.value.attemptedAt + 86400
    requires Known(s)
    ensures ReservesNothing(s, tr, steps)
    ensures
      var t := tr[|steps|];
      && t.pc.Idle? && t.now == s.now && t.record.Some? && t.record.value.id in t.sandboxes
      && t.record == Some(s.record.value.(id := t.record.value.id))
  {
    WindowIs();
    var r := s.record.value;
    var request := CreateReq(r.key, r.principal, r.attemptedAt + WINDOW);
    var s1 := s.(pc := MayCreate(r.key, r.principal));
    var s2 := s1.(net := s1.net + {request}, pc := Awaiting(request));
    var served, s3, id;
    if ScopeOf(request) in s.keys {
      id := s.keys[ScopeOf(request)].id;
      served, s3 := Replay(request, true), s2.(pc := Answered(id));
    } else {
      id := UnusedId(s.sandboxes.Keys);
      served := Create(request, id, true);
      s3 := s2.(keys := s2.keys[ScopeOf(request) := Claim(s2.now, id)],
                sandboxes := s2.sandboxes[id := Sandbox(request.key, request.principal, s2.now, false, false, false)],
                pc := Answered(id));
    }
    var s4 := s3.(record := Some(r.(id := id)), pc := Idle);
    tr, steps := [s, s1, s2, s3, s4], [Retry(r.key, r.principal), Send, served, Bind];
    assert By(s, steps[0], s1) && By(s1, steps[1], s2) && By(s2, steps[2], s3) && By(s3, steps[3], s4);
    assert Path(tr, steps);
  }

  /** A recorded sandbox can always be deleted, after which no record stands. */
  lemma ABoundSandboxCanBeDeleted(s: State) returns (tr: seq<State>, steps: seq<Step>)
    requires s.pc.Idle? && s.record.Some? && s.record.value.id != "" && Known(s)
    ensures ReservesNothing(s, tr, steps)
    ensures
      var t := tr[|steps|];
      t.record.None? && t.pc.Idle? && s.record.value.id in t.sandboxes && t.sandboxes[s.record.value.id].Confirmed()
  {
    var id := s.record.value.id;
    var s1 := s.(sandboxes := s.sandboxes[id := s.sandboxes[id].(computeReleased := true, volumeDestroyed := true, recordTombstoned := true)]);
    tr, steps := [s, s1, s1.(record := None)], [Confirm(id, true, true, true), Remove];
    assert By(s, steps[0], s1) && By(s1, steps[1], tr[2]);
    assert Path(tr, steps);
  }
}
