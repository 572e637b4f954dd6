/** The dispatch protocol's guarantees, for every execution. */
module DispatchTheorems {
  import opened Outcomes
  import opened StartStore
  import opened StdinPlanning
  import opened StdinDelivery
  import opened Dispatch
  import opened DispatchSafety

  lemma StepKeeps(d: Deployment, s: State, step: Step, s': State)
    requires Valid(d) && Inv(d, s) && By(d, s, step, s')
    ensures Inv(d, s')
  {
    hide Inv, Valid, Loaded, Reserved, Renewed, KeptRefusal, Owed, Sent, ServedRefusal, ServedReplay,
         ServedCreate, Adopted, PutOut, ServedWrite, Settled, Forgot, Observed, OtherRan;
    match step
    case Tick(elapsed) => TickKeeps(d, s, elapsed, s');
    case LoadEnvelope(learning) => LoadedKeeps(d, s, learning, s');
    case Prepare(principal, at) => ReservedKeeps(d, s, principal, at, s');
    case Renew(at) => RenewedKeeps(d, s, at, s');
    case KeepRefusal(refusal) => KeptRefusalKeeps(d, s, refusal, s');
    case Owe => OwedKeeps(d, s, s');
    case Send => SentKeeps(d, s, s');
    case Refuse(request, heard) => ServedRefusalKeeps(d, s, request, heard, s');
    case Replay(request, heard) => ServedReplayKeeps(d, s, request, heard, s');
    case Create(request, id, heard) => ServedCreateKeeps(d, s, request, id, heard, s');
    case Adopt => AdoptedKeeps(d, s, s');
    case PutWrite => PutOutKeeps(d, s, s');
    case ServeWrite(request, run', answer, heard) => ServedWriteKeeps(d, s, request, run', answer, heard, s');
    case Settle => SettledKeeps(d, s, s');
    case Return => ReturnKeeps(d, s, s');
    case Forget(principal) => ForgotKeeps(d, s, principal, s');
    case Observe(id) => ObservedKeeps(d, s, id, s');
    case LearnElsewhere => LearnedElsewhereKeeps(d, s, s');
    case OtherRun(id, other) => OtherRanKeeps(d, s, id, other, s');
  }

  lemma {:induction false} InvHolds(d: Deployment, tr: seq<State>, k: nat)
    requires Valid(d) && Execution(d, tr) && k < |tr|
    ensures Inv(d, tr[k])
    decreases k
  {
    if k == 0 {
      InitKeeps(d, tr[0]);
    } else {
      InvHolds(d, tr, k - 1);
      hide Inv, Valid, Init, By;
      assert Next(d, tr[k - 1], tr[k - 1 + 1]);
      var step :| By(d, tr[k - 1], step, tr[k]);
      StepKeeps(d, tr[k - 1], step, tr[k]);
    }
  }

  // ---- what persists from one state to every later one ----

  ghost predicate Persists(d: Deployment, s: State, s': State) {
    && s.net <= s'.net
    && (forall i | Ours(d, s, i) :: Ours(d, s', i) && s'.runs[i].origin == s.runs[i].origin && s.runs[i].stdin <= s'.runs[i].stdin)
    && (Bound(s.binding) ==> Bound(s'.binding) && s'.binding.value.runId == s.binding.value.runId)
  }

  /** A recorded id outlives every operation on the binding. */
  predicate KeepsBound(before: Slot, after: Slot) {
    Bound(before) ==> Bound(after) && after.value.runId == before.value.runId
  }

  lemma UnchangedRuns(d: Deployment, s: State, s': State)
    requires s.net <= s'.net && s'.runs == s.runs && KeepsBound(s.binding, s'.binding)
    ensures Persists(d, s, s')
  {
  }

  lemma StoreKeepsBound(d: Deployment, s: State, step: Step, s': State)
    requires By(d, s, step, s')
    requires step.Prepare? || step.Renew? || step.KeepRefusal? || step.Owe? || step.Adopt? || step.Settle? || step.Observe?
    ensures s'.net == s.net && s'.runs == s.runs && KeepsBound(s.binding, s'.binding)
  {
    hide PlanOf, BodyOf, Prepared;
  }

  lemma CreatePersists(d: Deployment, s: State, request: Request, id: string, heard: bool, s': State)
    requires ServedCreate(d, s, request, id, heard, s')
    ensures Persists(d, s, s')
  {
  }

  lemma WritePersists(d: Deployment, s: State, request: Request, run': Run, answer: WriteAnswer, heard: bool, s': State)
    requires ServedWrite(d, s, request, run', answer, heard, s')
    ensures Persists(d, s, s')
  {
    hide AfterWrite;
  }

  lemma OtherPersists(d: Deployment, s: State, id: string, other: Run, s': State)
    requires OtherRan(d, s, id, other, s')
    ensures Persists(d, s, s')
  {
  }

  lemma QuietStep(d: Deployment, s: State, step: Step, s': State)
    requires By(d, s, step, s')
    requires step.Tick? || step.LoadEnvelope? || step.Send? || step.Refuse? || step.Replay? || step.PutWrite?
      || step.Return? || step.Forget? || step.LearnElsewhere?
    ensures s.net <= s'.net && s'.runs == s.runs && s'.binding == s.binding
  {
    hide PlanOf, BodyOf, WriteAt;
  }

  lemma StepPersists(d: Deployment, s: State, step: Step, s': State)
    requires By(d, s, step, s')
    ensures Persists(d, s, s')
  {
    hide Persists, Loaded, Reserved, Renewed, KeptRefusal, Owed, Sent, ServedRefusal, ServedReplay,
         ServedCreate, Adopted, PutOut, ServedWrite, Settled, Forgot, Observed, OtherRan;
    match step
    case Create(request, id, heard) => CreatePersists(d, s, request, id, heard, s');
    case ServeWrite(request, run', answer, heard) => WritePersists(d, s, request, run', answer, heard, s');
    case OtherRun(id, other) => OtherPersists(d, s, id, other, s');
    case _ =>
      if step.Prepare? || step.Renew? || step.KeepRefusal? || step.Owe? || step.Adopt? || step.Settle? || step.Observe? {
        StoreKeepsBound(d, s, step, s');
      } else {
        QuietStep(d, s, step, s');
      }
      UnchangedRuns(d, s, s');
  }

  lemma PersistsTransitive(d: Deployment, s: State, s': State, s'': State)
    requires Persists(d, s, s') && Persists(d, s', s'')
    ensures Persists(d, s, s'')
  {
    forall i | Ours(d, s, i)
      ensures s.runs[i].stdin <= s''.runs[i].stdin
    {
      assert s.runs[i].stdin <= s'.runs[i].stdin <= s''.runs[i].stdin;
    }
  }

  lemma {:induction false} RunPersists(d: Deployment, tr: seq<State>, k: nat, m: nat)
    requires Execution(d, tr) && k <= m < |tr|
    ensures Persists(d, tr[k], tr[m])
    decreases m
  {
    if k < m {
      RunPersists(d, tr, k, m - 1);
      hide By, Persists;
      assert Next(d, tr[m - 1], tr[m - 1 + 1]);
      var step :| By(d, tr[m - 1], step, tr[m]);
      StepPersists(d, tr[m - 1], step, tr[m]);
      PersistsTransitive(d, tr[k], tr[m - 1], tr[m]);
    }
  }

  // ---- theorems ----

  /** Whatever crashes, is lost, replayed, refused and re-armed, one address gets one run. */
  lemma AtMostOneRun(d: Deployment, tr: seq<State>, k: nat, m: nat, i: string, j: string)
    requires Valid(d) && Execution(d, tr) && k <= m < |tr|
    requires Ours(d, tr[k], i) && Ours(d, tr[m], j)
    ensures i == j
  {
    RunPersists(d, tr, k, m);
    InvHolds(d, tr, m);
  }

  /** What an address resolves to, from its durable binding alone. */
  datatype Resolution = NoProcess | Refused | Unresolved | Resolved(run: string) | Fault(error: StoreError)

  function Resolve(d: Deployment, slot: Slot): Resolution {
    match Load(slot, d.address)
    case Err(NoRunBinding) => NoProcess
    case Err(e) => Fault(e)
    case Ok(b) =>
      if !SameSubstrate(b.substrate, d.substrate) then Fault(WrongSubstrate)
      else if b.runId != "" then Resolved(b.runId)
      else if b.refusal.Some? then Refused
      else Unresolved
  }

  /**
  Every reading of an address is right about the backend: absence means no start was
  ever sent, a refusal means no run exists and none can still appear, and a recorded
  id is the one run of this address, now and in every later state.
  */
  lemma ResolutionIsSound(d: Deployment, tr: seq<State>, k: nat)
    requires Valid(d) && Execution(d, tr) && k < |tr|
    ensures match Resolve(d, tr[k].binding)
      case NoProcess => tr[k].binding.None? && (forall r | r in tr[k].net :: !r.StartReq?) && (forall i :: !Ours(d, tr[k], i))
      case Refused =>
        && tr[k].binding.Some? && tr[k].binding.value.refusal.Some? && !tr[k].binding.value.stdinPending
        && NamesRefused(d, tr[k].binding.value.refusal.value.fingerprint)
        && (forall r | r in tr[k].net && r.StartReq? :: !d.accepts(r.body)) && (forall i :: !Ours(d, tr[k], i))
      case Unresolved => tr[k].binding.Some? && tr[k].binding.value.runId == "" && tr[k].binding.value.refusal.None?
      case Resolved(id) =>
        && tr[k].binding.Some? && tr[k].binding.value.runId == id && (forall i :: Ours(d, tr[k], i) <==> i == id)
        && (forall m | k <= m < |tr| :: Resolve(d, tr[m].binding) == Resolved(id))
      case Fault(_) => false
  {
    InvHolds(d, tr, k);
    var s := tr[k];
    assert forall r | r in s.net :: RequestOk(d, s, r);
    assert forall i | Ours(d, s, i) :: RunOk(d, s, i);
    forall m | k <= m < |tr| && Bound(s.binding)
      ensures Resolve(d, tr[m].binding) == Resolve(d, s.binding)
    {
      RunPersists(d, tr, k, m);
      InvHolds(d, tr, m);
    }
  }

  function ComposedLimits(pc: Pc): Option<Limits> {
    match pc
    case Composed(l) => Some(l)
    case MustRenew(l, _) => Some(l)
    case Armed(l, _, _, _) => Some(l)
    case Ready(l, _, _) => Some(l)
    case Awaiting(l, _) => Some(l)
    case RefusedBy(l) => Some(l)
    case _ => None
  }

  /** Once a body was accepted here, every later Start composes exactly that body. */
  lemma AcceptedBodyNeverChanges(d: Deployment, tr: seq<State>, k: nat, m: nat, i: string)
    requires Valid(d) && Execution(d, tr) && k <= m < |tr| && Ours(d, tr[k], i)
    ensures tr[k].runs[i].origin.StartReq?
    ensures var limits := ComposedLimits(tr[m].pc);
            limits.Some? ==> BodyOf(d, limits.value) == tr[k].runs[i].origin.body
  {
    InvHolds(d, tr, k);
    InvHolds(d, tr, m);
    RunPersists(d, tr, k, m);
    var origin := tr[m].runs[i].origin;
    assert RunOk(d, tr[k], i) && RunOk(d, tr[m], i) && RequestOk(d, tr[m], origin);
    OneLiveBody(d, origin.body);
  }

  /**
  A streaming run whose prompt was neither closed in full nor given up on is marked
  owed on disk, in every state and so after a crash in any of them; what it holds is
  a prefix of the prompt, and closed means all of it.
  */
  lemma PromptIsNeverLost(d: Deployment, tr: seq<State>, k: nat, i: string)
    requires Valid(d) && Execution(d, tr) && k < |tr| && Ours(d, tr[k], i)
    ensures var run := tr[k].runs[i];
            && run.stdin <= d.prompt
            && (run.closed ==> run.stdin == d.prompt)
            && (Streams(run) && !run.closed && !tr[k].gaveUp ==>
                  tr[k].binding.Some? && tr[k].binding.value.stdinPending)
    ensures tr[k].pc == Delivered(i) ==> tr[k].runs[i].closed || tr[k].gaveUp
  {
    InvHolds(d, tr, k);
    assert RunOk(d, tr[k], i);
  }
}
