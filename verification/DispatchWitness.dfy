/** One whole dispatch, so that what holds of every execution is not said of none. */
module DispatchWitness {
  import opened Outcomes
  import opened ReplayWindow
  import opened StartStore
  import opened StdinPlanning
  import opened StdinDelivery
  import opened Dispatch
  import opened DispatchSafety

  const PROMPT: Bytes := [7, 9]
  const ENVELOPE := Limits(0, 1, 0, 0)
  const SUBSTRATE := Substrate("https://backend", "static", "key")

  /** A two-byte prompt that must be streamed, one byte to a write. */
  function TwoBytes(): Deployment {
    Deployment("address", "label", SUBSTRATE, PROMPT, 0, ENVELOPE, (b: Body) => b.mode == Streaming, (b: Body) => "digest")
  }

  const BODY := Body(Streaming, [])
  const START := StartReq("me", BODY, 1 + WINDOW)
  const FIRST := Write(0, [7], false)
  const LAST := Write(1, [9], true)

  function Bind(run: string, pending: bool): Slot {
    Some(StartBinding(CURRENT_VERSION, "address", SUBSTRATE, "me", run, 1, pending, None))
  }

  function RunAt(stdin: Bytes, closed: bool, receipts: map<nat, Write>): Run {
    Run("label", START, 1, stdin, closed, receipts)
  }

  const KEYS: map<string, Claim> := map["me" := Claim(1, "run", BODY)]

  ghost predicate Delivers(d: Deployment, tr: seq<State>, id: string) {
    && Valid(d) && Execution(d, tr)
    && var s := tr[|tr| - 1];
    && Ours(d, s, id) && Streams(s.runs[id]) && s.runs[id].closed && s.runs[id].stdin == d.prompt
    && s.pc.Idle? && s.binding.Some? && s.binding.value.runId == id && !s.binding.value.stdinPending
  }

  /** Reserving, owing and sending the start. */
  function Sending(): seq<State> {
    var s1 := State(1, None, Unknown, Idle, {}, map[], map[], false);
    var s2 := s1.(limits := ENVELOPE, pc := Composed(ENVELOPE));
    var s3 := s2.(binding := Bind("", false), pc := Armed(ENVELOPE, "me", 1 + WINDOW, false));
    var s4 := s3.(binding := Bind("", true), pc := Ready(ENVELOPE, "me", 1 + WINDOW));
    var s5 := s4.(net := {START}, pc := Awaiting(ENVELOPE, START));
    [s1, s2, s3, s4, s5]
  }

  /** The run is created and recorded. */
  function Starting(): seq<State> {
    var s5 := Sending()[4];
    var s6 := s5.(keys := KEYS, runs := map["run" := RunAt([], false, map[])], pc := Got(ENVELOPE, "run"));
    var s7 := s6.(binding := Bind("run", true), pc := Delivering("run", 0, 1));
    [s5, s6, s7]
  }

  /** The first byte is written. */
  function FirstByte(): seq<State> {
    var s7 := Starting()[2];
    var s8 := s7.(net := {START, WriteReq("run", FIRST)}, pc := Writing("run", 1, FIRST));
    var s9 := s8.(runs := map["run" := RunAt([7], false, map[0 := FIRST])], pc := Delivering("run", 1, 1));
    [s7, s8, s9]
  }

  /** The second byte closes the prompt. */
  function LastByte(): seq<State> {
    var s9 := FirstByte()[2];
    var s10 := s9.(net := {START, WriteReq("run", FIRST), WriteReq("run", LAST)}, pc := Writing("run", 1, LAST));
    var s11 := s10.(runs := map["run" := RunAt([7, 9], true, map[0 := FIRST, 1 := LAST])], pc := Delivered("run"));
    [s9, s10, s11]
  }

  /** The debt is cleared. */
  function Settling(): seq<State> {
    var s11 := LastByte()[2];
    [s11, s11.(binding := Bind("run", false), pc := Idle)]
  }

  ghost predicate Steps(tr: seq<State>) {
    forall i | 0 <= i < |tr| - 1 :: Next(TwoBytes(), tr[i], tr[i + 1])
  }

  lemma SendingSteps()
    ensures Steps(Sending())
  {
    var d, tr := TwoBytes(), Sending();
    assert By(d, tr[0], LoadEnvelope(Learned), tr[1]);
    assert By(d, tr[1], Prepare("me", 1), tr[2]);
    assert By(d, tr[2], Owe, tr[3]);
    assert By(d, tr[3], Send, tr[4]);
  }

  lemma StartingSteps()
    ensures Steps(Starting())
  {
    var d, tr := TwoBytes(), Starting();
    assert By(d, tr[0], Create(START, "run", true), tr[1]);
    assert By(d, tr[1], Adopt, tr[2]);
  }

  lemma FirstByteSteps()
    ensures Steps(FirstByte())
  {
    var d, tr := TwoBytes(), FirstByte();
    assert WriteAt(PROMPT, 0, 1) == FIRST;
    assert By(d, tr[0], PutWrite, tr[1]);
    assert By(d, tr[1], ServeWrite(WriteReq("run", FIRST), tr[2].runs["run"], Accepted(1, false), true), tr[2]);
  }

  lemma LastByteSteps()
    ensures Steps(LastByte())
  {
    var d, tr := TwoBytes(), LastByte();
    assert WriteAt(PROMPT, 1, 1) == LAST;
    assert By(d, tr[0], PutWrite, tr[1]);
    assert By(d, tr[1], ServeWrite(WriteReq("run", LAST), tr[2].runs["run"], Accepted(2, true), true), tr[2]);
  }

  lemma SettlingSteps()
    ensures Steps(Settling())
  {
    var d, tr := TwoBytes(), Settling();
    assert By(d, tr[0], Settle, tr[1]);
  }

  lemma StepsJoin(a: seq<State>, b: seq<State>)
    requires a != [] && b != [] && Steps(a) && Steps(b) && a[|a| - 1] == b[0]
    ensures
      var c := a + b[1..];
      Steps(c) && c != [] && c[0] == a[0] && c[|c| - 1] == b[|b| - 1]
  {
    hide Next, By;
    var c := a + b[1..];
    forall i | 0 <= i < |c| - 1
      ensures Next(TwoBytes(), c[i], c[i + 1])
    {
      if i >= |a| - 1 {
        assert c[i] == b[i - |a| + 1] && c[i + 1] == b[i - |a| + 1 + 1];
      }
    }
  }

  lemma APromptArrives() returns (d: Deployment, tr: seq<State>, id: string)
    ensures Delivers(d, tr, id)
  {
    SendingSteps();
    StartingSteps();
    FirstByteSteps();
    LastByteSteps();
    SettlingSteps();
    var a, b, c, e, f := Sending(), Starting(), FirstByte(), LastByte(), Settling();
    hide Steps, Next, By;
    StepsJoin(e, f);
    var g := e + f[1..];
    StepsJoin(c, g);
    var h := c + g[1..];
    StepsJoin(b, h);
    var k := b + h[1..];
    StepsJoin(a, k);
    d, tr, id := TwoBytes(), a + k[1..], "run";
    Whole(tr);
  }

  lemma Whole(tr: seq<State>)
    requires |tr| > 0 && Steps(tr) && tr[0] == Sending()[0] && tr[|tr| - 1] == Settling()[1]
    ensures Delivers(TwoBytes(), tr, "run")
  {
    hide Next, By;
  }
}
