/**
How a prompt travels: inline in the start body, or streamed afterwards in
offset-addressed writes.  The plan is a function of the prompt and the recorded
envelope alone; the results here are that it cannot change once a body was
accepted, and that every streaming write it cuts fits the bounds the backend
measures.
*/
module StdinPlanning {
  const DEFAULT_CHUNK: int := 65536

  /** A profile revision's stdin envelope.  `chunk <= 0` is an envelope never read. */
  datatype Limits = Limits(inlineMax: int, chunk: int, total: int, requestBody: int) {
    predicate Known() {
      chunk > 0
    }

    predicate Admits(n: nat) {
      total <= 0 || n <= total
    }

    /** The most decoded stdin one write may carry under the request-body bound; 0 is no bound. */
    function BodyFit(): int {
      if requestBody <= 0 then 0
      else
        var room := requestBody - WRITE_OVERHEAD;
        if room < 4 then 3 else room / 4 * 3
    }

    function StreamChunk(): int {
      var cut := if chunk <= 0 then DEFAULT_CHUNK else chunk;
      if 0 < BodyFit() < cut then BodyFit() else cut
    }
  }

  const Unknown := Limits(0, 0, 0, 0)

  datatype Mode = Closed | Inline | Streaming

  datatype Plan = Plan(mode: Mode, chunk: int, refused: bool)

  function PlanStdin(limits: Limits, n: nat): Plan {
    if n == 0 then Plan(Closed, 0, false)
    else if !limits.Known() then Plan(Inline, 0, false)
    else if !limits.Admits(n) then Plan(Streaming, 0, true)
    else if n <= limits.inlineMax then Plan(Inline, 0, false)
    else Plan(Streaming, limits.StreamChunk(), false)
  }

  // ---- the start body ----

  type Bytes = seq<bv8>

  /** What varies between two compositions of the start body at one address. */
  datatype Body = Body(mode: Mode, inline: Bytes)

  /** Length of padded base64 (section 4 of RFC 4648): four characters per started group of three. */
  function Base64Len(n: nat): nat {
    (n + 2) / 3 * 4
  }

  /** `frame` is the length of the start body's JSON around an inline prompt. */
  function PlanStart(limits: Limits, prompt: Bytes, frame: nat): Plan {
    var plan := PlanStdin(limits, |prompt|);
    if plan.mode == Inline && limits.requestBody > 0 && frame + Base64Len(|prompt|) > limits.requestBody
    then Plan(Streaming, limits.StreamChunk(), false)
    else plan
  }

  function ComposeBody(plan: Plan, prompt: Bytes): Body {
    Body(plan.mode, if plan.mode == Inline then prompt else [])
  }

  /** The backend admits an inline body only inside all three bounds of the pinned envelope. */
  predicate InlineWithin(envelope: Limits, frame: nat, b: Body) {
    b.mode == Inline ==>
      && |b.inline| <= envelope.inlineMax
      && envelope.Admits(|b.inline|)
      && (envelope.requestBody > 0 ==> frame + Base64Len(|b.inline|) <= envelope.requestBody)
  }

  /**
  The one body.  Composed before the envelope was known, a body the backend could
  accept is byte for byte the body composed afterwards, and is not refused locally.
  */
  lemma AcceptableBodyIsStable(envelope: Limits, prompt: Bytes, frame: nat)
    requires envelope.Known()
    requires InlineWithin(envelope, frame, ComposeBody(PlanStart(Unknown, prompt, frame), prompt))
    ensures PlanStart(Unknown, prompt, frame) == PlanStart(envelope, prompt, frame)
    ensures !PlanStart(envelope, prompt, frame).refused
  {
    assert |prompt| > 0 ==> ComposeBody(PlanStart(Unknown, prompt, frame), prompt) == Body(Inline, prompt);
  }

  // ---- one streaming write on the wire ----

  const OPEN_OFFSET := "{\"offset\":"
  const OPEN_DATA := ",\"data_b64\":\""
  const SHUT_DATA := "\""
  const CLOSE_TRUE := ",\"close\":true"
  const SHUT := "}"
  const MAX_INT64: nat := 0x7FFF_FFFF_FFFF_FFFF

  function Digits(n: nat): (d: nat)
    ensures d >= 1
  {
    if n < 10 then 1 else 1 + Digits(n / 10)
  }

  /** Encoded length of a write of `n` decoded bytes: `close` is omitted when false. */
  function WriteLen(offset: nat, n: nat, close: bool): nat {
    |OPEN_OFFSET| + Digits(offset) + |OPEN_DATA| + Base64Len(n) + |SHUT_DATA|
    + (if close then |CLOSE_TRUE| else 0) + |SHUT|
  }

  /** The framing of an empty write at the widest offset, as the client measures it once. */
  const WRITE_OVERHEAD: nat :=
    |OPEN_OFFSET| + 19 + |OPEN_DATA| + |SHUT_DATA| + |CLOSE_TRUE| + |SHUT|

  lemma {:induction false} DigitsMonotone(m: nat, n: nat)
    requires m <= n
    ensures Digits(m) <= Digits(n)
  {
    if m >= 10 {
      DigitsMonotone(m / 10, n / 10);
    }
  }

  lemma DropDigit(n: nat)
    requires n >= 10
    ensures Digits(n) == 1 + Digits(n / 10)
  {
  }

  lemma WidestOffset()
    ensures Digits(MAX_INT64) == 19
  {
    hide Digits;
    var n := 9223372036854775807;
    LeadingDigits();
    DropDigit(n);
    DropDigit(n / 10);
    DropDigit(n / 100);
    DropDigit(n / 1000);
    DropDigit(n / 10000);
    DropDigit(n / 100000);
    DropDigit(n / 1000000);
    DropDigit(n / 10000000);
    DropDigit(n / 100000000);
    DropDigit(n / 1000000000);
  }

  lemma LeadingDigits()
    ensures Digits(922337203) == 9
  {
    assert Digits(92233) == 5;
  }

  lemma OverheadIsWidestFrame()
    ensures WriteLen(MAX_INT64, 0, true) == WRITE_OVERHEAD
  {
    WidestOffset();
    hide Digits;
  }

  lemma WriteLenBound(offset: nat, n: nat, close: bool)
    requires offset <= MAX_INT64
    ensures WriteLen(offset, n, close) <= WRITE_OVERHEAD + Base64Len(n)
  {
    OverheadIsWidestFrame();
    DigitsMonotone(offset, MAX_INT64);
  }

  lemma Base64Fits(n: nat, room: nat)
    ensures Base64Len(n) <= room <==> n <= room / 4 * 3
  {
  }

  /** `BodyFit` is exactly the largest write whose widest encoding the bound admits. */
  lemma BodyFitIsLargest(l: Limits, n: nat)
    requires l.requestBody >= WRITE_OVERHEAD + 4
    ensures WriteLen(MAX_INT64, n, true) <= l.requestBody <==> n <= l.BodyFit()
  {
    OverheadIsWidestFrame();
    Base64Fits(n, l.requestBody - WRITE_OVERHEAD);
  }

  /**
  Every write a plan can cut, at any offset, fits both bounds, precisely when the
  request-body bound leaves room for one base64 group; below that no non-empty
  write fits at the widest offset, whatever its size.
  */
  lemma PlannedWritesFit(l: Limits)
    requires l.Known()
    ensures 0 < l.StreamChunk() <= l.chunk
    ensures l.requestBody <= 0 || l.requestBody >= WRITE_OVERHEAD + 4 <==>
            forall offset: nat, n: nat, close: bool
              | offset <= MAX_INT64 && n <= l.StreamChunk() ::
              l.requestBody > 0 ==> WriteLen(offset, n, close) <= l.requestBody
    ensures 0 < l.requestBody < WRITE_OVERHEAD + 4 ==>
            forall n: nat | n > 0 :: WriteLen(MAX_INT64, n, true) > l.requestBody
  {
    OverheadIsWidestFrame();
    if l.requestBody >= WRITE_OVERHEAD + 4 {
      forall offset: nat, n: nat, close: bool | offset <= MAX_INT64 && n <= l.StreamChunk()
        ensures WriteLen(offset, n, close) <= l.requestBody
      {
        WriteLenBound(offset, n, close);
        Base64Fits(n, l.requestBody - WRITE_OVERHEAD);
      }
    } else if l.requestBody > 0 {
      assert WriteLen(MAX_INT64, 1, true) > l.requestBody;
    }
  }

  // ---- the plan, on the envelope's own numbers ----

  /** The smaller of the envelope's chunk, or 64 KiB without one, and what the request-body bound leaves. */
  function CutOf(l: Limits): int {
    var chunk := if l.chunk <= 0 then 65536 else l.chunk;
    var room := (l.requestBody - WRITE_OVERHEAD) / 4 * 3;
    var fit := if l.requestBody < WRITE_OVERHEAD + 4 then 3 else room;
    if l.requestBody > 0 && fit < chunk then fit else chunk
  }

  /** Which way a prompt travels, and when none is left. */
  lemma PlanMeans(l: Limits, prompt: Bytes, frame: nat)
    ensures
      var plan, n := PlanStart(l, prompt, frame), |prompt|;
      var fits := l.requestBody <= 0 || frame + (n + 2) / 3 * 4 <= l.requestBody;
      && (plan.refused <==> n > 0 && l.chunk > 0 && l.total > 0 && n > l.total)
      && (plan.mode == Closed <==> n == 0)
      && (plan.mode == Inline <==> n > 0 && fits && (l.chunk <= 0 || ((l.total <= 0 || n <= l.total) && n <= l.inlineMax)))
      && (plan.mode == Streaming && !plan.refused ==> plan.chunk == CutOf(l) > 0)
      && ComposeBody(plan, prompt) == Body(plan.mode, if plan.mode == Inline then prompt else [])
  {
  }

  /** Every write a streaming plan will cut, at every offset, fits the bounds it was planned for. */
  lemma StreamedPlanFits(l: Limits, prompt: Bytes, frame: nat, offset: nat, n: nat, close: bool)
    requires l.Known() && (l.requestBody <= 0 || l.requestBody >= WRITE_OVERHEAD + 4)
    requires PlanStart(l, prompt, frame).mode == Streaming && !PlanStart(l, prompt, frame).refused
    requires offset <= MAX_INT64 && n <= PlanStart(l, prompt, frame).chunk
    ensures n <= l.chunk && (l.requestBody > 0 ==> WriteLen(offset, n, close) <= l.requestBody)
  {
    PlannedWritesFit(l);
  }
}
