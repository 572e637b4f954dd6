/**
Delivery of a streaming prompt: the writer's reaction to each of the backend's
answers, and the loop that runs it.
*/
module StdinDelivery {
  import opened Outcomes
  import opened StdinPlanning

  const MIN_CHUNK: int := 512

  /** The backend's answers to one write, after the client's own retries. */
  datatype WriteAnswer =
    | Accepted(next: int, closed: bool)
    | NotReady
    | OffsetMismatch(expected: Option<int>)
    | TooLarge(limit: int)
    | NotAccepting
    | OutcomeUnknown
    | Failed

  datatype Reaction =
    | Continue(offset: nat, chunk: int)
    | Wait
    | Done
    | Stop

  /** One turn of the delivery loop, for a write at `offset` of a `total`-byte prompt. */
  function React(total: nat, offset: nat, chunk: int, answer: WriteAnswer): Reaction {
    match answer
    case Accepted(next, closed) =>
      if closed then Done
      else if next <= offset || next > total then Stop
      else Continue(next, chunk)
    case NotReady => Wait
    case OffsetMismatch(expected) =>
      if expected.Some? && offset < expected.value <= total then Continue(expected.value, chunk) else Stop
    case TooLarge(limit) =>
      var next := if 0 < limit < chunk then limit else chunk / 2;
      if next < MIN_CHUNK then Stop else Continue(offset, next)
    case NotAccepting => Done
    case OutcomeUnknown => Done
    case Failed => Stop
  }

  function FirstChunk(chunk: int): (c: int)
    ensures c > 0
  {
    if chunk <= 0 then DEFAULT_CHUNK else chunk
  }

  function EndOf(total: nat, offset: nat, chunk: int): int {
    if offset + chunk < total then offset + chunk else total
  }

  /** What the writer puts on the wire: the slice of the prompt at `offset`, closing with the last. */
  datatype Write = Write(offset: nat, data: Bytes, close: bool)

  /** Bytes of the prompt at their own offset, empty only to close. */
  predicate IsSlice(prompt: Bytes, w: Write) {
    && w.offset + |w.data| <= |prompt|
    && w.data == prompt[w.offset..w.offset + |w.data|]
    && w.close == (w.offset + |w.data| == |prompt|)
    && (w.data == [] ==> w.close)
  }

  function WriteAt(prompt: Bytes, offset: nat, chunk: int): (w: Write)
    requires offset <= |prompt| && chunk > 0
    ensures IsSlice(prompt, w) && w.offset == offset && |w.data| <= chunk
  {
    var end := EndOf(|prompt|, offset, chunk);
    Write(offset, prompt[offset..end], end == |prompt|)
  }

  /** A continuing turn keeps the writer inside the prompt and strictly shrinks its measure. */
  lemma ReactShrinks(total: nat, offset: nat, chunk: int, answer: WriteAnswer)
    requires offset <= total && chunk > 0
    ensures React(total, offset, chunk, answer).Continue? ==>
              var r := React(total, offset, chunk, answer);
              && offset <= r.offset <= total && 0 < r.chunk <= chunk
              && (total - r.offset) + r.chunk < (total - offset) + chunk
  {
  }

  predicate Receipted(answer: WriteAnswer) {
    answer.Accepted? && answer.closed
  }

  /** The answers that end delivery without an error. */
  predicate Final(answer: WriteAnswer) {
    Receipted(answer) || answer.NotAccepting? || answer.OutcomeUnknown?
  }

  /** Where the next write starts: where the backend says, and otherwise where this one did. */
  function Resume(offset: int, answer: WriteAnswer): int {
    match answer
    case Accepted(next, _) => next
    case OffsetMismatch(Some(expected)) => expected
    case _ => offset
  }

  /** The k-th write exists because the answer before it asked for it, and never moves back. */
  predicate Follows(writes: seq<Write>, answers: nat -> WriteAnswer, k: nat)
    requires 0 < k < |writes|
  {
    && writes[k - 1].offset <= writes[k].offset == Resume(writes[k - 1].offset, answers(k - 1))
    && !Final(answers(k - 1))
  }

  datatype Delivery = Completed | GaveUp | Aborted

  // What the answers so far say, without the writer.

  /** The chunk the k-th write is cut by: the plan's, then whatever the refusals of size left of it. */
  function ChunkAt(chunk0: int, answers: nat -> WriteAnswer, k: nat): int {
    if k == 0 then (if chunk0 <= 0 then 65536 else chunk0)
    else
      var chunk := ChunkAt(chunk0, answers, k - 1);
      match answers(k - 1)
      case TooLarge(limit) => if 0 < limit < chunk then limit else chunk / 2
      case _ => chunk
  }

  /** The time the first `n` round trips took. */
  function Elapsed(lag: nat -> nat, n: nat): nat {
    if n == 0 then 0 else Elapsed(lag, n - 1) + lag(n - 1)
  }

  /** The time slept over the first `n` answers: one poll for each that was not ready. */
  function Slept(answers: nat -> WriteAnswer, poll: nat, n: nat): nat {
    if n == 0 then 0 else Slept(answers, poll, n - 1) + (if answers(n - 1).NotReady? then poll else 0)
  }

  /** The answer to the k-th write, at `offset`, ends delivery in an error. */
  predicate Aborts(total: nat, offset: int, chunk0: int, settle: nat, poll: nat, answers: nat -> WriteAnswer, lag: nat -> nat, k: nat) {
    match answers(k)
    case Failed => true
    case NotReady => Elapsed(lag, k + 1) + Slept(answers, poll, k) > settle
    case Accepted(next, closed) => !closed && !(offset < next <= total)
    case OffsetMismatch(None) => true
    case OffsetMismatch(Some(expected)) => !(offset < expected <= total)
    case TooLarge(_) => ChunkAt(chunk0, answers, k + 1) < 512
    case NotAccepting => false
    case OutcomeUnknown => false
  }

  /** The k-th write is the prompt's bytes at its offset: as many as the chunk allows, or all that are left. */
  predicate CutAt(prompt: Bytes, w: Write, chunk: int) {
    IsSlice(prompt, w) && |w.data| == if chunk < |prompt| - w.offset then chunk else |prompt| - w.offset
  }

  /** The writes so far, none of them the last, with the next one due at `offset`. */
  predicate Wrote(prompt: Bytes, chunk0: int, settle: nat, poll: nat, answers: nat -> WriteAnswer, lag: nat -> nat, writes: seq<Write>, offset: int) {
    && (forall k | 0 <= k < |writes| ::
          && CutAt(prompt, writes[k], ChunkAt(chunk0, answers, k))
          && !Aborts(|prompt|, writes[k].offset, chunk0, settle, poll, answers, lag, k) && !Final(answers(k)))
    && (forall k | 0 < k < |writes| :: Follows(writes, answers, k))
    && (if writes == [] then offset == 0
        else writes[0].offset == 0 && writes[|writes| - 1].offset <= offset == Resume(writes[|writes| - 1].offset, answers(|writes| - 1)))
  }

  /** The reaction, told by the same answers. */
  lemma ReactIs(total: nat, offset: nat, chunk0: int, settle: nat, poll: nat, answers: nat -> WriteAnswer, lag: nat -> nat, k: nat)
    requires offset <= total && ChunkAt(chunk0, answers, k) > 0
    ensures
      var r := React(total, offset, ChunkAt(chunk0, answers, k), answers(k));
      && (r.Done? <==> Final(answers(k)))
      && (r.Wait? <==> answers(k).NotReady?)
      && (!answers(k).NotReady? ==> (r.Stop? <==> Aborts(total, offset, chunk0, settle, poll, answers, lag, k)))
      && (r.Continue? ==> r.offset == Resume(offset, answers(k)) && r.chunk == ChunkAt(chunk0, answers, k + 1))
      && (r.Wait? ==> ChunkAt(chunk0, answers, k + 1) == ChunkAt(chunk0, answers, k))
  {
  }

  /**
  The loop.  `answers(k)` is the backend's answer to the k-th write and `lag(k)`
  the time that round trip took: both are arbitrary, so the contract holds for
  every backend.  Sleeping between polls takes `poll` on the caller's clock.

  Every write is cut from the prompt by the chunk the answers so far left, and
  starts where the answer before it said; delivery ends at the first answer that
  is final or an error, and not before; and the number of writes is bounded by the
  prompt, the chunk and the settle window.
  */
  method DeliverStdin(prompt: Bytes, chunk0: int, settle: nat, poll: nat,
                      answers: nat -> WriteAnswer, lag: nat -> nat)
    returns (outcome: Delivery, writes: seq<Write>, waits: nat)
    requires poll > 0
    ensures writes != [] && writes[0].offset == 0
    ensures forall k | 0 <= k < |writes| :: CutAt(prompt, writes[k], ChunkAt(chunk0, answers, k))
    ensures forall k | 0 < k < |writes| :: Follows(writes, answers, k)
    ensures forall k | 0 <= k < |writes| - 1 ::
      !Aborts(|prompt|, writes[k].offset, chunk0, settle, poll, answers, lag, k)
    ensures outcome == Completed <==> Receipted(answers(|writes| - 1))
    ensures outcome == GaveUp <==> Final(answers(|writes| - 1)) && !Receipted(answers(|writes| - 1))
    ensures outcome == Aborted <==>
      Aborts(|prompt|, writes[|writes| - 1].offset, chunk0, settle, poll, answers, lag, |writes| - 1)
    ensures |writes| <= |prompt| + FirstChunk(chunk0) + waits + 1
    ensures waits * poll == Slept(answers, poll, |writes| - 1) <= settle + poll
  {
    hide Aborts, IsSlice, CutAt, ChunkAt, Elapsed, Slept, Wrote, Follows, React, WriteAt, Final, Receipted, FirstChunk;
    Start(prompt, chunk0, settle, poll, answers, lag);
    var chunk := FirstChunk(chunk0);
    var total := |prompt|;
    var now := 0;
    var offset := 0;
    ghost var waited := 0;
    waits := 0;
    writes := [];
    while true
      invariant 0 <= offset <= total && chunk > 0 && chunk == ChunkAt(chunk0, answers, |writes|)
      invariant waits * poll == waited == Slept(answers, poll, |writes|) <= settle + poll
      invariant now == Elapsed(lag, |writes|) + waited
      invariant (total - offset) + chunk + |writes| <= total + FirstChunk(chunk0) + waits
      invariant Wrote(prompt, chunk0, settle, poll, answers, lag, writes, offset)
      decreases (total - offset) + chunk, settle + poll - waited
    {
      ghost var n, at := |writes|, offset;
      var answer := answers(|writes|);
      now := now + lag(|writes|);
      var w := WriteAt(prompt, offset, chunk);
      Turn(total, offset, chunk0, settle, poll, answers, lag, n);
      WroteNext(prompt, chunk0, settle, poll, answers, lag, writes, offset);
      writes := writes + [w];
      match React(total, offset, chunk, answer) {
        case Continue(next, cut) =>
          offset, chunk := next, cut;
        case Wait =>
          if now > settle {
            return Aborted, writes, waits;
          }
          Another(waits, poll);
          now, waited, waits := now + poll, waited + poll, waits + 1;
        case Done =>
          return if answer.Accepted? then Completed else GaveUp, writes, waits;
        case Stop =>
          return Aborted, writes, waits;
      }
    }
  }

  lemma Another(n: nat, poll: nat)
    ensures (n + 1) * poll == n * poll + poll
  {
  }

  lemma Start(prompt: Bytes, chunk0: int, settle: nat, poll: nat, answers: nat -> WriteAnswer, lag: nat -> nat)
    ensures Wrote(prompt, chunk0, settle, poll, answers, lag, [], 0)
    ensures FirstChunk(chunk0) == ChunkAt(chunk0, answers, 0) && Elapsed(lag, 0) == 0 == Slept(answers, poll, 0)
  {
  }

  /** Everything one turn comes to. */
  lemma Turn(total: nat, offset: nat, chunk0: int, settle: nat, poll: nat, answers: nat -> WriteAnswer, lag: nat -> nat, k: nat)
    requires offset <= total && ChunkAt(chunk0, answers, k) > 0
    ensures
      var chunk := ChunkAt(chunk0, answers, k);
      var r := React(total, offset, chunk, answers(k));
      var aborts := Aborts(total, offset, chunk0, settle, poll, answers, lag, k);
      && (r.Done? <==> Final(answers(k))) && (r.Done? && answers(k).Accepted? <==> Receipted(answers(k)))
      && (r.Wait? <==> answers(k).NotReady?)
      && (r.Wait? ==> (aborts <==> Elapsed(lag, k + 1) + Slept(answers, poll, k) > settle))
      && (r.Stop? ==> aborts) && (r.Continue? || r.Done? ==> !aborts)
      && (r.Continue? ==> r.offset == Resume(offset, answers(k)) && r.chunk == ChunkAt(chunk0, answers, k + 1))
      && (r.Continue? ==> offset <= r.offset <= total && 0 < r.chunk && (total - r.offset) + r.chunk < (total - offset) + chunk)
      && (r.Wait? ==> ChunkAt(chunk0, answers, k + 1) == chunk && Resume(offset, answers(k)) == offset)
      && Elapsed(lag, k + 1) == Elapsed(lag, k) + lag(k)
      && Slept(answers, poll, k + 1) == Slept(answers, poll, k) + (if r.Wait? then poll else 0)
  {
    ReactShrinks(total, offset, ChunkAt(chunk0, answers, k), answers(k));
    ReactIs(total, offset, chunk0, settle, poll, answers, lag, k);
    WaitIs(total, offset, chunk0, settle, poll, answers, lag, k);
    hide React, Aborts, ChunkAt;
  }

  /** The write at `offset` joins the ones before it; what the answer to it says comes after. */
  lemma WroteNext(prompt: Bytes, chunk0: int, settle: nat, poll: nat, answers: nat -> WriteAnswer, lag: nat -> nat, writes: seq<Write>, offset: nat)
    requires offset <= |prompt| && ChunkAt(chunk0, answers, |writes|) > 0
    requires Wrote(prompt, chunk0, settle, poll, answers, lag, writes, offset)
    ensures
      var more := writes + [WriteAt(prompt, offset, ChunkAt(chunk0, answers, |writes|))];
      && more[0].offset == 0 && more[|writes|].offset == offset
      && (forall k | 0 <= k < |more| :: CutAt(prompt, more[k], ChunkAt(chunk0, answers, k)))
      && (forall k | 0 < k < |more| :: Follows(more, answers, k))
      && (forall k | 0 <= k < |writes| :: !Aborts(|prompt|, more[k].offset, chunk0, settle, poll, answers, lag, k))
      && var next := Resume(offset, answers(|writes|));
      (!Final(answers(|writes|)) && !Aborts(|prompt|, offset, chunk0, settle, poll, answers, lag, |writes|) && offset <= next ==>
        Wrote(prompt, chunk0, settle, poll, answers, lag, more, next))
  {
    hide WriteAt, Aborts, CutAt, ChunkAt, Final, IsSlice, EndOf, Resume;
    var chunk := ChunkAt(chunk0, answers, |writes|);
    WriteIsCut(prompt, offset, chunk);
    var more := writes + [WriteAt(prompt, offset, chunk)];
    forall k | 0 <= k < |more|
      ensures CutAt(prompt, more[k], ChunkAt(chunk0, answers, k))
    {
      assert k < |writes| ==> more[k] == writes[k];
    }
    forall k | 0 < k < |more|
      ensures Follows(more, answers, k)
    {
      assert k < |writes| ==> Follows(writes, answers, k);
    }
  }

  lemma WriteIsCut(prompt: Bytes, offset: nat, chunk: int)
    requires offset <= |prompt| && chunk > 0
    ensures CutAt(prompt, WriteAt(prompt, offset, chunk), chunk) && WriteAt(prompt, offset, chunk).offset == offset
  {
  }

  lemma WaitIs(total: nat, offset: nat, chunk0: int, settle: nat, poll: nat, answers: nat -> WriteAnswer, lag: nat -> nat, k: nat)
    ensures answers(k).NotReady? ==>
      (Aborts(total, offset, chunk0, settle, poll, answers, lag, k) <==> Elapsed(lag, k + 1) + Slept(answers, poll, k) > settle)
    ensures Final(answers(k)) ==> !Aborts(total, offset, chunk0, settle, poll, answers, lag, k)
  {
  }
}
