/**
 Secure sends that come through, and why the others do not: the sending half of `SecureProgress`.
 */
module SendProgress {
  import opened ByteStrings
  import opened Wrappers
  import opened Transport
  import opened TransportSafety
  import opened Protocol
  import opened Framing
  import opened SecureRecords
  import opened Sender
  import W = WireGrowth
  import D = DropHazard
  import P = SecureProgress

  // ------------------------------------------------------------------ a send, piece by piece

  function Pieces(op: OpId, counts: seq<nat>): seq<SendEvent> {
    if counts == [] then []
    else Pieces(op, counts[..|counts| - 1]) + [Core(By(op, IoWrite(counts[|counts| - 1])))]
  }

  /** `t` is `s` with the first `count` bytes of this message's frame on the wire. */
  predicate PartOut(s: Session, t: Session, id: SendId, plain: Bytes, ciphertext: Bytes, op: OpId, count: nat) {
    var data := EncodeFrame(Body(s.sequence, ciphertext));
    && count < |data|
    && t.lock == Some(id) && t.sends == s.sends[id := Writing(plain, ciphertext, op)] && t.sequence == s.sequence
    && t.core.flags == s.core.flags && t.core.wire == s.core.wire + data[..count]
    && op in t.core.ops && t.core.ops[op].call == Send(data) && t.core.ops[op].pc == AwaitIo
    && t.core.ops[op].written == count
    && t.frames == s.frames && t.residue == data[..count] && t.status == Live
  }

  /** `t` is `s` with the whole frame on the wire; the core call has returned. */
  predicate AllOut(s: Session, t: Session, id: SendId, plain: Bytes, ciphertext: Bytes, op: OpId) {
    var data := EncodeFrame(Body(s.sequence, ciphertext));
    && t.lock == Some(id) && t.sends == s.sends[id := Writing(plain, ciphertext, op)] && t.sequence == s.sequence
    && t.core.flags == s.core.flags && t.core.wire == s.core.wire + data
    && op in t.core.ops && t.core.ops[op].pc == Finished(Success)
    && t.frames == s.frames + [Sealed(plain, ciphertext)] && t.residue == [] && t.status == Live
  }

  lemma PieceGoesOut(s: Session, t: Session, id: SendId, plain: Bytes, ciphertext: Bytes, op: OpId, from: nat, count: nat)
    requires PartOut(s, t, id, plain, ciphertext, op, from) && count > 0
    requires from + count <= |EncodeFrame(Body(s.sequence, ciphertext))|
    ensures var u := SendStep(t, Core(By(op, IoWrite(count))));
      if from + count < |EncodeFrame(Body(s.sequence, ciphertext))|
      then PartOut(s, u, id, plain, ciphertext, op, from + count)
      else AllOut(s, u, id, plain, ciphertext, op)
  {
    hide EncodeFrame, Body;
    var data := EncodeFrame(Body(s.sequence, ciphertext));
    assert data[..from] + data[from..from + count] == data[..from + count];
    Associative(s.core.wire, data[..from], data[from..from + count]);
    if from + count == |data| {
      assert data[..from + count] == data;
    } else {
      assert data[..from + count] != data;
    }
  }

  lemma {:induction false} PiecesGoOut(s: Session, t: Session, id: SendId, plain: Bytes, ciphertext: Bytes, op: OpId,
                                       counts: seq<nat>)
    requires PartOut(s, t, id, plain, ciphertext, op, 0) && P.Positive(counts)
    requires P.Sum(counts) <= |EncodeFrame(Body(s.sequence, ciphertext))|
    ensures var u := SendRun(t, Pieces(op, counts));
      if P.Sum(counts) < |EncodeFrame(Body(s.sequence, ciphertext))|
      then PartOut(s, u, id, plain, ciphertext, op, P.Sum(counts))
      else AllOut(s, u, id, plain, ciphertext, op)
  {
    hide SendStep, EncodeFrame, Body, PartOut, AllOut;
    FrameNotEmpty(Body(s.sequence, ciphertext));
    if counts != [] {
      var n := |counts| - 1;
      PiecesGoOut(s, t, id, plain, ciphertext, op, counts[..n]);
      var u := SendRun(t, Pieces(op, counts[..n]));
      PieceGoesOut(s, u, id, plain, ciphertext, op, P.Sum(counts[..n]), counts[n]);
      D.RunSnoc(t, Pieces(op, counts[..n]), Core(By(op, IoWrite(counts[n]))));
    }
  }

  /** The whole of a secure send that the operating system takes in pieces of these sizes. */
  function WholeSend(id: SendId, plain: Bytes, ciphertext: Bytes, op: OpId, counts: seq<nat>): seq<SendEvent> {
    D.Submit(id, plain, ciphertext, op) + D.Lift(W.ToIo(op)) + Pieces(op, counts) + [FinishSend(id)]
  }

  /** `t` is `s` after one more successful send. */
  predicate OneMoreSent(s: Session, t: Session, id: SendId, plain: Bytes, ciphertext: Bytes) {
    && id in t.sends && t.sends[id] == Returned(Sent) && t.lock.None?
    && t.sequence == s.sequence + 1 && t.frames == s.frames + [Sealed(plain, ciphertext)]
    && t.core.wire == s.core.wire + EncodeFrame(Body(s.sequence, ciphertext))
    && t.residue == [] && t.status == Live && t.core.flags == s.core.flags
  }

  lemma SubmittedIsPart(s: Session, t: Session, id: SendId, plain: Bytes, ciphertext: Bytes, op: OpId)
    requires D.Submitted(s, t, id, plain, ciphertext, op) && W.Clear(t.core, op, AwaitIo)
    requires s.status == Live && s.residue == []
    ensures PartOut(s, t, id, plain, ciphertext, op, 0)
  {
    var data := EncodeFrame(Body(s.sequence, ciphertext));
    assert data[..0] == [] && s.core.wire + [] == s.core.wire;
  }

  lemma Finishes(s: Session, t: Session, id: SendId, plain: Bytes, ciphertext: Bytes, op: OpId)
    requires AllOut(s, t, id, plain, ciphertext, op)
    ensures OneMoreSent(s, SendStep(t, FinishSend(id)), id, plain, ciphertext)
  {
    hide EncodeFrame, Body;
  }

  /**
   A message goes out. On an open connection with a free gate, a secure send by a live session puts exactly its
   frame on the wire, in whatever pieces the operating system takes it, reports success, and moves the counter
   on by one.
   */
  lemma MessageGoesOut(s: Session, id: SendId, plain: Bytes, ciphertext: Bytes, op: OpId, counts: seq<nat>)
    requires D.Idle(s, id, plain, ciphertext, op) && s.status == Live && s.residue == []
    requires P.Positive(counts) && P.Sum(counts) == |EncodeFrame(Body(s.sequence, ciphertext))|
    ensures OneMoreSent(s, SendRun(s, WholeSend(id, plain, ciphertext, op, counts)), id, plain, ciphertext)
  {
    hide SendStep, EncodeFrame, Body, PartOut, AllOut, OneMoreSent, D.Submit, D.Lift, SendRun, D.Submitted, D.Idle;
    D.ReachesWrite(s, id, plain, ciphertext, op);
    var head := D.Submit(id, plain, ciphertext, op) + D.Lift(W.ToIo(op));
    SubmittedIsPart(s, SendRun(s, head), id, plain, ciphertext, op);
    PiecesGoOut(s, SendRun(s, head), id, plain, ciphertext, op, counts);
    D.SendRunAppend(s, head, Pieces(op, counts));
    Finishes(s, SendRun(s, head + Pieces(op, counts)), id, plain, ciphertext, op);
    D.RunSnoc(s, head + Pieces(op, counts), FinishSend(id));
  }

  // ------------------------------------------------------------------ why a send returns

  predicate CoreReturned(s: Session, id: SendId, outcome: Outcome) {
    && id in s.sends && s.sends[id].Writing? && s.sends[id].op in s.core.ops
    && s.core.ops[s.sends[id].op].pc == Finished(outcome)
  }

  /** Why send `id` returns this result in a step from `s`. */
  ghost predicate SendCause(s: Session, e: SendEvent, id: SendId, result: SendResult)
    requires id in s.sends && !s.sends[id].Returned?
  {
    match result
    case Sent => e == FinishSend(id) && CoreReturned(s, id, Success)
    case Exhausted => e.TakeLock? && s.sequence == 0xFFFF_FFFF_FFFF_FFFF
    case BadSize => e.TakeLock? && s.sequence != 0xFFFF_FFFF_FFFF_FFFF && |s.sends[id].plain| > 64 * 1024 * 1024 - 25
    case TransportError => e == FinishSend(id) && exists outcome :: outcome != Success && CoreReturned(s, id, outcome)
    case Abandoned => e == DropSend(id)
  }

  lemma StepCause(s: Session, e: SendEvent, id: SendId)
    requires s.sequence < U64_LIMIT && id in s.sends && !s.sends[id].Returned?
    requires id in SendStep(s, e).sends && SendStep(s, e).sends[id].Returned?
    ensures SendCause(s, e, id, SendStep(s, e).sends[id].result)
  {
    hide EncodeFrame;
    if e.TakeLock? {
      PlaintextBound(s.sends[e.id].plain, s.sequence, e.ciphertext);
    } else if e.FinishSend? {
      assert CoreReturned(s, id, s.core.ops[s.sends[id].op].pc.outcome);
    }
  }

  /** No secure send returns without a cause, in any run: success and failure are those of the one core call,
      and the two refusals before it belong to the last number and to messages over the bound. */
  lemma SendHasCause(start: Session, es: seq<SendEvent>, e: SendEvent, id: SendId)
    requires Fresh(start)
    requires var s, t := SendRun(start, es), SendStep(SendRun(start, es), e);
      id in s.sends && !s.sends[id].Returned? && id in t.sends && t.sends[id].Returned?
    ensures SendCause(SendRun(start, es), e, id, SendStep(SendRun(start, es), e).sends[id].result)
  {
    hide SendStep, SendCause;
    CounterCountsSends(start, es);
    StepCause(SendRun(start, es), e, id);
  }

  /** A secure send can be dropped while it waits for the lock, and while its core call waits for a gate or for the
      operating system; the lock is free then, the counter stays, and the wire keeps what has been written. */
  lemma SendCanBeDropped(s: Session, id: SendId)
    requires id in s.sends
    requires s.sends[id].AwaitLock?
             || (s.lock == Some(id) && s.sends[id].Writing?
                 && (At(s.core, s.sends[id].op, AwaitGate) || At(s.core, s.sends[id].op, AwaitIo)))
    ensures var t := SendStep(s, DropSend(id));
      && id in t.sends && t.sends[id] == Returned(Abandoned) && t.sequence == s.sequence
      && t.core.wire == s.core.wire && t.frames == s.frames
      && (s.sends[id].Writing? ==> t.lock.None?) && (s.sends[id].AwaitLock? ==> t.lock == s.lock)
  {
  }
}
