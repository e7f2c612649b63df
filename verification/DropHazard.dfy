/**
 Why the Rust core alone needs the hypothesis about dropped sends. A send that is dropped inside its frame
 leaves a torn frame on an open connection, and the next send encrypts another message under the same
 sequence number and puts it behind. `DropReusesSequence` is such a run, and its wire has no reading as
 numbered frames; `CutReusedExactly` says for every run and every torn frame when this can happen.
 */
module DropHazard {
  import opened ByteStrings
  import opened Wrappers
  import opened Transport
  import opened TransportSafety
  import opened WireGrowth
  import opened Protocol
  import opened Framing
  import opened SecureRecords
  import opened Sender

  // ------------------------------------------------------------------ runs of a session

  lemma RunSnoc(s: Session, es: seq<SendEvent>, e: SendEvent)
    ensures SendRun(s, es + [e]) == SendStep(SendRun(s, es), e)
  {
    assert (es + [e])[..|es|] == es;
  }

  lemma RunOne(s: Session, e: SendEvent)
    ensures SendRun(s, [e]) == SendStep(s, e)
  {
    assert [e][..0] == [];
  }

  lemma {:induction false} SendRunAppend(s: Session, es: seq<SendEvent>, more: seq<SendEvent>)
    ensures SendRun(s, es + more) == SendRun(SendRun(s, es), more)
  {
    hide SendStep;
    if more == [] {
      assert es + more == es;
    } else {
      assert (es + more)[..|es + more| - 1] == es + more[..|more| - 1];
      SendRunAppend(s, es, more[..|more| - 1]);
    }
  }

  function Lift(es: seq<Event>): seq<SendEvent> {
    if es == [] then [] else Lift(es[..|es| - 1]) + [Core(es[|es| - 1])]
  }

  lemma QuietStep(s: Session, e: Event)
    requires Quietly(e)
    ensures SendStep(s, Core(e)) == Quiet(s, Step(s.core, e))
  {
  }

  /** Quiet events move nothing of a session but its core. */
  lemma {:induction false} QuietRun(s: Session, es: seq<Event>)
    requires AllQuiet(es)
    ensures SendRun(s, Lift(es)) == Quiet(s, RunFrom(s.core, es))
  {
    hide SendStep, Step;
    if es != [] {
      var init, e := es[..|es| - 1], es[|es| - 1];
      QuietRun(s, init);
      RunSnoc(s, Lift(init), Core(e));
      QuietStep(SendRun(s, Lift(init)), e);
    }
  }

  // ------------------------------------------------------------------ the front of one frame

  /** Nobody is sending, and a send of this message would find everything open. */
  predicate Idle(s: Session, id: SendId, plain: Bytes, ciphertext: Bytes, op: OpId) {
    && s.lock.None? && OpenFlags(s.core.flags) && s.core.writeGate.None? && id !in s.sends && op !in s.core.ops
    && s.sequence + 1 < U64_LIMIT && |ciphertext| == |plain| + TAG_SIZE && Framable(Body(s.sequence, ciphertext))
  }

  function Submit(id: SendId, plain: Bytes, ciphertext: Bytes, op: OpId): seq<SendEvent> {
    [StartSend(id, plain)] + [TakeLock(id, ciphertext, op)]
  }

  /** A send up to and including its first write, of `count` bytes. */
  function WriteFront(id: SendId, plain: Bytes, ciphertext: Bytes, op: OpId, count: nat): seq<SendEvent> {
    Submit(id, plain, ciphertext, op) + Lift(ToIo(op)) + [Core(By(op, IoWrite(count)))]
  }

  /** `t` is `s` with the send holding the lock and its frame submitted. */
  predicate Submitted(s: Session, t: Session, id: SendId, plain: Bytes, ciphertext: Bytes, op: OpId) {
    && t.lock == Some(id) && t.sends == s.sends[id := Writing(plain, ciphertext, op)]
    && t.sequence == s.sequence && t.frames == s.frames && t.residue == s.residue && t.status == s.status
    && t.core.flags == s.core.flags && t.core.wire == s.core.wire && t.core.ops.Keys == s.core.ops.Keys + {op}
    && t.core.ops[op].call == Send(EncodeFrame(Body(s.sequence, ciphertext)))
  }

  lemma SubmitSteps(s: Session, id: SendId, plain: Bytes, ciphertext: Bytes, op: OpId)
    requires Idle(s, id, plain, ciphertext, op)
    ensures var t := SendStep(SendStep(s, StartSend(id, plain)), TakeLock(id, ciphertext, op));
      Submitted(s, t, id, plain, ciphertext, op) && Clear(t.core, op, LoadClosed(First)) && t.core.writeGate.None?
  {
    hide EncodeFrame, Body, Framable;
    var a := SendStep(s, StartSend(id, plain));
    assert a.sends[id] == AwaitLock(plain) && SendEnabled(a, TakeLock(id, ciphertext, op));
  }

  lemma ReachesWrite(s: Session, id: SendId, plain: Bytes, ciphertext: Bytes, op: OpId)
    requires Idle(s, id, plain, ciphertext, op)
    ensures var t := SendRun(s, Submit(id, plain, ciphertext, op) + Lift(ToIo(op)));
      Submitted(s, t, id, plain, ciphertext, op) && Clear(t.core, op, AwaitIo)
  {
    hide SendStep, EncodeFrame, Body, ToIo, Framable;
    SubmitSteps(s, id, plain, ciphertext, op);
    RunOne(s, StartSend(id, plain));
    RunSnoc(s, [StartSend(id, plain)], TakeLock(id, ciphertext, op));
    var submitted := SendRun(s, Submit(id, plain, ciphertext, op));
    ReachesIo(submitted.core, op);
    ToIoIsQuiet(op);
    QuietRun(submitted, ToIo(op));
    SendRunAppend(s, Submit(id, plain, ciphertext, op), Lift(ToIo(op)));
  }

  /** `t` is `s` after the first write of a send. */
  predicate FrontWritten(s: Session, t: Session, id: SendId, plain: Bytes, ciphertext: Bytes, op: OpId, count: nat) {
    var data := EncodeFrame(Body(s.sequence, ciphertext));
    && count <= |data|
    && t.lock == Some(id) && t.sends == s.sends[id := Writing(plain, ciphertext, op)] && t.sequence == s.sequence
    && t.core.flags == s.core.flags && t.core.wire == s.core.wire + data[..count]
    && t.core.ops.Keys == s.core.ops.Keys + {op}
    && t.core.ops[op].pc == (if count == |data| then Finished(Success) else AwaitIo)
    && (s.status != Live ==> t.status == Garbled)
    && (s.status == Live && s.residue == [] && count < |data| ==>
          t.status == Live && t.frames == s.frames && t.residue == data[..count])
  }

  lemma WritesFront(s: Session, t: Session, id: SendId, plain: Bytes, ciphertext: Bytes, op: OpId, count: nat)
    requires Submitted(s, t, id, plain, ciphertext, op) && Clear(t.core, op, AwaitIo)
    requires 0 < count <= |EncodeFrame(Body(s.sequence, ciphertext))|
    ensures FrontWritten(s, SendStep(t, Core(By(op, IoWrite(count)))), id, plain, ciphertext, op, count)
  {
    hide EncodeFrame, Body;
    var data := EncodeFrame(Body(s.sequence, ciphertext));
    assert data[0..count] == data[..count];
    if s.residue == [] {
      assert s.residue + data[..count] == data[..count];
      assert count < |data| ==> data[..count] != data;
    }
  }

  lemma FrontGoesOut(s: Session, id: SendId, plain: Bytes, ciphertext: Bytes, op: OpId, count: nat)
    requires Idle(s, id, plain, ciphertext, op) && 0 < count <= |EncodeFrame(Body(s.sequence, ciphertext))|
    ensures FrontWritten(s, SendRun(s, WriteFront(id, plain, ciphertext, op, count)), id, plain, ciphertext, op, count)
  {
    hide SendStep, EncodeFrame, Body, Submit, Lift, Idle, FrontWritten, Submitted, Clear;
    var head := Submit(id, plain, ciphertext, op) + Lift(ToIo(op));
    ReachesWrite(s, id, plain, ciphertext, op);
    WritesFront(s, SendRun(s, head), id, plain, ciphertext, op, count);
    RunSnoc(s, head, Core(By(op, IoWrite(count))));
  }

  // ------------------------------------------------------------------ a run that goes wrong

  const FIRST_CIPHERTEXT: Bytes := [0, 0, 0, 0, 0, 0, 0, 0, 0, 0, 0, 0, 0, 0, 0, 0]
  const SECOND_CIPHERTEXT: Bytes := [1, 0, 0, 0, 0, 0, 0, 0, 0, 0, 0, 0, 0, 0, 0, 0, 0]

  const FIRST_FRAME: Bytes := EncodeFrame(Body(0, FIRST_CIPHERTEXT))
  const SECOND_FRAME: Bytes := EncodeFrame(Body(0, SECOND_CIPHERTEXT))

  const BLANK := Session(Init, None, 0, map[], [], [], [], Live)

  lemma FrameBytes()
    ensures |FIRST_FRAME| == 29 && FIRST_FRAME[..4] == [0, 0, 0, 25]
    ensures |SECOND_FRAME| == 30 && SECOND_FRAME[..4] == [0, 0, 0, 26]
    ensures FIRST_FRAME != SECOND_FRAME
  {
    assert ToBigEndian(25, 4) == [0, 0, 0, 25];
    assert ToBigEndian(26, 4) == [0, 0, 0, 26];
  }

  lemma BlankIsFresh()
    ensures Fresh(BLANK) && Idle(BLANK, 0, [], FIRST_CIPHERTEXT, 0)
  {
    RunInv([]);
  }

  lemma WriterHasGate(s: Session, op: OpId)
    requires SendInv(s) && op in s.core.ops && s.core.ops[op].pc == AwaitIo
    requires s.lock.Some? && s.lock.value in s.sends && Sender.Holder(s).Writing? && Sender.Holder(s).op == op
    ensures s.core.writeGate == Some(op)
  {
    assert OpInv(s.core, op);
  }

  /** Dropping a send inside its frame leaves an idle session behind a torn frame on an open connection. */
  lemma DropLeavesIdle(s: Session, id: SendId, op: OpId)
    requires s.lock == Some(id) && id in s.sends && s.sends[id].Writing? && s.sends[id].op == op
    requires op in s.core.ops && s.core.ops[op].pc == AwaitIo && s.core.writeGate == Some(op)
    requires s.status == Live && s.residue != []
    ensures var t := SendStep(s, DropSend(id));
      && t.lock.None? && t.core.flags == s.core.flags && t.core.writeGate.None? && t.core.wire == s.core.wire
      && t.core.ops.Keys == s.core.ops.Keys && t.sends.Keys == s.sends.Keys
      && t.sequence == s.sequence && t.status == Cut
  {
  }

  function TornRun(): seq<SendEvent> {
    WriteFront(0, [], FIRST_CIPHERTEXT, 0, 4) + [DropSend(0)]
  }

  lemma TornAndDropped()
    ensures var t := SendRun(BLANK, TornRun());
      Idle(t, 1, [1], SECOND_CIPHERTEXT, 1) && t.sequence == 0 && t.status == Cut && t.core.wire == FIRST_FRAME[..4]
  {
    hide SendStep, EncodeFrame, WriteFront, SendInv, ToBigEndian;
    BlankIsFresh();
    FrameBytes();
    var first := WriteFront(0, [], FIRST_CIPHERTEXT, 0, 4);
    FrontGoesOut(BLANK, 0, [], FIRST_CIPHERTEXT, 0, 4);
    var torn := SendRun(BLANK, first);
    SendRunInv(BLANK, first);
    WriterHasGate(torn, 0);
    DropLeavesIdle(torn, 0, 0);
    RunSnoc(BLANK, first, DropSend(0));
    assert [] + FIRST_FRAME[..4] == FIRST_FRAME[..4];
  }

  lemma Finishes(s: Session, id: SendId, op: OpId)
    requires s.lock == Some(id) && id in s.sends && s.sends[id].Writing? && s.sends[id].op == op
    requires op in s.core.ops && s.core.ops[op].pc == Finished(Success)
    ensures var t := SendStep(s, FinishSend(id)); t.core == s.core && id in t.sends && t.sends[id] == Returned(Sent)
  {
  }

  /** The wire of the run: four bytes of one frame and then the whole of another. */
  function TornWire(): Bytes {
    FIRST_FRAME[..4] + SECOND_FRAME
  }

  /** The fifth byte of frames numbered from zero and a part of the next one is a version. */
  lemma NumberedFifthByte(frames: seq<Sealed>, residue: Bytes)
    requires PartialFrame(residue, |frames|) && |OnWire(frames) + residue| > 4
    ensures (OnWire(frames) + residue)[4] == VERSION
  {
    if frames == [] {
      assert Bodies(frames) == [];
      var ciphertext :| PartOf(residue, 0, ciphertext);
      FifthByte(0, ciphertext);
    } else {
      var bodies := Bodies(frames);
      assert bodies == [bodies[0]] + bodies[1..];
      EncodeFramesCons(bodies[0], bodies[1..]);
      FifthByte(0, frames[0].ciphertext);
    }
  }

  /** No list of numbered frames and partial next frame spells this wire. */
  lemma NotNumberedFrames(frames: seq<Sealed>, residue: Bytes)
    ensures TornWire() == OnWire(frames) + residue ==> !PartialFrame(residue, |frames|)
  {
    hide OnWire, PartialFrame;
    FrameBytes();
    assert TornWire()[4] == SECOND_FRAME[..4][0] == 0;
    if PartialFrame(residue, |frames|) && |OnWire(frames) + residue| > 4 {
      NumberedFifthByte(frames, residue);
    }
  }

  lemma FifthByte(sequence: nat, ciphertext: Bytes)
    ensures |EncodeFrame(Body(sequence, ciphertext))| > 4
    ensures EncodeFrame(Body(sequence, ciphertext))[4] == VERSION
  {
  }

  /** Whoever reads this wire finds a frame that no receiver accepts. */
  lemma EveryReceiverRejects(oracle: Oracle, lane: Lane, expected: nat)
    ensures ParseFrame(TornWire()).Frame?
    ensures Open(oracle, lane, expected, ParseFrame(TornWire()).payload) == Err(BadVersion)
  {
    FrameBytes();
    var wire := TornWire();
    assert wire[..4] == [0, 0, 0, 25];
    assert FromBigEndian([0, 0, 0, 25]) == 25 by {
      BigEndianRoundTrip(25, 4);
      Pow256At();
      assert ToBigEndian(25, 4) == [0, 0, 0, 25];
    }
    assert wire[4] == SECOND_FRAME[..4][0] == 0;
  }

  /**
   A send is dropped after four bytes of its frame; the next send puts a different frame with the same
   sequence number behind it and reports success, on a connection that stays open. The wire has no reading
   as frames numbered 0, 1, 2, ... and a part of the next (and `EveryReceiverRejects` what is there).
   */
  lemma DropReusesSequence() returns (es: seq<SendEvent>)
    ensures Fresh(BLANK) && FIRST_FRAME != SECOND_FRAME
    ensures var t := SendRun(BLANK, es);
      && t.core.wire == TornWire()
      && 1 in t.sends && t.sends[1] == Returned(Sent) && Closed !in t.core.flags
      && forall frames, residue :: t.core.wire == OnWire(frames) + residue ==> !PartialFrame(residue, |frames|)
  {
    hide SendStep, EncodeFrame, Body, WriteFront, TornRun, Fresh, OnWire, PartialFrame;
    BlankIsFresh();
    TornAndDropped();
    FrameBytes();
    var cut := SendRun(BLANK, TornRun());
    var second := WriteFront(1, [1], SECOND_CIPHERTEXT, 1, 30);
    FrontGoesOut(cut, 1, [1], SECOND_CIPHERTEXT, 1, 30);
    Finishes(SendRun(cut, second), 1, 1);
    SendRunAppend(BLANK, TornRun(), second);
    RunSnoc(BLANK, TornRun() + second, FinishSend(1));
    es := TornRun() + second + [FinishSend(1)];
    assert SECOND_FRAME[..30] == SECOND_FRAME;
    forall frames, residue | TornWire() == OnWire(frames) + residue ensures !PartialFrame(residue, |frames|) {
      NotNumberedFrames(frames, residue);
    }
  }

  // ------------------------------------------------------------------ exactly when

  /** `t`'s wire is that of `s` and then at least one byte of another frame with the current number. */
  predicate SecondBytes(s: Session, t: Session, ciphertext: Bytes, count: nat) {
    && Framable(Body(s.sequence, ciphertext)) && 0 < count <= |EncodeFrame(Body(s.sequence, ciphertext))|
    && t.core.wire == s.core.wire + EncodeFrame(Body(s.sequence, ciphertext))[..count]
  }

  ghost predicate NumberReused(s: Session, t: Session) {
    exists ciphertext, count :: SecondBytes(s, t, ciphertext, count)
  }

  lemma {:induction false} StuckSession(s: Session, more: seq<SendEvent>)
    requires SendInv(s) && !WireCanGrow(s.core)
    ensures SendInv(SendRun(s, more)) && !WireCanGrow(SendRun(s, more).core)
    ensures SendRun(s, more).core.wire == s.core.wire
  {
    hide SendInv, SendStep, WireCanGrow, Step;
    if more != [] {
      var t, e := SendRun(s, more[..|more| - 1]), more[|more| - 1];
      StuckSession(s, more[..|more| - 1]);
      SendStepInv(t, e);
      StepIsCoreStep(t, e);
      CoreIsGood(t);
      if SendStep(t, e).core != t.core {
        var event :| SendStep(t, e).core == Step(t.core, event);
        StuckStep(t.core, event);
      }
    }
  }

  lemma CoreIsGood(s: Session)
    requires SendInv(s)
    ensures Inv(s.core) && LockInv(s)
  {
  }

  /** With the send lock free no data writer is under way, so only the open direction decides. */
  lemma FreeLockCore(s: Session)
    requires SendInv(s) && s.lock.None?
    ensures WireCanGrow(s.core) <==> Sendable(s.core)
    ensures s.core.writeGate.Some? && s.core.writeGate.value in s.core.ops ==>
      !IsWriter(s.core.ops[s.core.writeGate.value].call)
  {
    LockIsExclusive(s);
    if s.core.writeGate.Some? && s.core.writeGate.value in s.core.ops {
      assert OpInv(s.core, s.core.writeGate.value);
    }
  }

  lemma TornIsCut(s: Session)
    requires SendInv(s) && Intact(s) && s.lock.None? && s.residue != [] && Closed !in s.core.flags
    ensures s.sequence + 1 < U64_LIMIT
  {
  }

  /** Where a send can get through, it gets a first byte of a frame with the current number onto the wire. */
  lemma SecondFrameGoesOut(s: Session) returns (more: seq<SendEvent>)
    requires SendInv(s) && s.lock.None? && Sendable(s.core) && s.sequence + 1 < U64_LIMIT
    ensures NumberReused(s, SendRun(s, more))
  {
    hide SendStep, EncodeFrame, Body, WriteFront, SendInv, Lift, Inv, Step;
    CoreIsGood(s);
    FreeLockCore(s);
    var way := Prepare(s.core);
    QuietRun(s, way);
    var ready := SendRun(s, Lift(way));
    var id := FreshId(ready.sends);
    var op := FreshId(ready.core.ops);
    SmallFrame(s.sequence);
    FrontGoesOut(ready, id, [], FIRST_CIPHERTEXT, op, 1);
    more := Lift(way) + WriteFront(id, [], FIRST_CIPHERTEXT, op, 1);
    SendRunAppend(s, Lift(way), WriteFront(id, [], FIRST_CIPHERTEXT, op, 1));
    assert SecondBytes(s, SendRun(s, more), FIRST_CIPHERTEXT, 1);
  }

  lemma SmallFrame(sequence: nat)
    ensures Framable(Body(sequence, FIRST_CIPHERTEXT)) && |EncodeFrame(Body(sequence, FIRST_CIPHERTEXT))| == 29
  {
  }

  /**
   Exactly when. Take any run after which no send is under way, the wire ends in a torn frame, and nothing
   has been written behind it. A second frame with the same sequence number can come behind it if and only
   if the connection is neither closed nor write-shut, and the write gate is not in the hands of a call that
   is about to close it or shut it down. An error inside the write loop closes the connection first; only a
   dropped send leaves it open.
   */
  lemma CutReusedExactly(start: Session, es: seq<SendEvent>)
    requires Fresh(start) && Intact(SendRun(start, es))
    requires SendRun(start, es).lock.None? && SendRun(start, es).residue != []
    ensures var s := SendRun(start, es);
      && s.core.wire == start.base + OnWire(s.frames) + s.residue && PartialFrame(s.residue, s.sequence)
      && ((exists more :: NumberReused(s, SendRun(start, es + more))) <==> Sendable(s.core))
  {
    hide SendStep, Fresh, SendInv, Sendable;
    var s := SendRun(start, es);
    SendRunInv(start, es);
    RunKeepsBase(start, es);
    TornShape(s);
    CoreIsGood(s);
    FreeLockCore(s);
    if Sendable(s.core) {
      SendableIsOpen(s.core);
      TornIsCut(s);
      var more := SecondFrameGoesOut(s);
      SendRunAppend(start, es, more);
      assert NumberReused(s, SendRun(start, es + more));
    } else {
      forall more ensures !NumberReused(s, SendRun(start, es + more)) {
        SendRunAppend(start, es, more);
        StuckSession(s, more);
      }
    }
  }

  lemma SendableIsOpen(core: State)
    requires Sendable(core)
    ensures Closed !in core.flags
  {
  }

  lemma TornShape(s: Session)
    requires SendInv(s) && Intact(s) && s.lock.None?
    ensures s.core.wire == s.base + OnWire(s.frames) + s.residue && PartialFrame(s.residue, s.sequence)
  {
  }

  /** The step view: only a write behind a frame that a dropped send has cut breaks the order of frames. */
  lemma GarbledExactly(s: Session, e: SendEvent)
    requires SendInv(s) && Intact(s)
    ensures !Intact(SendStep(s, e)) <==> s.status == Cut && SendEnabled(s, e) && e.Core? && Writes(e.event)
    ensures s.status == Live ==>
      (SendStep(s, e).status == Cut <==>
         e.DropSend? && SendEnabled(s, e) && s.sends[e.id].Writing? && s.residue != [])
  {
    if e.Core? && SendEnabled(s, e) && Writes(e.event) {
      WriteNotDead(s, e.event);
    }
  }
}
