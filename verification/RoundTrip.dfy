/**
 A message and an end of stream all the way through. On two open connections joined by a pipe, what is sent is
 returned at the other end, whatever pieces the two operating systems make of it; and a shut-down direction
 reaches the reader as its end of stream.
 */
module RoundTrip {
  import opened ByteStrings
  import opened Wrappers
  import opened Transport
  import opened TransportSafety
  import opened Protocol
  import opened Framing
  import opened SecureRecords
  import opened EndToEnd
  import S = Sender
  import R = Receiver
  import D = DropHazard
  import F = FrameBoundary
  import C = CallResults
  import W = WireGrowth
  import P = SecureProgress
  import Q = SendProgress

  // ------------------------------------------------------------------ one side at a time

  function TxAll(es: seq<S.SendEvent>): seq<PairEvent> {
    if es == [] then [] else TxAll(es[..|es| - 1]) + [Tx(es[|es| - 1])]
  }

  function RxAll(es: seq<R.ReceiveEvent>): seq<PairEvent> {
    if es == [] then [] else RxAll(es[..|es| - 1]) + [Rx(es[|es| - 1])]
  }

  lemma PairRunSnoc(d: Pair, lane: Lane, foreign: Oracle, es: seq<PairEvent>, e: PairEvent)
    ensures PairRun(d, lane, foreign, es + [e]) == PairStep(PairRun(d, lane, foreign, es), lane, foreign, e)
  {
    assert (es + [e])[..|es|] == es;
  }

  lemma {:induction false} PairRunAppend(d: Pair, lane: Lane, foreign: Oracle, es: seq<PairEvent>, more: seq<PairEvent>)
    ensures PairRun(d, lane, foreign, es + more) == PairRun(PairRun(d, lane, foreign, es), lane, foreign, more)
  {
    hide PairStep;
    if more == [] {
      assert es + more == es;
    } else {
      assert (es + more)[..|es + more| - 1] == es + more[..|more| - 1];
      PairRunAppend(d, lane, foreign, es, more[..|more| - 1]);
    }
  }

  /** The pipe has fed the receiver; its session and its calls have not moved. */
  predicate Fed(rx: R.Inbox, next: R.Inbox) {
    && SameSession(rx, next)
    && next.core.flags - {IncomingShut} == rx.core.flags - {IncomingShut}
    && next.core.readGate == rx.core.readGate
  }

  lemma LinkFeeds(rx: R.Inbox, lane: Lane, before: State, after: State)
    ensures Fed(rx, Link(rx, lane, before, after))
  {
  }

  lemma {:induction false} TxPhase(d: Pair, lane: Lane, foreign: Oracle, es: seq<S.SendEvent>)
    requires Good(d) && Honest(foreign, lane, []) && S.Intact(S.SendRun(d.tx, es))
    ensures var t := PairRun(d, lane, foreign, TxAll(es));
      Good(t) && t.tx == S.SendRun(d.tx, es) && Fed(d.rx, t.rx)
  {
    hide S.SendStep, Link, Good, S.Intact, Fed;
    if es == [] {
      assert Fed(d.rx, d.rx) by { FedRefl(d.rx); }
    } else {
      var init, e := es[..|es| - 1], es[|es| - 1];
      TxStatus(S.SendRun(d.tx, init), e);
      TxPhase(d, lane, foreign, init);
      var t := PairRun(d, lane, foreign, TxAll(init));
      PairRunSnoc(d, lane, foreign, TxAll(init), Tx(e));
      TxStep(t, lane, foreign, e);
      FedTransitive(d.rx, t.rx, PairStep(t, lane, foreign, Tx(e)).rx);
    }
  }

  lemma TxStep(d: Pair, lane: Lane, foreign: Oracle, e: S.SendEvent)
    requires Good(d) && Honest(foreign, lane, []) && S.Intact(S.SendStep(d.tx, e))
    ensures var t := PairStep(d, lane, foreign, Tx(e)); Good(t) && t.tx == S.SendStep(d.tx, e) && Fed(d.rx, t.rx)
  {
    hide S.SendStep, Good, S.Intact;
    TxKeeps(d, lane, e);
    LinkFeeds(d.rx, lane, d.tx.core, S.SendStep(d.tx, e).core);
  }

  lemma FedRefl(rx: R.Inbox)
    ensures Fed(rx, rx)
  {
  }

  lemma FedTransitive(rx: R.Inbox, mid: R.Inbox, next: R.Inbox)
    requires Fed(rx, mid) && Fed(mid, next)
    ensures Fed(rx, next)
  {
  }

  /** A receiver's own event, with this cipher. */
  predicate Own(e: R.ReceiveEvent, oracle: Oracle) {
    && (e.Core? ==> !e.event.PeerWrites? && !e.event.PeerShuts?)
    && (e.Collect? ==> e.oracle == oracle)
  }

  predicate AllOwn(es: seq<R.ReceiveEvent>, oracle: Oracle) {
    forall i :: 0 <= i < |es| ==> Own(es[i], oracle)
  }

  lemma {:induction false} RxPhase(d: Pair, lane: Lane, foreign: Oracle, es: seq<R.ReceiveEvent>)
    requires AllOwn(es, Known(d, lane, foreign))
    ensures PairRun(d, lane, foreign, RxAll(es)) == Pair(d.tx, R.ReceiveRun(d.rx, lane, es))
  {
    hide R.ReceiveStep;
    if es != [] {
      var init, e := es[..|es| - 1], es[|es| - 1];
      RxPhase(d, lane, foreign, init);
      PairRunSnoc(d, lane, foreign, RxAll(init), Rx(e));
      assert Own(e, Known(d, lane, foreign));
    }
  }

  // The events of a whole receive are its own.

  lemma {:induction false} LiftIsOwn(es: seq<Event>, oracle: Oracle)
    requires forall i :: 0 <= i < |es| ==> es[i].By?
    ensures AllOwn(F.Lift(es), oracle)
  {
    if es != [] {
      LiftIsOwn(es[..|es| - 1], oracle);
    }
  }

  lemma {:induction false} TicksAreBy(op: OpId, count: nat)
    ensures forall i :: 0 <= i < |F.Ticks(op, count)| ==> F.Ticks(op, count)[i].By?
  {
    if count > 0 {
      TicksAreBy(op, count - 1);
    }
  }

  lemma {:induction false} RoundsAreOwn(id: R.ReceiveId, first: OpId, counts: seq<nat>, oracle: Oracle)
    ensures AllOwn(P.Rounds(id, first, counts, oracle), oracle)
  {
    if counts != [] {
      var n := |counts| - 1;
      RoundsAreOwn(id, first, counts[..n], oracle);
      TicksAreBy(first + n, 4);
      TicksAreBy(first + n, 6);
      LiftIsOwn(F.Way(first + n, counts[n]), oracle);
    }
  }

  lemma ReceiveIsOwn(id: R.ReceiveId, first: OpId, header: seq<nat>, body: seq<nat>, oracle: Oracle)
    ensures AllOwn(P.WholeReceive(id, first, header, body, oracle), oracle)
  {
    RoundsAreOwn(id, first, header, oracle);
    RoundsAreOwn(id, first + |header|, body, oracle);
  }

  // ------------------------------------------------------------------ a message

  /** The two sides are ready for one message: nobody is sending or receiving, both connections are open in this
      direction, and everything sent so far has been received. */
  ghost predicate Quiet(d: Pair, sid: S.SendId, plain: Bytes, ciphertext: Bytes, op: OpId, rid: R.ReceiveId, first: OpId) {
    && D.Idle(d.tx, sid, plain, ciphertext, op) && d.tx.status == S.Live && d.tx.residue == []
    && P.Idle(d.rx, rid, first) && d.rx.alignment == R.Aligned && d.rx.core.delivered == d.rx.core.incoming
  }

  /** The sizes of the pieces that the two operating systems make of a frame of this length. */
  predicate Cuts(counts: seq<nat>, header: seq<nat>, body: seq<nat>, size: nat) {
    && P.Positive(counts) && P.Sum(counts) == 4 + size
    && P.Positive(header) && P.Sum(header) == 4
    && P.Positive(body) && P.Sum(body) == size
  }

  lemma QuietNumbers(d: Pair)
    requires Good(d) && d.tx.lock.None? && d.rx.alignment == R.Aligned && d.rx.lock.None?
    requires d.rx.core.delivered == d.rx.core.incoming && d.tx.status == S.Live
    ensures d.tx.sequence == |d.tx.frames| == d.rx.sequence && d.rx.delivered == Plains(d.tx.frames)
  {
    Drained(d);
  }

  lemma NextFrameOpens(d: Pair, t: Pair, lane: Lane, foreign: Oracle, record: Sealed)
    requires S.SendInv(t.tx) && S.Intact(t.tx) && t.tx.frames == d.tx.frames + [record]
    ensures var n := |d.tx.frames|;
      Open(Known(t, lane, foreign), lane, n, Body(n, record.ciphertext)) == Ok(record.plain)
  {
    hide S.SendInv, Open, Known;
    NextRecordOpens(t, lane, foreign, |d.tx.frames|);
  }

  lemma FedIsIdle(rx: R.Inbox, next: R.Inbox, rid: R.ReceiveId, first: OpId)
    requires P.Idle(rx, rid, first) && Fed(rx, next)
    ensures P.Idle(next, rid, first)
  {
    SameFlags(rx.core.flags, next.core.flags);
  }

  lemma SameFlags(before: set<Flag>, after: set<Flag>)
    requires after - {IncomingShut} == before - {IncomingShut}
    ensures F.Readable(before) ==> F.Readable(after)
  {
    forall flag | flag != IncomingShut ensures flag in before <==> flag in after {
      assert flag in before - {IncomingShut} <==> flag in after - {IncomingShut};
    }
  }

  lemma EncodedSize(frame: Bytes)
    ensures |EncodeFrame(frame)| == 4 + |frame|
  {
  }

  lemma GoodIsLinked(d: Pair)
    requires Good(d)
    ensures d.rx.core.incoming == d.tx.core.wire && S.SendInv(d.tx) && S.Intact(d.tx)
  {
  }

  lemma SendPhase(d: Pair, lane: Lane, foreign: Oracle, sid: S.SendId, plain: Bytes, ciphertext: Bytes, op: OpId,
                  counts: seq<nat>)
    requires Good(d) && Honest(foreign, lane, [])
    requires D.Idle(d.tx, sid, plain, ciphertext, op) && d.tx.status == S.Live && d.tx.residue == []
    requires P.Positive(counts) && P.Sum(counts) == |EncodeFrame(Body(d.tx.sequence, ciphertext))|
    ensures var t := PairRun(d, lane, foreign, TxAll(Q.WholeSend(sid, plain, ciphertext, op, counts)));
      && Good(t) && Q.OneMoreSent(d.tx, t.tx, sid, plain, ciphertext) && Fed(d.rx, t.rx)
      && t.rx.core.incoming == d.tx.core.wire + EncodeFrame(Body(d.tx.sequence, ciphertext))
  {
    hide Good, Fed, Q.WholeSend, EncodeFrame, Body, D.Idle;
    var es := Q.WholeSend(sid, plain, ciphertext, op, counts);
    Q.MessageGoesOut(d.tx, sid, plain, ciphertext, op, counts);
    TxPhase(d, lane, foreign, es);
    GoodIsLinked(PairRun(d, lane, foreign, TxAll(es)));
  }

  /** Send and then receive, from a quiet pair. */
  lemma MessageFromQuiet(d: Pair, lane: Lane, foreign: Oracle, sid: S.SendId, plain: Bytes, ciphertext: Bytes, op: OpId,
                         rid: R.ReceiveId, first: OpId, counts: seq<nat>, header: seq<nat>, body: seq<nat>)
    requires Good(d) && Honest(foreign, lane, []) && Quiet(d, sid, plain, ciphertext, op, rid, first)
    requires Cuts(counts, header, body, |Body(d.tx.sequence, ciphertext)|)
    ensures var sent := PairRun(d, lane, foreign, TxAll(Q.WholeSend(sid, plain, ciphertext, op, counts)));
      var t := PairRun(sent, lane, foreign, RxAll(P.WholeReceive(rid, first, header, body, Known(sent, lane, foreign))));
      && sid in t.tx.sends && t.tx.sends[sid] == S.Returned(S.Sent)
      && rid in t.rx.receives && t.rx.receives[rid] == R.Returned(R.Plain(plain))
      && t.rx.delivered == d.rx.delivered + [plain] == Plains(t.tx.frames)
  {
    hide Good, Fed, Q.WholeSend, P.WholeReceive, EncodeFrame, Body, D.Idle, P.Idle, Known, Open, S.SendInv;
    var frame := Body(d.tx.sequence, ciphertext);
    EncodedSize(frame);
    QuietNumbers(d) by { IdleLock(d.tx, sid, plain, ciphertext, op); IdleInbox(d.rx, rid, first); }
    SendPhase(d, lane, foreign, sid, plain, ciphertext, op, counts);
    var sent := PairRun(d, lane, foreign, TxAll(Q.WholeSend(sid, plain, ciphertext, op, counts)));
    var oracle := Known(sent, lane, foreign);
    FedIsIdle(d.rx, sent.rx, rid, first);
    FedSession(d.rx, sent.rx);
    GoodIsLinked(d);
    GoodIsLinked(sent);
    NextFrameOpens(d, sent, lane, foreign, Sealed(plain, ciphertext));
    FramableIdle(d.tx, sid, plain, ciphertext, op);
    P.FrameComesThrough(sent.rx, lane, rid, first, header, body, oracle, frame);
    ReceiveIsOwn(rid, first, header, body, oracle);
    RxPhase(sent, lane, foreign, P.WholeReceive(rid, first, header, body, oracle));
    assert Plains(d.tx.frames + [Sealed(plain, ciphertext)]) == Plains(d.tx.frames) + [plain];
  }

  lemma FedSession(rx: R.Inbox, next: R.Inbox)
    requires Fed(rx, next)
    ensures next.sequence == rx.sequence && next.delivered == rx.delivered && next.core.delivered == rx.core.delivered
  {
  }

  lemma IdleLock(s: S.Session, sid: S.SendId, plain: Bytes, ciphertext: Bytes, op: OpId)
    requires D.Idle(s, sid, plain, ciphertext, op)
    ensures s.lock.None?
  {
  }

  lemma IdleInbox(s: R.Inbox, rid: R.ReceiveId, first: OpId)
    requires P.Idle(s, rid, first)
    ensures s.lock.None?
  {
  }

  lemma FramableIdle(s: S.Session, sid: S.SendId, plain: Bytes, ciphertext: Bytes, op: OpId)
    requires D.Idle(s, sid, plain, ciphertext, op)
    ensures Framable(Body(s.sequence, ciphertext))
  {
  }

  /**
   The round trip. Whenever, in any run of the two ends, both connections are open in this direction, nobody is
   sending or receiving, and all that was sent has been received, the next message that is sent is the next
   one that is received: the send reports success and the receive returns exactly this plaintext, whatever
   pieces the two operating systems make of the frame.
   */
  lemma MessageRoundTrip(start: Pair, lane: Lane, foreign: Oracle, es: seq<PairEvent>,
                         sid: S.SendId, plain: Bytes, ciphertext: Bytes, op: OpId,
                         rid: R.ReceiveId, first: OpId, counts: seq<nat>, header: seq<nat>, body: seq<nat>)
    returns (more: seq<PairEvent>)
    requires Opened(start) && Honest(foreign, lane, []) && S.Intact(PairRun(start, lane, foreign, es).tx)
    requires var d := PairRun(start, lane, foreign, es);
      Quiet(d, sid, plain, ciphertext, op, rid, first) && Cuts(counts, header, body, |Body(d.tx.sequence, ciphertext)|)
    ensures var d, t := PairRun(start, lane, foreign, es), PairRun(start, lane, foreign, es + more);
      && sid in t.tx.sends && t.tx.sends[sid] == S.Returned(S.Sent)
      && rid in t.rx.receives && t.rx.receives[rid] == R.Returned(R.Plain(plain))
      && t.rx.delivered == d.rx.delivered + [plain] == Plains(t.tx.frames)
  {
    hide Good, Quiet, Cuts, Opened, PairStep, Q.WholeSend, P.WholeReceive, Known;
    var d := PairRun(start, lane, foreign, es);
    RunGood(start, lane, foreign, es);
    MessageFromQuiet(d, lane, foreign, sid, plain, ciphertext, op, rid, first, counts, header, body);
    var send := TxAll(Q.WholeSend(sid, plain, ciphertext, op, counts));
    var oracle := Known(PairRun(d, lane, foreign, send), lane, foreign);
    var receive := RxAll(P.WholeReceive(rid, first, header, body, oracle));
    PairRunAppend(start, lane, foreign, es, send);
    PairRunAppend(start, lane, foreign, es + send, receive);
    more := send + receive;
    assert es + more == es + send + receive;
  }

  // ------------------------------------------------------------------ the end of the stream

  /** Steps of the sending session are steps of its core, so a dropped `shutdown_write` is the only thing that
      leaves a marked direction open. */
  lemma SenderShuts(s: S.Session, e: S.SendEvent)
    requires S.SendInv(s) && C.NoShutdownDropped(S.SendStep(s, e).core)
    ensures C.NoShutdownDropped(s.core)
    ensures !C.LeftOpen(s.core) ==> !C.LeftOpen(S.SendStep(s, e).core)
  {
    hide Inv, S.SendStep, C.LeftOpen, C.NoShutdownDropped, Step;
    S.StepIsCoreStep(s, e);
    SenderInv(s);
    if S.SendStep(s, e).core != s.core {
      var event :| S.SendStep(s, e).core == Step(s.core, event);
      C.DroppedStays(s.core, event);
      if C.DropsShutdown(s.core, event) {
        C.DropMarks(s.core, event);
      }
      if !C.LeftOpen(s.core) {
        C.ShutStep(s.core, event);
      }
    }
  }

  lemma SenderInv(s: S.Session)
    requires S.SendInv(s)
    ensures Inv(s.core)
  {
  }

  lemma {:induction false} PairShuts(start: Pair, lane: Lane, foreign: Oracle, es: seq<PairEvent>)
    requires Opened(start) && Honest(foreign, lane, []) && S.Intact(PairRun(start, lane, foreign, es).tx)
    requires !C.LeftOpen(start.tx.core) && C.NoShutdownDropped(PairRun(start, lane, foreign, es).tx.core)
    ensures !C.LeftOpen(PairRun(start, lane, foreign, es).tx.core)
  {
    hide PairStep, Good, C.LeftOpen, C.NoShutdownDropped, S.Intact, Opened;
    if es != [] {
      var init, e := es[..|es| - 1], es[|es| - 1];
      var d := PairRun(start, lane, foreign, init);
      PairStatus(d, lane, foreign, e);
      RunGood(start, lane, foreign, init);
      PairKeepsShut(d, lane, foreign, e);
      PairShuts(start, lane, foreign, init);
    }
  }

  lemma PairKeepsShut(d: Pair, lane: Lane, foreign: Oracle, e: PairEvent)
    requires Good(d) && C.NoShutdownDropped(PairStep(d, lane, foreign, e).tx.core)
    ensures C.NoShutdownDropped(d.tx.core)
    ensures !C.LeftOpen(d.tx.core) ==> !C.LeftOpen(PairStep(d, lane, foreign, e).tx.core)
  {
    hide PairStep, Good, C.LeftOpen, C.NoShutdownDropped, S.SendStep, S.SendInv;
    GoodIsLinked(d);
    TxOfStep(d, lane, foreign, e);
    if e.Tx? {
      SenderShuts(d.tx, e.send);
    }
  }

  lemma TxOfStep(d: Pair, lane: Lane, foreign: Oracle, e: PairEvent)
    ensures PairStep(d, lane, foreign, e).tx == if e.Tx? then S.SendStep(d.tx, e.send) else d.tx
  {
  }

  lemma EndIsOwn(rid: R.ReceiveId, first: OpId, oracle: Oracle)
    ensures AllOwn([R.StartReceive(rid)] + [R.TakeLock(rid)] + P.EndEvents(rid, first, oracle), oracle)
  {
    TicksAreBy(first, 4);
    TicksAreBy(first, 6);
    LiftIsOwn(P.EndWay(first), oracle);
  }

  /** Whatever has shut the sender's wire: once the reader has read everything, its next receive reports the end
      of the stream. */
  lemma EndReachesReader(start: Pair, lane: Lane, foreign: Oracle, es: seq<PairEvent>, rid: R.ReceiveId, first: OpId)
    returns (more: seq<PairEvent>)
    requires Opened(start) && Honest(foreign, lane, []) && S.Intact(PairRun(start, lane, foreign, es).tx)
    requires var d := PairRun(start, lane, foreign, es);
      WireShut in d.tx.core.flags && P.Idle(d.rx, rid, first) && d.rx.core.delivered == d.rx.core.incoming
    ensures var t := PairRun(start, lane, foreign, es + more);
      rid in t.rx.receives && t.rx.receives[rid] == R.Returned(R.StreamEnded) && PeerEof in t.rx.core.flags
  {
    hide PairStep, Good, Opened, P.EndEvents, P.Idle, R.ReceiveRun, Known;
    var d := PairRun(start, lane, foreign, es);
    RunGood(start, lane, foreign, es);
    EndIsLinked(d);
    var oracle := Known(d, lane, foreign);
    P.EndComesThrough(d.rx, lane, rid, first, oracle);
    EndIsOwn(rid, first, oracle);
    RxPhase(d, lane, foreign, [R.StartReceive(rid)] + [R.TakeLock(rid)] + P.EndEvents(rid, first, oracle));
    more := RxAll([R.StartReceive(rid)] + [R.TakeLock(rid)] + P.EndEvents(rid, first, oracle));
    PairRunAppend(start, lane, foreign, es, more);
  }

  lemma EndIsLinked(d: Pair)
    requires Good(d)
    ensures IncomingShut in d.rx.core.flags <==> WireShut in d.tx.core.flags
  {
  }

  /**
   A shut-down direction reaches the reader. Take any run in which no `shutdown_write` was dropped and which has
   left the sending connection open with its send direction shut, and no `shutdown_write` is still at it. Then
   the wire is shut, and once the reader has read everything, its next receive reports the end of the stream.
   */
  lemma ShutdownReachesReader(start: Pair, lane: Lane, foreign: Oracle, es: seq<PairEvent>, rid: R.ReceiveId, first: OpId)
    returns (more: seq<PairEvent>)
    requires Opened(start) && Honest(foreign, lane, []) && S.Intact(PairRun(start, lane, foreign, es).tx)
    requires !C.LeftOpen(start.tx.core) && C.NoShutdownDropped(PairRun(start, lane, foreign, es).tx.core)
    requires var d := PairRun(start, lane, foreign, es);
      && Closed !in d.tx.core.flags && WriteShut in d.tx.core.flags && !C.ShutUnderWay(d.tx.core)
      && P.Idle(d.rx, rid, first) && d.rx.core.delivered == d.rx.core.incoming
    ensures WireShut in PairRun(start, lane, foreign, es).tx.core.flags
    ensures var t := PairRun(start, lane, foreign, es + more);
      rid in t.rx.receives && t.rx.receives[rid] == R.Returned(R.StreamEnded) && PeerEof in t.rx.core.flags
  {
    hide PairRun, C.NoShutdownDropped, C.ShutUnderWay, Opened, P.Idle;
    PairShuts(start, lane, foreign, es);
    more := EndReachesReader(start, lane, foreign, es, rid, first);
  }
}
