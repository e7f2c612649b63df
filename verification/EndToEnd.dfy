/**
 Two endpoints of one traffic direction: a secure sender and a secure receiver whose transports are
 the two ends of one pipe. Either core may at the same time be paused, half-closed, closed, flushed
 or failing, and may carry the other direction; send and receive futures may be dropped. A dropped send
 can leave a partial frame on an open connection: the theorems then hold until a frame follows it.
 */
module EndToEnd {
  import opened ByteStrings
  import opened Wrappers
  import opened Transport
  import opened TransportSafety
  import opened TransportTheorems
  import opened Protocol
  import opened Framing
  import opened SecureRecords
  import S = Sender
  import R = Receiver

  datatype Pair = Pair(tx: S.Session, rx: R.Inbox)

  datatype PairEvent = Tx(send: S.SendEvent) | Rx(receive: R.ReceiveEvent)

  /** Everything sealed by then: this direction's complete frames, and foreign entries. */
  function Known(d: Pair, lane: Lane, foreign: Oracle): Oracle {
    foreign + SealedIn(lane, d.tx.frames)
  }

  /** The pipe: what one core accepted arrives at the other, and so does its end. */
  function Link(rx: R.Inbox, lane: Lane, before: State, after: State): R.Inbox {
    if !(before.wire <= after.wire) then rx
    else
      var arrived := R.ReceiveStep(rx, lane, R.Core(PeerWrites(after.wire[|before.wire|..])));
      if WireShut in after.flags then R.ReceiveStep(arrived, lane, R.Core(PeerShuts)) else arrived
  }

  /** The receiver's incoming stream is fed by the pipe alone, and its cipher knows what is sealed. */
  function Localized(d: Pair, lane: Lane, foreign: Oracle, e: R.ReceiveEvent): R.ReceiveEvent {
    if e.Collect? then R.Collect(e.id, Known(d, lane, foreign)) else e
  }

  predicate PairAllowed(e: PairEvent) {
    e.Rx? && e.receive.Core? ==> !e.receive.event.PeerWrites? && !e.receive.event.PeerShuts?
  }

  function PairStep(d: Pair, lane: Lane, foreign: Oracle, e: PairEvent): Pair {
    if !PairAllowed(e) then d else
    match e
    case Tx(send) =>
      var tx := S.SendStep(d.tx, send);
      Pair(tx, Link(d.rx, lane, d.tx.core, tx.core))
    case Rx(receive) => Pair(d.tx, R.ReceiveStep(d.rx, lane, Localized(d, lane, foreign, receive)))
  }

  function PairRun(start: Pair, lane: Lane, foreign: Oracle, es: seq<PairEvent>): Pair {
    if es == [] then start
    else PairStep(PairRun(start, lane, foreign, es[..|es| - 1]), lane, foreign, es[|es| - 1])
  }

  predicate Linked(d: Pair) {
    && d.rx.core.incoming == d.tx.core.wire
    && (IncomingShut in d.rx.core.flags <==> WireShut in d.tx.core.flags)
  }

  /**
   A traffic direction whose two sessions exist and start from the same byte of one pipe. The two need not
   come into being at the same moment: the sender may already have written frames that nobody has read, and
   the receiver may already be waiting for the first one.
   */
  ghost predicate Opened(d: Pair) {
    && S.SendInv(d.tx) && S.Intact(d.tx)
    && R.ReceiveInv(d.rx) && d.rx.alignment == R.Aligned
    && d.rx.taken == [] && d.rx.delivered == [] && NoRejects(d.rx)
    && Linked(d) && d.rx.base == d.tx.base
  }

  /** Any run of a new sender and any run of a new receiver that has not come to the end of a frame, joined by
      one pipe, are such a direction. */
  lemma RunsOpen(tx: S.Session, sent: seq<S.SendEvent>, rx: R.Inbox, lane: Lane, received: seq<R.ReceiveEvent>)
    requires S.Fresh(tx) && R.Fresh(rx) && rx.base == tx.base
    requires var d := Pair(S.SendRun(tx, sent), R.ReceiveRun(rx, lane, received));
      && S.Intact(d.tx) && Linked(d) && d.rx.alignment == R.Aligned
      && d.rx.taken == [] && d.rx.delivered == [] && NoRejects(d.rx)
    ensures Opened(Pair(S.SendRun(tx, sent), R.ReceiveRun(rx, lane, received)))
  {
    S.SendRunInv(tx, sent);
    S.RunKeepsBase(tx, sent);
    R.ReceiveRunInv(rx, lane, received);
    R.RunKeepsInboxBase(rx, lane, received);
  }

  // ------------------------------------------------------------------ the pipe

  lemma CoreStepPipe(core: State, e: Event)
    requires Inv(core)
    ensures core.wire <= Step(core, e).wire
    ensures WireShut in core.flags ==> WireShut in Step(core, e).flags && Step(core, e).wire == core.wire
  {
    if Enabled(core, e) {
      StepOthers(core, e);
      if WireShut in core.flags {
        NoWriteOnShutWire(core, e);
        if !(e.By? && e.action.TakeGate?) {
          StepFreezes(core, e);
        }
      }
    }
  }

  lemma SendStepPipe(s: S.Session, e: S.SendEvent)
    requires S.SendInv(s)
    ensures s.core.wire <= S.SendStep(s, e).core.wire
    ensures WireShut in s.core.flags ==>
      WireShut in S.SendStep(s, e).core.flags && S.SendStep(s, e).core.wire == s.core.wire
  {
    S.StepIsCoreStep(s, e);
    if S.SendStep(s, e).core != s.core {
      var event :| S.SendStep(s, e).core == Step(s.core, event);
      CoreStepPipe(s.core, event);
    }
  }

  /** Feeding the pipe changes nothing of the receiver but its incoming stream. */
  lemma FeedKeeps(rx: R.Inbox, lane: Lane, event: Event)
    requires R.ReceiveInv(rx) && (event.PeerWrites? || event.PeerShuts?) && Enabled(rx.core, event)
    ensures var next := R.ReceiveStep(rx, lane, R.Core(event));
      && R.ReceiveInv(next) && next == R.WithCore(rx, Apply(rx.core, event))
  {
    R.ReceiveStepInv(rx, lane, R.Core(event));
  }

  predicate SameSession(rx: R.Inbox, next: R.Inbox) {
    && next == R.WithCore(rx, next.core)
    && next.core.delivered == rx.core.delivered
    && next.core.ops == rx.core.ops
  }

  lemma LinkKeeps(rx: R.Inbox, lane: Lane, before: State, after: State)
    requires R.ReceiveInv(rx) && rx.core.incoming == before.wire && before.wire <= after.wire
    requires IncomingShut in rx.core.flags <==> WireShut in before.flags
    requires WireShut in before.flags ==> WireShut in after.flags && after.wire == before.wire
    ensures var next := Link(rx, lane, before, after);
      && R.ReceiveInv(next) && SameSession(rx, next)
      && next.core.incoming == after.wire
      && (IncomingShut in next.core.flags <==> WireShut in after.flags)
  {
    var grown := after.wire[|before.wire|..];
    assert before.wire + grown == after.wire;
    if IncomingShut in rx.core.flags {
      assert R.ReceiveStep(rx, lane, R.Core(PeerWrites(grown))) == rx;
      FeedKeeps(rx, lane, PeerShuts);
    } else {
      FeedKeeps(rx, lane, PeerWrites(grown));
      var arrived := R.ReceiveStep(rx, lane, R.Core(PeerWrites(grown)));
      if WireShut in after.flags {
        FeedKeeps(arrived, lane, PeerShuts);
      }
    }
  }

  // ------------------------------------------------------------------ invariant

  predicate Rejected(point: R.ReceivePoint) {
    point.Returned? && (point.outcome.BadLength? || point.outcome.BadRecord?)
  }

  predicate NoRejects(rx: R.Inbox) {
    forall id :: id in rx.receives ==> !Rejected(rx.receives[id])
  }

  /** While the receiver is on a frame boundary it has read the sender's first frames and has
      accepted every one of them. */
  predicate InStep(d: Pair) {
    d.rx.taken <= S.Bodies(d.tx.frames) && |d.rx.taken| == d.rx.sequence && NoRejects(d.rx)
  }

  ghost predicate Good(d: Pair) {
    && S.SendInv(d.tx) && S.Intact(d.tx)
    && R.ReceiveInv(d.rx)
    && Linked(d)
    && d.rx.base == d.tx.base
    && d.rx.delivered <= Plains(d.tx.frames)
    && (d.rx.alignment == R.Aligned ==> InStep(d))
  }

  // ------------------------------------------------------------------ the sender moves

  lemma FramesGrow(s: S.Session, e: S.SendEvent)
    ensures S.SendStep(s, e).frames == s.frames
            || (|S.SendStep(s, e).frames| == |s.frames| + 1 && s.frames <= S.SendStep(s, e).frames)
  {
  }

  lemma MoreFrames(before: seq<Sealed>, after: seq<Sealed>)
    requires before <= after
    ensures Plains(before) <= Plains(after) && S.Bodies(before) <= S.Bodies(after)
  {
  }

  lemma SessionSame(rx: R.Inbox, next: R.Inbox)
    requires SameSession(rx, next)
    ensures next.delivered == rx.delivered && next.taken == rx.taken && next.sequence == rx.sequence
    ensures next.receives == rx.receives && next.base == rx.base && next.alignment == rx.alignment
  {
  }

  lemma TxStatus(s: S.Session, e: S.SendEvent)
    ensures S.Intact(S.SendStep(s, e)) ==> S.Intact(s)
    ensures S.SendStep(s, e).base == s.base
  {
  }

  lemma TxKeeps(d: Pair, lane: Lane, e: S.SendEvent)
    requires Good(d) && S.Intact(S.SendStep(d.tx, e))
    ensures var tx := S.SendStep(d.tx, e); Good(Pair(tx, Link(d.rx, lane, d.tx.core, tx.core)))
  {
    var tx := S.SendStep(d.tx, e);
    S.SendStepInv(d.tx, e);
    TxStatus(d.tx, e);
    SendStepPipe(d.tx, e);
    LinkKeeps(d.rx, lane, d.tx.core, tx.core);
    SessionSame(d.rx, Link(d.rx, lane, d.tx.core, tx.core));
    FramesGrow(d.tx, e);
    MoreFrames(d.tx.frames, tx.frames);
  }

  // ------------------------------------------------------------------ the receiver moves

  lemma FrameCount(s: S.Session)
    requires S.SendInv(s) && S.Intact(s)
    ensures |s.frames| < U64_LIMIT
  {
  }

  /** The sender's wire as a stream of frames. */
  lemma WireIsFramed(s: S.Session)
    requires S.SendInv(s) && S.Intact(s)
    ensures s.core.wire == s.base + (S.OnWire(s.frames) + s.residue)
    ensures FramedStream(S.OnWire(s.frames) + s.residue, S.Bodies(s.frames), s.residue)
  {
    Associative(s.base, S.OnWire(s.frames), s.residue);
    if s.residue != [] {
      var ciphertext :| S.PartOf(s.residue, |s.frames|, ciphertext);
      assert StrictlyBegins(s.residue, Body(|s.frames|, ciphertext));
    }
  }

  lemma FrontBytes(fetched: Bytes, rest: Bytes)
    requires |fetched| >= FRAME_LENGTH_SIZE
    ensures (fetched + rest)[..FRAME_LENGTH_SIZE] == fetched[..FRAME_LENGTH_SIZE]
  {
  }

  /** What has been taken off a framed stream is the front of its frames. */
  lemma TakenIsFront(base: Bytes, stream: Bytes, payloads: seq<Bytes>, part: Bytes,
                     taken: seq<Bytes>, fetched: Bytes, rest: Bytes)
    requires FramedStream(stream, payloads, part)
    requires forall i :: 0 <= i < |taken| ==> Framable(taken[i])
    requires base + stream == base + EncodeFrames(taken) + fetched + rest
    ensures taken <= payloads
    ensures fetched + rest == [] ==> taken == payloads && part == []
    ensures |fetched| >= FRAME_LENGTH_SIZE ==> 0 < FromBigEndian(fetched[..FRAME_LENGTH_SIZE]) <= MAX_FRAME_SIZE
  {
    Regroup(base, EncodeFrames(taken), fetched, rest);
    CancelFront(base, stream, EncodeFrames(taken) + (fetched + rest));
    FrontIsFrames(stream, payloads, part, taken, fetched + rest);
    if |fetched| >= FRAME_LENGTH_SIZE {
      FrontBytes(fetched, rest);
    }
  }

  lemma FrontIsFrames(stream: Bytes, payloads: seq<Bytes>, part: Bytes, taken: seq<Bytes>, tail: Bytes)
    requires FramedStream(stream, payloads, part)
    requires forall i :: 0 <= i < |taken| ==> Framable(taken[i])
    requires stream == EncodeFrames(taken) + tail
    ensures taken <= payloads
    ensures tail == [] ==> taken == payloads && part == []
    ensures |tail| >= FRAME_LENGTH_SIZE ==> 0 < FromBigEndian(tail[..FRAME_LENGTH_SIZE]) <= MAX_FRAME_SIZE
  {
    ReadFramesAreWritten(stream, payloads, part, taken, tail);
    if |tail| >= FRAME_LENGTH_SIZE {
      NextLengthIsGood(stream, payloads, part, taken, tail);
    }
  }

  /** What the receiver has taken since the session began is the front of the sender's frames. */
  lemma TakenIsWritten(tx: S.Session, taken: seq<Bytes>, fetched: Bytes, rest: Bytes)
    requires S.SendInv(tx) && S.Intact(tx)
    requires forall i :: 0 <= i < |taken| ==> Framable(taken[i])
    requires tx.core.wire == tx.base + EncodeFrames(taken) + fetched + rest
    ensures taken <= S.Bodies(tx.frames)
    ensures fetched + rest == [] ==> taken == S.Bodies(tx.frames) && tx.residue == []
    ensures |fetched| >= FRAME_LENGTH_SIZE ==> 0 < FromBigEndian(fetched[..FRAME_LENGTH_SIZE]) <= MAX_FRAME_SIZE
  {
    WireIsFramed(tx);
    TakenIsFront(tx.base, S.OnWire(tx.frames) + tx.residue, S.Bodies(tx.frames), tx.residue, taken, fetched, rest);
  }

  /** The consumed stream in the shape of `TakenIsWritten`. */
  lemma ConsumedShape(d: Pair) returns (rest: Bytes)
    requires R.StreamInv(d.rx) && Linked(d) && d.rx.base == d.tx.base && d.rx.core.delivered <= d.rx.core.incoming
    requires d.rx.alignment == R.Aligned
    ensures d.tx.core.wire == d.tx.base + EncodeFrames(d.rx.taken) + R.Fetched(d.rx) + rest
    ensures |d.rx.core.delivered| + |rest| == |d.tx.core.wire|
  {
    hide R.Fetched, EncodeFrames;
    var core := d.rx.core;
    rest := core.incoming[|core.delivered|..];
    assert core.delivered == core.delivered[..d.rx.start] + core.delivered[d.rx.start..];
    assert core.incoming == core.delivered + rest;
  }

  /** The record that comes next opens with the sender's plaintext. */
  lemma NextRecordOpens(d: Pair, lane: Lane, foreign: Oracle, k: nat)
    requires S.SendInv(d.tx) && S.Intact(d.tx) && k < |d.tx.frames|
    ensures Open(Known(d, lane, foreign), lane, k, S.Bodies(d.tx.frames)[k]) == Ok(d.tx.frames[k].plain)
  {
    FrameCount(d.tx);
    RecordHasEntry(lane, d.tx.frames, k);
    OpenSealed(Known(d, lane, foreign), lane, k, k, d.tx.frames[k].plain, d.tx.frames[k].ciphertext);
  }

  /** A complete frame read on a boundary is the sender's next one, and is accepted. */
  lemma DeliverInStep(d: Pair, lane: Lane, foreign: Oracle, id: R.ReceiveId, frame: Bytes)
    requires Good(d) && d.rx.alignment == R.Aligned && R.Holds(d.rx, id)
    requires Framable(frame) && R.Fetched(d.rx) == EncodeFrame(frame)
    ensures InStep(Pair(d.tx, R.Deliver(d.rx, id, Known(d, lane, foreign), lane, frame)))
  {
    var rest := ConsumedShape(d);
    var taken := d.rx.taken + [frame];
    assert taken[..|taken| - 1] == d.rx.taken;
    Associative(d.tx.base, EncodeFrames(d.rx.taken), EncodeFrame(frame));
    assert d.tx.base + EncodeFrames(taken) + [] == d.tx.base + EncodeFrames(taken);
    TakenIsWritten(d.tx, taken, [], rest);
    assert frame == S.Bodies(d.tx.frames)[|d.rx.taken|];
    NextRecordOpens(d, lane, foreign, |d.rx.taken|);
  }

  lemma LengthInStep(d: Pair)
    requires Good(d) && d.rx.alignment == R.Aligned && |R.Fetched(d.rx)| == FRAME_LENGTH_SIZE
    ensures 0 < FromBigEndian(R.Fetched(d.rx)) <= MAX_FRAME_SIZE
  {
    var rest := ConsumedShape(d);
    TakenIsWritten(d.tx, d.rx.taken, R.Fetched(d.rx), rest);
    assert R.Fetched(d.rx)[..FRAME_LENGTH_SIZE] == R.Fetched(d.rx);
  }

  lemma FailInStep(d: Pair, id: R.ReceiveId, outcome: R.ReceiveOutcome)
    requires InStep(d) && !outcome.BadLength? && !outcome.BadRecord?
    ensures InStep(Pair(d.tx, R.Fail(d.rx, id, outcome)))
  {
  }

  lemma BodyInStep(d: Pair, lane: Lane, foreign: Oracle, id: R.ReceiveId, chunk: Bytes)
    requires Good(d) && d.rx.alignment == R.Aligned && R.Holds(d.rx, id) && R.Pending(d.rx) == chunk
    requires d.rx.receives[id].phase == R.Payload && |d.rx.receives[id].buffer + chunk| == d.rx.receives[id].size
    ensures InStep(Pair(d.tx, R.Deliver(d.rx, id, Known(d, lane, foreign), lane, d.rx.receives[id].buffer + chunk)))
  {
    R.BodyFetched(d.rx, id, chunk);
    DeliverInStep(d, lane, foreign, id, d.rx.receives[id].buffer + chunk);
  }

  lemma HeaderInStep(d: Pair, id: R.ReceiveId, chunk: Bytes)
    requires Good(d) && d.rx.alignment == R.Aligned && R.Holds(d.rx, id) && R.Pending(d.rx) == chunk
    requires d.rx.receives[id].phase == R.Header && |d.rx.receives[id].buffer + chunk| == d.rx.receives[id].size
    ensures 0 < FromBigEndian(d.rx.receives[id].buffer + chunk) <= MAX_FRAME_SIZE
  {
    R.LengthFetched(d.rx, id, chunk);
    LengthInStep(d);
  }

  lemma SetInStep(d: Pair, id: R.ReceiveId, point: R.ReceivePoint)
    requires InStep(d) && !Rejected(point)
    ensures InStep(Pair(d.tx, R.SetReceive(d.rx, id, point)))
  {
  }

  lemma ExtendInStep(d: Pair, lane: Lane, foreign: Oracle, id: R.ReceiveId, chunk: Bytes)
    requires Good(d) && d.rx.alignment == R.Aligned && R.Holds(d.rx, id) && R.Pending(d.rx) == chunk
    requires |d.rx.receives[id].buffer + chunk| <= d.rx.receives[id].size
    ensures InStep(Pair(d.tx, R.Extend(d.rx, id, Known(d, lane, foreign), lane, chunk)))
  {
    var point := d.rx.receives[id];
    var buffer := point.buffer + chunk;
    if chunk == [] {
      FailInStep(d, id, R.TransportError);
    } else if |buffer| < point.size {
      SetInStep(d, id, R.Reading(point.phase, point.size, buffer, None));
    } else if point.phase == R.Payload {
      BodyInStep(d, lane, foreign, id, chunk);
    } else {
      HeaderInStep(d, id, chunk);
      SetInStep(d, id, R.Reading(R.Payload, FromBigEndian(buffer), [], None));
    }
  }

  lemma ChunkInStep(d: Pair, lane: Lane, foreign: Oracle, id: R.ReceiveId, op: OpId, data: Bytes)
    requires Good(d) && d.rx.alignment == R.Aligned && R.Holds(d.rx, id)
    requires d.rx.receives[id].op == Some(op) && op in d.rx.core.ops && d.rx.core.ops[op].pc == Finished(Chunk(data))
    ensures InStep(Pair(d.tx, R.Extend(d.rx, id, Known(d, lane, foreign), lane, data)))
  {
    R.ChunkFits(d.rx, id, data);
    ExtendInStep(d, lane, foreign, id, data);
  }

  /** Collecting a core result keeps the receiver in step. */
  lemma HarvestInStep(d: Pair, lane: Lane, foreign: Oracle, id: R.ReceiveId)
    requires Good(d) && d.rx.alignment == R.Aligned
    requires R.ReceiveEnabled(d.rx, R.Collect(id, Known(d, lane, foreign)))
    ensures InStep(Pair(d.tx, R.Harvest(d.rx, id, Known(d, lane, foreign), lane)))
  {
    var op := d.rx.receives[id].op.value;
    var outcome := d.rx.core.ops[op].pc.outcome;
    if outcome.Chunk? {
      ChunkInStep(d, lane, foreign, id, op, outcome.data);
    } else {
      FailInStep(d, id, if outcome.EndOfStream? then R.StreamEnded else R.TransportError);
    }
  }

  /** Every other receiver step leaves the account alone. */
  lemma OtherInStep(d: Pair, lane: Lane, e: R.ReceiveEvent)
    requires InStep(d) && !e.Collect?
    ensures InStep(Pair(d.tx, R.ReceiveStep(d.rx, lane, e)))
  {
    if R.ReceiveEnabled(d.rx, e) && e.DropReceive? && d.rx.receives[e.id].Reading? {
      var dropped := R.WithCore(d.rx, Act(d.rx.core, d.rx.receives[e.id].op.value, Drop));
      FailInStep(Pair(d.tx, dropped), e.id, R.Abandoned);
    }
  }

  lemma RxInStep(d: Pair, lane: Lane, foreign: Oracle, e: R.ReceiveEvent)
    requires Good(d) && d.rx.alignment == R.Aligned && (e.Collect? ==> e.oracle == Known(d, lane, foreign))
    ensures InStep(Pair(d.tx, R.ReceiveStep(d.rx, lane, e)))
  {
    if e.Collect? {
      if R.ReceiveEnabled(d.rx, e) {
        HarvestInStep(d, lane, foreign, e.id);
      }
    } else {
      OtherInStep(d, lane, e);
    }
  }

  /** Alignment is never regained, and the base is fixed. */
  lemma RxStays(s: R.Inbox, lane: Lane, e: R.ReceiveEvent)
    ensures var next := R.ReceiveStep(s, lane, e);
      next.base == s.base && (next.alignment == R.Aligned ==> s.alignment == R.Aligned)
  {
  }

  /** The receiver's own events do not touch the pipe. */
  lemma RxLink(s: R.Inbox, lane: Lane, e: R.ReceiveEvent)
    requires R.ReceiveInv(s) && (e.Core? ==> !e.event.PeerWrites? && !e.event.PeerShuts?)
    ensures var next := R.ReceiveStep(s, lane, e);
      && next.core.incoming == s.core.incoming
      && (IncomingShut in next.core.flags <==> IncomingShut in s.core.flags)
  {
    if R.ReceiveEnabled(s, e) {
      match e
      case Core(event) => IncomingKept(s.core, event);
      case Collect(id, oracle) => R.HarvestKeeps(s, id, oracle, lane);
      case _ =>
    }
  }

  lemma IncomingKept(core: State, e: Event)
    requires Inv(core) && Enabled(core, e) && !e.PeerWrites? && !e.PeerShuts?
    ensures Apply(core, e).incoming == core.incoming
    ensures IncomingShut in Apply(core, e).flags <==> IncomingShut in core.flags
  {
    if e.By? && !e.action.Begin? {
      assert OpInv(core, e.id);
      ActIncoming(core, e.id, e.action);
    }
  }

  lemma ActIncoming(core: State, id: OpId, action: Action)
    requires Kept(core, id) && Ready(core, id, action) && !action.Begin?
    ensures Act(core, id, action).incoming == core.incoming
    ensures IncomingShut in Act(core, id, action).flags <==> IncomingShut in core.flags
  {
    match action
    case Tick => TickIncoming(core, id);
    case _ =>
  }

  lemma TickIncoming(core: State, id: OpId)
    requires Kept(core, id) && Ready(core, id, Tick)
    ensures TickAt(core, id).incoming == core.incoming
    ensures IncomingShut in TickAt(core, id).flags <==> IncomingShut in core.flags
  {
    if core.ops[id].pc.Closing? {
      CloseStill(core, id);
      CloseFlagsTick(core, id);
      CloseOthers(core, id);
    } else if core.ops[id].pc.FetchSlot? {
    } else {
      LoadStill(core, id);
      StoreStill(core, id);
      assert TickAt(core, id) == LoadTick(core, id) || TickAt(core, id) == StoreTick(core, id);
    }
  }

  lemma RxPrefix(d: Pair, lane: Lane, foreign: Oracle, e: R.ReceiveEvent)
    requires S.SendInv(d.tx) && S.Intact(d.tx) && R.StreamInv(d.rx) && d.rx.delivered <= Plains(d.tx.frames)
    requires Honest(foreign, lane, []) && (e.Collect? ==> e.oracle == Known(d, lane, foreign))
    ensures R.ReceiveStep(d.rx, lane, e).delivered <= Plains(d.tx.frames)
  {
    FrameCount(d.tx);
    SealedIsHonest(lane, d.tx.frames, foreign);
    R.PrefixStep(d.rx, lane, e, Plains(d.tx.frames));
  }

  lemma RxKeeps(d: Pair, lane: Lane, foreign: Oracle, e: R.ReceiveEvent)
    requires Good(d) && Honest(foreign, lane, [])
    requires e.Core? ==> !e.event.PeerWrites? && !e.event.PeerShuts?
    requires e.Collect? ==> e.oracle == Known(d, lane, foreign)
    ensures Good(Pair(d.tx, R.ReceiveStep(d.rx, lane, e)))
  {
    R.ReceiveStepInv(d.rx, lane, e);
    RxPrefix(d, lane, foreign, e);
    RxStays(d.rx, lane, e);
    RxLink(d.rx, lane, e);
    if d.rx.alignment == R.Aligned {
      RxInStep(d, lane, foreign, e);
    }
  }

  lemma PairStatus(d: Pair, lane: Lane, foreign: Oracle, e: PairEvent)
    requires S.Intact(PairStep(d, lane, foreign, e).tx)
    ensures S.Intact(d.tx)
  {
    if PairAllowed(e) && e.Tx? {
      TxStatus(d.tx, e.send);
    }
  }

  lemma StepGood(d: Pair, lane: Lane, foreign: Oracle, e: PairEvent)
    requires Good(d) && Honest(foreign, lane, []) && S.Intact(PairStep(d, lane, foreign, e).tx)
    ensures Good(PairStep(d, lane, foreign, e))
  {
    if PairAllowed(e) {
      match e
      case Tx(send) => TxKeeps(d, lane, send);
      case Rx(receive) => RxKeeps(d, lane, foreign, Localized(d, lane, foreign, receive));
    }
  }

  lemma StartGood(d: Pair)
    requires Opened(d)
    ensures Good(d)
  {
  }

  lemma {:induction false} RunGood(start: Pair, lane: Lane, foreign: Oracle, es: seq<PairEvent>)
    requires Opened(start) && Honest(foreign, lane, []) && S.Intact(PairRun(start, lane, foreign, es).tx)
    ensures Good(PairRun(start, lane, foreign, es))
  {
    if es == [] {
      StartGood(start);
    } else {
      PairStatus(PairRun(start, lane, foreign, es[..|es| - 1]), lane, foreign, es[|es| - 1]);
      RunGood(start, lane, foreign, es[..|es| - 1]);
      StepGood(PairRun(start, lane, foreign, es[..|es| - 1]), lane, foreign, es[|es| - 1]);
    }
  }

  /** Without dropped sends no frame is ever written behind one that was cut short. */
  lemma {:induction false} NoDropsIntact(start: Pair, lane: Lane, foreign: Oracle, es: seq<PairEvent>)
    requires Opened(start) && S.Sound(start.tx)
    requires forall e :: e in es && e.Tx? ==> !e.send.DropSend?
    ensures var tx := PairRun(start, lane, foreign, es).tx; S.SendInv(tx) && S.Sound(tx) && S.Intact(tx)
  {
    hide S.SendStep, Link, R.ReceiveStep, S.SendInv, R.ReceiveInv;
    if es != [] {
      var d, e := PairRun(start, lane, foreign, es[..|es| - 1]), es[|es| - 1];
      NoDropsIntact(start, lane, foreign, es[..|es| - 1]);
      if e.Tx? {
        S.SendStepInv(d.tx, e.send);
        S.StepSound(d.tx, e.send);
      }
    }
  }

  const BLANK := Pair(S.Session(Init, None, 0, map[], [], [], [], S.Live),
                      R.Inbox(Init, None, 0, map[], [], [], [], 0, R.Aligned))

  /** Two new connections on one pipe are a start. */
  lemma BlankIsFresh()
    ensures Opened(BLANK)
  {
    RunInv([]);
    assert S.Bodies([]) == [] && S.Fresh(BLANK.tx);
    S.SendRunInv(BLANK.tx, []);
  }

  // ------------------------------------------------------------------ theorems

  /**
   End-to-end refinement, safety. For any number of concurrent secure sends and receives, any partial
   writes and read chunkings, pauses, half-closes, closes, I/O errors and dropped receives, and beside
   any records of other lanes, the plaintexts returned by `receive` are at every step a prefix of the
   plaintexts completely written by the peer's `send`, in send-lock order. Sends may be dropped too, as
   long as no frame is written behind one that was cut short; `NoDropsIntact` and the binding's
   `SendingIsIntact` are the two ways to know that.
   */
  lemma ReceivedIsPrefixOfSent(start: Pair, lane: Lane, foreign: Oracle, es: seq<PairEvent>)
    requires Opened(start) && Honest(foreign, lane, []) && S.Intact(PairRun(start, lane, foreign, es).tx)
    ensures var d := PairRun(start, lane, foreign, es);
      d.rx.delivered <= Plains(d.tx.frames) && d.rx.sequence == |d.rx.delivered|
  {
    RunGood(start, lane, foreign, es);
  }

  /** No spurious rejection: as long as no receive has given up inside a frame, no receive fails on a
      frame's length, version, sequence number or tag. */
  lemma NoSpuriousRejection(start: Pair, lane: Lane, foreign: Oracle, es: seq<PairEvent>)
    requires Opened(start) && Honest(foreign, lane, []) && S.Intact(PairRun(start, lane, foreign, es).tx)
    requires PairRun(start, lane, foreign, es).rx.alignment == R.Aligned
    ensures NoRejects(PairRun(start, lane, foreign, es).rx)
  {
    RunGood(start, lane, foreign, es);
  }

  /** Nothing is lost: when a receiver on a frame boundary has drained the pipe, it has returned
      exactly the plaintexts that were completely written, and no partial frame is left. */
  lemma DrainedMeansEqual(start: Pair, lane: Lane, foreign: Oracle, es: seq<PairEvent>)
    requires Opened(start) && Honest(foreign, lane, []) && S.Intact(PairRun(start, lane, foreign, es).tx)
    requires var d := PairRun(start, lane, foreign, es);
      d.rx.alignment == R.Aligned && d.rx.lock.None? && d.rx.core.delivered == d.rx.core.incoming
    ensures var d := PairRun(start, lane, foreign, es);
      d.rx.delivered == Plains(d.tx.frames) && d.tx.residue == []
  {
    RunGood(start, lane, foreign, es);
    Drained(PairRun(start, lane, foreign, es));
  }

  lemma Drained(d: Pair)
    requires Good(d) && d.rx.alignment == R.Aligned && d.rx.lock.None? && d.rx.core.delivered == d.rx.core.incoming
    ensures d.rx.delivered == Plains(d.tx.frames) && d.tx.residue == []
  {
    var rest := ConsumedShape(d);
    assert rest == [] && R.Fetched(d.rx) == [];
    TakenIsWritten(d.tx, d.rx.taken, [], []);
    assert |d.rx.delivered| == |Plains(d.tx.frames)|;
  }

  /** End of stream at the receiver's core means that it has been handed the whole wire, and that the
      wire will stay as it is. */
  lemma EndOfStreamIsFinal(start: Pair, lane: Lane, foreign: Oracle, es: seq<PairEvent>)
    requires Opened(start) && Honest(foreign, lane, []) && S.Intact(PairRun(start, lane, foreign, es).tx)
    requires PeerEof in PairRun(start, lane, foreign, es).rx.core.flags
    ensures var d := PairRun(start, lane, foreign, es);
      && d.rx.core.delivered == d.tx.core.wire && WireShut in d.tx.core.flags
      && forall send :: S.SendStep(d.tx, send).core.wire == d.tx.core.wire
  {
    RunGood(start, lane, foreign, es);
    var d := PairRun(start, lane, foreign, es);
    forall send ensures S.SendStep(d.tx, send).core.wire == d.tx.core.wire {
      SendStepPipe(d.tx, send);
    }
  }

  // ------------------------------------------------------------------ failure-free runs

  predicate Failed(point: R.ReceivePoint) {
    point.Returned? && !point.outcome.Plain?
  }

  predicate FailureFree(rx: R.Inbox) {
    forall id :: id in rx.receives ==> !Failed(rx.receives[id])
  }

  /** Only a receive that returns an error can leave the frame boundary, and it stays on record. */
  lemma AstrayHasFailure(s: R.Inbox, lane: Lane, e: R.ReceiveEvent)
    requires s.alignment == R.Aligned || !FailureFree(s)
    ensures var next := R.ReceiveStep(s, lane, e); next.alignment == R.Aligned || !FailureFree(next)
  {
    var next := R.ReceiveStep(s, lane, e);
    if !FailureFree(s) {
      var id :| id in s.receives && Failed(s.receives[id]);
      assert id in next.receives && next.receives[id] == s.receives[id];
    } else if next.alignment != R.Aligned {
      assert Failed(next.receives[e.id]);
    }
  }

  lemma {:induction false} RunAstrayHasFailure(start: Pair, lane: Lane, foreign: Oracle, es: seq<PairEvent>)
    requires Opened(start)
    ensures var rx := PairRun(start, lane, foreign, es).rx; rx.alignment == R.Aligned || !FailureFree(rx)
  {
    if es != [] {
      var d, e := PairRun(start, lane, foreign, es[..|es| - 1]), es[|es| - 1];
      RunAstrayHasFailure(start, lane, foreign, es[..|es| - 1]);
      if PairAllowed(e) {
        match e
        case Tx(send) => LinkSame(d.rx, lane, d.tx.core, S.SendStep(d.tx, send).core);
        case Rx(receive) => AstrayHasFailure(d.rx, lane, Localized(d, lane, foreign, receive));
      }
    }
  }

  lemma LinkSame(rx: R.Inbox, lane: Lane, before: State, after: State)
    ensures Link(rx, lane, before, after).alignment == rx.alignment
    ensures Link(rx, lane, before, after).receives == rx.receives
  {
  }

  /** End-to-end refinement, completeness: in a run in which no receive returned an error, a drained
      pipe means that everything completely written has been received. */
  lemma FailureFreeDrainedMeansEqual(start: Pair, lane: Lane, foreign: Oracle, es: seq<PairEvent>)
    requires Opened(start) && Honest(foreign, lane, []) && S.Intact(PairRun(start, lane, foreign, es).tx)
    requires var d := PairRun(start, lane, foreign, es);
      FailureFree(d.rx) && d.rx.lock.None? && d.rx.core.delivered == d.rx.core.incoming
    ensures var d := PairRun(start, lane, foreign, es);
      d.rx.delivered == Plains(d.tx.frames) && d.tx.residue == []
  {
    RunAstrayHasFailure(start, lane, foreign, es);
    DrainedMeansEqual(start, lane, foreign, es);
  }
}
