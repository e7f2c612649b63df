/**
 Where a receive leaves the stream. The Rust core keeps no buffer between receives: bytes that a receive has
 read and not used are gone when it returns, and the next receive starts at the byte behind them.
 `LosesBoundaryExactly` says which results leave a frame boundary, `AlignedExactly` when a session is off it,
 and `PausedReceiveLosesBoundary` is a run in which a pause between two chunks makes the next receive reject
 an honest frame.
 */
module FrameBoundary {
  import opened ByteStrings
  import opened Wrappers
  import opened Transport
  import opened TransportSafety
  import opened TransportTheorems
  import W = WireGrowth
  import opened Protocol
  import opened Framing
  import opened SecureRecords
  import opened Receiver

  // ------------------------------------------------------------------ which results lose it

  predicate AllFramable(frames: seq<Bytes>) {
    forall i :: 0 <= i < |frames| ==> Framable(frames[i])
  }

  /** Behind `base`, the bytes are whole frames. */
  ghost predicate OnBoundary(stream: Bytes, base: Bytes) {
    exists frames :: AllFramable(frames) && stream == base + EncodeFrames(frames)
  }

  /** An error other than a verdict on a complete record, or no result at all. */
  predicate GaveUp(outcome: ReceiveOutcome) {
    !outcome.Plain? && !outcome.BadRecord?
  }

  /** The receive that holds the lock returns or is dropped, and with it the lock is released. */
  predicate Leaves(s: Inbox, t: Inbox) {
    && s.lock.Some? && t.lock.None?
    && s.lock.value in t.receives && t.receives[s.lock.value].Returned?
  }

  /** What had been consumed when the current receive got the lock. */
  function Behind(s: Inbox): Bytes {
    if s.start <= |s.core.delivered| then s.core.delivered[..s.start] else []
  }

  /** It gives up, having taken at least one byte off the stream since it got the lock. */
  predicate GivesUpInside(s: Inbox, t: Inbox) {
    Leaves(s, t) && GaveUp(t.receives[s.lock.value].outcome) && s.start < |t.core.delivered|
  }

  /** What a receive has fetched when it leaves: one whole frame, or nothing that starts with a frame. */
  predicate LeftWith(s: Inbox, t: Inbox)
    requires Leaves(s, t)
  {
    && t.core.delivered == s.core.delivered && t.base == s.base
    && (if GaveUp(t.receives[s.lock.value].outcome) then !ParseFrame(Fetched(s)).Frame?
        else ParseFrame(Fetched(s)).Frame? && ParseFrame(Fetched(s)).rest == [])
  }

  lemma PartHasNoFrame(s: Inbox)
    requires LockInv(s) && s.lock.Some? && Pending(s) == []
    ensures !ParseFrame(Fetched(s)).Frame?
  {
    if Holder(s).phase == Payload {
      LengthRoundTrip(Holder(s).size);
      assert Fetched(s)[..FRAME_LENGTH_SIZE] == ToBigEndian(Holder(s).size, FRAME_LENGTH_SIZE);
    }
  }

  lemma WholeIsFrame(frame: Bytes)
    requires Framable(frame)
    ensures ParseFrame(EncodeFrame(frame)).Frame? && ParseFrame(EncodeFrame(frame)).rest == []
  {
    assert EncodeFrame(frame) + [] == EncodeFrame(frame);
    ParseEncoded(frame, []);
  }

  lemma BadLengthHasNoFrame(header: Bytes)
    requires |header| == FRAME_LENGTH_SIZE
    ensures !ParseFrame(header).Frame?
  {
  }

  lemma ExtendLeaves(s: Inbox, id: ReceiveId, oracle: Oracle, lane: Lane, chunk: Bytes)
    requires LockInv(s) && Holds(s, id) && Pending(s) == chunk && |s.receives[id].buffer + chunk| <= s.receives[id].size
    requires Leaves(s, Receiver.Extend(s, id, oracle, lane, chunk))
    ensures LeftWith(s, Receiver.Extend(s, id, oracle, lane, chunk))
  {
    hide Open, EncodeFrame, Framable, ParseFrame;
    var buffer := s.receives[id].buffer + chunk;
    if chunk == [] {
      PartHasNoFrame(s);
    } else if s.receives[id].phase == Payload {
      BodyFetched(s, id, chunk);
      WholeIsFrame(buffer);
    } else {
      LengthFetched(s, id, chunk);
      BadLengthHasNoFrame(buffer);
    }
  }

  lemma CollectLeaves(s: Inbox, lane: Lane, id: ReceiveId, oracle: Oracle)
    requires LockInv(s) && ReceiveEnabled(s, Collect(id, oracle)) && Leaves(s, Harvest(s, id, oracle, lane))
    ensures LeftWith(s, Harvest(s, id, oracle, lane))
  {
    hide Receiver.Extend, ParseFrame, Fetched, EncodeFrame;
    match s.core.ops[s.receives[id].op.value].pc.outcome
    case Chunk(data) =>
      ChunkFits(s, id, data);
      ExtendLeaves(s, id, oracle, lane, data);
    case _ => PartHasNoFrame(s);
  }

  lemma AbandonLeaves(s: Inbox, id: ReceiveId)
    requires LockInv(s) && ReceiveEnabled(s, DropReceive(id)) && Leaves(s, Abandon(s, id))
    ensures LeftWith(s, Abandon(s, id))
  {
    hide ParseFrame, Fetched;
    FinishStill(s.core, s.receives[id].op.value, Dropped);
    PartHasNoFrame(s);
  }

  lemma StepLeaves(s: Inbox, lane: Lane, e: ReceiveEvent)
    requires LockInv(s) && Leaves(s, ReceiveStep(s, lane, e))
    ensures LeftWith(s, ReceiveStep(s, lane, e))
  {
    hide LockInv, LeftWith, Harvest, Abandon;
    match e
    case Collect(id, oracle) => CollectLeaves(s, lane, id, oracle);
    case DropReceive(id) => AbandonLeaves(s, id);
    case _ =>
  }

  /** Whole frames and then bytes that do not start with a frame are never whole frames only. */
  lemma OneReading(frames: seq<Bytes>, others: seq<Bytes>, part: Bytes)
    requires AllFramable(frames) && AllFramable(others) && !ParseFrame(part).Frame?
    requires EncodeFrames(frames) + part == EncodeFrames(others)
    ensures part == []
  {
    hide ParseFrame, EncodeFrames, Framable;
    ParseFramesAppend(frames, part);
    ParseFramesAppend(others, []);
    assert EncodeFrames(others) + [] == EncodeFrames(others);
    NothingParses(part);
    assert frames + [] == frames && others + [] == others;
    assert |EncodeFrames(frames) + part| == |EncodeFrames(frames)|;
  }

  /** Behind whole frames, bytes that do not start with a frame end off every boundary. */
  lemma OffBoundary(base: Bytes, frames: seq<Bytes>, part: Bytes)
    requires AllFramable(frames) && part != [] && !ParseFrame(part).Frame?
    ensures !OnBoundary(base + EncodeFrames(frames) + part, base)
  {
    hide ParseFrame, EncodeFrames, Framable;
    var stream := base + EncodeFrames(frames) + part;
    if OnBoundary(stream, base) {
      var others :| AllFramable(others) && stream == base + EncodeFrames(others);
      Associative(base, EncodeFrames(frames), part);
      CancelFront(base, EncodeFrames(frames) + part, EncodeFrames(others));
      OneReading(frames, others, part);
    }
  }

  lemma NothingParses(part: Bytes)
    requires !ParseFrame(part).Frame?
    ensures ParseFrames(part) == [] && ParseFrames([]) == []
  {
  }

  lemma BehindOneMore(base: Bytes, frames: seq<Bytes>, part: Bytes)
    requires AllFramable(frames) && ParseFrame(part).Frame? && ParseFrame(part).rest == []
    ensures OnBoundary(base + EncodeFrames(frames) + part, base)
  {
    var frame := ParseFrame(part).payload;
    EncodeParsed(part);
    assert EncodeFrame(frame) + [] == part;
    var all := frames + [frame];
    assert all[..|frames|] == frames;
    Associative(base, EncodeFrames(frames), part);
    assert AllFramable(all) && base + EncodeFrames(frames) + part == base + EncodeFrames(all);
  }

  /**
   A receive that began on a frame boundary loses it exactly when it returns an error other than a verdict
   on a record, or is dropped, after it has consumed at least one byte. This holds in every run, with any
   incoming bytes, whatever the receives before have done.
   */
  lemma LosesBoundaryExactly(start: Inbox, lane: Lane, es: seq<ReceiveEvent>, e: ReceiveEvent)
    requires Fresh(start)
    requires var s := ReceiveRun(start, lane, es);
      Leaves(s, ReceiveStep(s, lane, e)) && OnBoundary(Behind(s), s.base)
    ensures var s := ReceiveRun(start, lane, es); var t := ReceiveStep(s, lane, e);
      !OnBoundary(t.core.delivered, t.base) <==> GivesUpInside(s, t)
  {
    hide ReceiveStep, Fresh, OnBoundary, ParseFrame, Fetched;
    var s := ReceiveRun(start, lane, es);
    ReceiveRunInv(start, lane, es);
    StepLeaves(s, lane, e);
    BoundaryAfter(s, ReceiveStep(s, lane, e));
  }

  lemma BoundaryAfter(s: Inbox, t: Inbox)
    requires StreamInv(s) && Leaves(s, t) && LeftWith(s, t) && OnBoundary(Behind(s), s.base)
    ensures !OnBoundary(t.core.delivered, t.base) <==> GivesUpInside(s, t)
  {
    hide ParseFrame, EncodeFrames, Framable, Fetched;
    var frames :| AllFramable(frames) && Behind(s) == s.base + EncodeFrames(frames);
    var part := Fetched(s);
    assert s.core.delivered == Behind(s) + part;
    if part == [] {
      assert s.core.delivered == Behind(s);
      assert !ParseFrame(part).Frame? by { EmptyIsNoFrame(); }
    } else if ParseFrame(part).Frame? {
      BehindOneMore(s.base, frames, part);
    } else {
      OffBoundary(s.base, frames, part);
    }
  }

  lemma EmptyIsNoFrame()
    ensures !ParseFrame([]).Frame?
  {
  }

  // ------------------------------------------------------------------ over whole runs

  lemma StepAligned(s: Inbox, lane: Lane, e: ReceiveEvent)
    requires ReceiveInv(s)
    ensures var t := ReceiveStep(s, lane, e);
      t.alignment == Aligned <==> s.alignment == Aligned && !GivesUpInside(s, t)
  {
    hide Inv, EncodeFrames, Open, Fetched, Framable;
    if ReceiveEnabled(s, e) && e.DropReceive? && s.receives[e.id].Reading? {
      FinishStill(s.core, s.receives[e.id].op.value, Dropped);
    }
  }

  /** No receive of the run has given up inside. */
  ghost predicate NoneGaveUp(start: Inbox, lane: Lane, es: seq<ReceiveEvent>) {
    forall i :: 0 <= i < |es| ==>
      !GivesUpInside(ReceiveRun(start, lane, es[..i]), ReceiveStep(ReceiveRun(start, lane, es[..i]), lane, es[i]))
  }

  lemma NoneGaveUpSnoc(start: Inbox, lane: Lane, es: seq<ReceiveEvent>)
    requires es != []
    ensures var init := es[..|es| - 1]; var s := ReceiveRun(start, lane, init);
      NoneGaveUp(start, lane, es)
      <==> NoneGaveUp(start, lane, init) && !GivesUpInside(s, ReceiveStep(s, lane, es[|es| - 1]))
  {
    hide ReceiveStep, GivesUpInside, ReceiveRun;
    var init := es[..|es| - 1];
    assert forall i {:trigger es[i]} :: 0 <= i < |init| ==> init[..i] == es[..i] && init[i] == es[i];
  }

  /** A session is on a frame boundary of its own reading exactly as long as no receive has given up inside
      what it was reading; and there every receive begins behind whole frames. */
  lemma {:induction false} AlignedExactly(start: Inbox, lane: Lane, es: seq<ReceiveEvent>)
    requires Fresh(start)
    ensures var s := ReceiveRun(start, lane, es);
      && (s.alignment == Aligned <==> NoneGaveUp(start, lane, es))
      && (s.alignment == Aligned ==> OnBoundary(Behind(s), s.base))
      && (s.lock.None? ==> Behind(s) == s.core.delivered)
  {
    hide ReceiveStep, Fresh, GivesUpInside, NoneGaveUp, ReceiveInv, OnBoundary;
    ReceiveRunInv(start, lane, es);
    StartIsHere(ReceiveRun(start, lane, es));
    if es == [] {
      FreshAligned(start);
      assert NoneGaveUp(start, lane, es) by { NoStepsNoneGaveUp(start, lane); }
    } else {
      var init := es[..|es| - 1];
      AlignedExactly(start, lane, init);
      ReceiveRunInv(start, lane, init);
      StepAligned(ReceiveRun(start, lane, init), lane, es[|es| - 1]);
      NoneGaveUpSnoc(start, lane, es);
    }
  }

  lemma NoStepsNoneGaveUp(start: Inbox, lane: Lane)
    ensures NoneGaveUp(start, lane, [])
  {
  }

  lemma FreshAligned(start: Inbox)
    requires Fresh(start)
    ensures start.alignment == Aligned
  {
  }

  lemma StartIsHere(s: Inbox)
    requires ReceiveInv(s)
    ensures s.lock.None? ==> Behind(s) == s.core.delivered
    ensures s.alignment == Aligned ==> OnBoundary(Behind(s), s.base)
  {
    hide EncodeFrames, Framable, Inv, LockInv;
    assert s.alignment == Aligned ==> AllFramable(s.taken);
  }

  // ------------------------------------------------------------------ runs in pieces

  lemma {:induction false} ReceiveRunAppend(s: Inbox, lane: Lane, es: seq<ReceiveEvent>, more: seq<ReceiveEvent>)
    ensures ReceiveRun(s, lane, es + more) == ReceiveRun(ReceiveRun(s, lane, es), lane, more)
  {
    hide ReceiveStep;
    if more == [] {
      assert es + more == es;
    } else {
      assert (es + more)[..|es + more| - 1] == es + more[..|more| - 1];
      ReceiveRunAppend(s, lane, es, more[..|more| - 1]);
    }
  }

  lemma ReceiveRunSnoc(s: Inbox, lane: Lane, es: seq<ReceiveEvent>, e: ReceiveEvent)
    ensures ReceiveRun(s, lane, es + [e]) == ReceiveStep(ReceiveRun(s, lane, es), lane, e)
  {
    assert (es + [e])[..|es|] == es;
  }

  function Lift(es: seq<Event>): seq<ReceiveEvent> {
    if es == [] then [] else Lift(es[..|es| - 1]) + [Core(es[|es| - 1])]
  }

  /** Core events that neither start a receive nor drop a call. */
  predicate Mild(e: Event) {
    e.By? ==> !e.action.Drop? && (e.action.Begin? ==> !e.action.call.Receive?)
  }

  lemma MildStep(s: Inbox, lane: Lane, e: Event)
    requires Mild(e)
    ensures ReceiveStep(s, lane, Core(e)) == WithCore(s, Step(s.core, e))
  {
  }

  lemma {:induction false} MildRun(s: Inbox, lane: Lane, es: seq<Event>)
    requires forall i :: 0 <= i < |es| ==> Mild(es[i])
    ensures ReceiveRun(s, lane, Lift(es)) == WithCore(s, RunFrom(s.core, es))
  {
    hide ReceiveStep, Step, Mild;
    if es != [] {
      var init, e := es[..|es| - 1], es[|es| - 1];
      MildRun(s, lane, init);
      ReceiveRunSnoc(s, lane, Lift(init), Core(e));
      MildStep(ReceiveRun(s, lane, Lift(init)), lane, e);
    }
  }

  // ------------------------------------------------------------------ one chunk

  predicate Readable(flags: set<Flag>) {
    Closed !in flags && Paused !in flags && ReadShut !in flags && PeerEof !in flags && SlotEmpty !in flags
  }

  predicate Checks(pc: Point) {
    pc.LoadEof? || pc.LoadClosed? || pc.LoadPaused? || pc.LoadShut? || pc == FetchClosed || pc == FetchSlot
  }

  function NextCheck(pc: Point): Point {
    match pc
    case LoadEof(pass) => LoadClosed(pass)
    case LoadClosed(pass) => LoadPaused(pass)
    case LoadPaused(pass) => LoadShut(pass)
    case LoadShut(pass) => if pass == First then AwaitGate else FetchClosed
    case FetchClosed => FetchSlot
    case _ => AwaitIo
  }

  predicate Outside(pc: Point) {
    pc == AwaitGate || pc == LoadEof(First) || pc == LoadClosed(First) || pc == LoadPaused(First) || pc == LoadShut(First)
  }

  /** `t` is `s` after the receive `op` has been carried to `pc` on a readable connection. */
  predicate CarriedTo(s: State, t: State, op: OpId, pc: Point) {
    && Readable(s.flags) && s.readGate.None? && op in s.ops && s.ops[op].call.Receive?
    && t.flags == s.flags && t.incoming == s.incoming && t.delivered == s.delivered && t.ops.Keys == s.ops.Keys
    && t.ops[op].call == s.ops[op].call && t.ops[op].pc == pc
    && t.readGate == if Outside(pc) then None else Some(op)
  }

  lemma CarryTick(s: State, t: State, op: OpId, pc: Point)
    requires CarriedTo(s, t, op, pc) && Checks(pc)
    ensures CarriedTo(s, Step(t, By(op, Tick)), op, NextCheck(pc))
  {
  }

  lemma CarryGate(s: State, t: State, op: OpId)
    requires CarriedTo(s, t, op, AwaitGate)
    ensures CarriedTo(s, Step(t, By(op, TakeGate)), op, LoadEof(Again))
  {
  }

  function Ticks(op: OpId, count: nat): seq<Event> {
    if count == 0 then [] else Ticks(op, count - 1) + [By(op, Tick)]
  }

  function CheckAfter(pc: Point, count: nat): Point {
    if count == 0 then pc else NextCheck(CheckAfter(pc, count - 1))
  }

  lemma {:induction false} CarryTicks(s: State, t: State, op: OpId, pc: Point, count: nat)
    requires CarriedTo(s, t, op, pc)
    requires forall k: nat :: k < count ==> Checks(CheckAfter(pc, k))
    ensures CarriedTo(s, RunFrom(t, Ticks(op, count)), op, CheckAfter(pc, count))
  {
    hide Step, CarriedTo, Checks, NextCheck;
    if count > 0 {
      CarryTicks(s, t, op, pc, count - 1);
      CarryTick(s, RunFrom(t, Ticks(op, count - 1)), op, CheckAfter(pc, count - 1));
      assert Ticks(op, count)[..|Ticks(op, count)| - 1] == Ticks(op, count - 1);
    }
  }

  /** From its first check to the operating system. */
  function ToRead(op: OpId): seq<Event> {
    Ticks(op, 4) + [By(op, TakeGate)] + Ticks(op, 6)
  }

  lemma FourChecks()
    ensures forall k: nat :: k < 4 ==> Checks(CheckAfter(LoadEof(First), k))
    ensures CheckAfter(LoadEof(First), 4) == AwaitGate
  {
    var pc := LoadEof(First);
    assert CheckAfter(pc, 1) == LoadClosed(First) && CheckAfter(pc, 2) == LoadPaused(First);
    assert CheckAfter(pc, 3) == LoadShut(First);
  }

  lemma SixChecks()
    ensures forall k: nat :: k < 6 ==> Checks(CheckAfter(LoadEof(Again), k))
    ensures CheckAfter(LoadEof(Again), 6) == AwaitIo
  {
    var pc := LoadEof(Again);
    assert CheckAfter(pc, 1) == LoadClosed(Again) && CheckAfter(pc, 2) == LoadPaused(Again);
    assert CheckAfter(pc, 3) == LoadShut(Again) && CheckAfter(pc, 4) == FetchClosed && CheckAfter(pc, 5) == FetchSlot;
  }

  lemma ReachesRead(s: State, op: OpId)
    requires CarriedTo(s, s, op, LoadEof(First))
    ensures CarriedTo(s, RunFrom(s, ToRead(op)), op, AwaitIo)
  {
    hide Step, CarriedTo, RunFrom, Ticks, Checks, CheckAfter;
    FourChecks();
    SixChecks();
    CarryTicks(s, s, op, LoadEof(First), 4);
    var gate := Ticks(op, 4) + [By(op, TakeGate)];
    CarryGate(s, RunFrom(s, Ticks(op, 4)), op);
    W.RunFromSnoc(s, Ticks(op, 4), By(op, TakeGate));
    CarryTicks(s, RunFrom(s, gate), op, LoadEof(Again), 6);
    W.RunFromAppend(s, gate, Ticks(op, 6));
  }

  /** The lock holder is about to ask for more, and a read would find everything open. */
  predicate Asking(s: Inbox, id: ReceiveId, op: OpId, count: nat) {
    && Holds(s, id) && s.receives[id].op.None? && op !in s.core.ops
    && Readable(s.core.flags) && s.core.readGate.None?
    && 0 < count <= s.receives[id].size - |s.receives[id].buffer|
    && |s.core.delivered| + count <= |s.core.incoming|
  }

  /** `t` is `s` with a core receive begun. */
  predicate Asked(s: Inbox, t: Inbox, id: ReceiveId, op: OpId)
    requires id in s.receives && s.receives[id].Reading?
  {
    var point := s.receives[id];
    && t == s.(core := t.core, receives := s.receives[id := Reading(point.phase, point.size, point.buffer, Some(op))])
    && t.core.flags == s.core.flags && t.core.incoming == s.core.incoming
    && t.core.ops.Keys == s.core.ops.Keys + {op}
  }

  lemma Asks(s: Inbox, lane: Lane, id: ReceiveId, op: OpId)
    requires Holds(s, id) && s.receives[id].op.None? && op !in s.core.ops && |s.receives[id].buffer| < s.receives[id].size
    ensures var t := ReceiveStep(s, lane, Issue(id, op));
      && Asked(s, t, id, op) && t.core.delivered == s.core.delivered && t.core.readGate == s.core.readGate
      && t.core.ops[op] == Op(Receive(s.receives[id].size - |s.receives[id].buffer|), LoadEof(First), 0, {})
  {
  }

  function ChunkEvents(id: ReceiveId, op: OpId, count: nat): seq<ReceiveEvent> {
    [Issue(id, op)] + Lift(Way(op, count))
  }

  lemma MildWay(op: OpId, count: nat)
    ensures forall i :: 0 <= i < |Way(op, count)| ==> Mild(Way(op, count)[i])
  {
    MildTicks(op, 4);
    MildTicks(op, 6);
  }

  lemma {:induction false} MildTicks(op: OpId, count: nat)
    ensures forall i :: 0 <= i < |Ticks(op, count)| ==> Mild(Ticks(op, count)[i])
  {
    if count > 0 {
      MildTicks(op, count - 1);
    }
  }

  lemma ReadsAt(s: State, t: State, op: OpId, count: nat)
    requires CarriedTo(s, t, op, AwaitIo) && 0 < count <= s.ops[op].call.cap && |s.delivered| + count <= |s.incoming|
    ensures var u := Step(t, By(op, IoRead(count)));
      var chunk := s.incoming[|s.delivered|..|s.delivered| + count];
      && u.flags == s.flags && u.incoming == s.incoming && u.ops.Keys == s.ops.Keys && u.readGate.None?
      && u.ops[op].pc == Finished(Chunk(chunk)) && u.delivered == s.delivered + chunk
  {
  }

  /** `u` is `s` after a core receive has returned the next `count` bytes. */
  predicate ChunkReturned(s: State, u: State, op: OpId, count: nat) {
    && |s.delivered| + count <= |s.incoming|
    && u.flags == s.flags && u.incoming == s.incoming && u.ops.Keys == s.ops.Keys && u.readGate.None?
    && op in u.ops && u.ops[op].pc == Finished(Chunk(s.incoming[|s.delivered|..|s.delivered| + count]))
    && u.delivered == s.delivered + s.incoming[|s.delivered|..|s.delivered| + count]
  }

  function Way(op: OpId, count: nat): seq<Event> {
    ToRead(op) + [By(op, IoRead(count))]
  }

  lemma CoreReturnsChunk(s: State, op: OpId, count: nat)
    requires CarriedTo(s, s, op, LoadEof(First))
    requires 0 < count <= s.ops[op].call.cap && |s.delivered| + count <= |s.incoming|
    ensures ChunkReturned(s, RunFrom(s, Way(op, count)), op, count)
  {
    hide Step, RunFrom, ToRead;
    ReachesRead(s, op);
    ReadsAt(s, RunFrom(s, ToRead(op)), op, count);
    W.RunFromSnoc(s, ToRead(op), By(op, IoRead(count)));
  }

  /** One round of the loop, up to the chunk that the core hands out. */
  lemma FetchesChunk(s: Inbox, lane: Lane, id: ReceiveId, op: OpId, count: nat)
    requires Asking(s, id, op, count)
    ensures var t := ReceiveRun(s, lane, ChunkEvents(id, op, count));
      Asked(s, t, id, op) && ChunkReturned(s.core.(ops := t.core.ops), t.core, op, count)
  {
    hide ReceiveStep, Step, RunFrom, ReceiveRun, ToRead, Lift, Mild, Way;
    Asks(s, lane, id, op);
    var asked := ReceiveStep(s, lane, Issue(id, op));
    CoreReturnsChunk(asked.core, op, count);
    MildWay(op, count);
    MildRun(asked, lane, Way(op, count));
    ReceiveRunOne(s, lane, Issue(id, op));
    ReceiveRunAppend(s, lane, [Issue(id, op)], Lift(Way(op, count)));
  }

  lemma ReceiveRunOne(s: Inbox, lane: Lane, e: ReceiveEvent)
    ensures ReceiveRun(s, lane, [e]) == ReceiveStep(s, lane, e)
  {
    assert [e][..0] == [];
  }

  // ------------------------------------------------------------------ a run that loses it

  const CIPHERTEXT: Bytes := [0, 0, 0, 0, 0, 0, 0, 0, 0, 0, 0, 0, 0, 0, 0, 0]
  const RECORD := Sealed([], CIPHERTEXT)
  const FRAME: Bytes := EncodeFrame(Body(0, CIPHERTEXT))

  const EMPTY := Inbox(Init, None, 0, map[], [], [], [], 0, Aligned)

  lemma RecordBytes()
    ensures |FRAME| == 29 && FRAME[3..7] == [25, 2, 0, 0] && Framable(Body(0, CIPHERTEXT))
    ensures FromBigEndian(FRAME[3..7]) == 0x1902_0000 > MAX_FRAME_SIZE
  {
    assert ToBigEndian(25, 4) == [0, 0, 0, 25];
    assert ToBigEndian(0, 8)[..2] == [0, 0];
    assert FRAME[3..7] == [25, 2, 0, 0];
    SpellsSize();
  }

  lemma SpellsSize()
    ensures FromBigEndian([25, 2, 0, 0]) == 0x1902_0000
  {
    assert [25, 2, 0, 0][..3] == [25, 2, 0] && [25, 2, 0][..2] == [25, 2] && [25, 2][..1] == [25] && [25][..0] == [];
    assert FromBigEndian([25]) == 25;
    assert FromBigEndian([25, 2]) == 0x1902;
    assert FromBigEndian([25, 2, 0]) == 0x19_0200;
  }

  /** The whole honest frame has arrived and `count` bytes of it have been taken. */
  predicate Arrived(s: Inbox, count: nat) {
    && count <= |FRAME| && s.core.incoming == FRAME && s.core.delivered == FRAME[..count]
    && s.core.readGate.None? && s.start <= |s.core.delivered|
  }

  /** What has happened so far, and what is still at its beginning. */
  predicate Scene(s: Inbox, count: nat, flags: set<Flag>, ops: set<OpId>, receives: map<ReceiveId, ReceivePoint>) {
    && Arrived(s, count) && s.core.flags == flags && s.core.ops.Keys == ops && s.receives == receives
    && s.sequence == 0 && s.delivered == [] && s.base == [] && s.taken == []
  }

  lemma {:induction false} EmptyIsFresh()
    ensures Fresh(EMPTY)
  {
    RunInv([]);
  }

  lemma Act1(lane: Lane) returns (es: seq<ReceiveEvent>)
    ensures var s := ReceiveRun(EMPTY, lane, es);
      Scene(s, 0, {}, {}, map[0 := Reading(Header, 4, [], None)]) && s.lock == Some(0)
  {
    hide EncodeFrame;
    RecordBytes();
    var e := [Core(PeerWrites(FRAME))];
    ReceiveRunOne(EMPTY, lane, Core(PeerWrites(FRAME)));
    ReceiveRunSnoc(EMPTY, lane, e, StartReceive(0));
    ReceiveRunSnoc(EMPTY, lane, e + [StartReceive(0)], TakeLock(0));
    es := e + [StartReceive(0)] + [TakeLock(0)];
    assert [] + FRAME == FRAME && FRAME[..0] == [];
  }

  lemma CollectsPart(s: Inbox, lane: Lane, id: ReceiveId, oracle: Oracle, op: OpId, chunk: Bytes)
    requires id in s.receives && s.receives[id] == Reading(Header, 4, [], Some(op)) && s.lock == Some(id)
    requires op in s.core.ops && s.core.ops[op].pc == Finished(Chunk(chunk)) && 0 < |chunk| < 4
    ensures ReceiveStep(s, lane, Collect(id, oracle))
            == s.(receives := s.receives[id := Reading(Header, 4, chunk, None)])
  {
    assert [] + chunk == chunk;
  }

  /** The first receive takes three bytes of the length. */
  lemma Act2(lane: Lane, oracle: Oracle) returns (es: seq<ReceiveEvent>)
    ensures var s := ReceiveRun(EMPTY, lane, es);
      Scene(s, 3, {}, {0}, map[0 := Reading(Header, 4, FRAME[..3], None)]) && s.lock == Some(0)
  {
    hide EncodeFrame, ReceiveStep, ReceiveRun, ChunkEvents;
    RecordBytes();
    var before := Act1(lane);
    var s := ReceiveRun(EMPTY, lane, before);
    FetchesChunk(s, lane, 0, 0, 3);
    ReceiveRunAppend(EMPTY, lane, before, ChunkEvents(0, 0, 3));
    assert FRAME[0..3] == FRAME[..3] && [] + FRAME[..3] == FRAME[..3];
    CollectsPart(ReceiveRun(s, lane, ChunkEvents(0, 0, 3)), lane, 0, oracle, 0, FRAME[..3]);
    ReceiveRunSnoc(EMPTY, lane, before + ChunkEvents(0, 0, 3), Collect(0, oracle));
    es := before + ChunkEvents(0, 0, 3) + [Collect(0, oracle)];
  }

  /** `pause` or `resume`, from its start to its store. */
  function Switch(op: OpId, call: Call): seq<Event> {
    [By(op, Begin(call))] + Ticks(op, 2)
  }

  lemma FewTicks(op: OpId)
    ensures Ticks(op, 2) == [By(op, Tick)] + [By(op, Tick)]
    ensures Ticks(op, 3) == [By(op, Tick)] + [By(op, Tick)] + [By(op, Tick)]
  {
    assert Ticks(op, 1) == [By(op, Tick)];
    assert Ticks(op, 2) == Ticks(op, 1) + [By(op, Tick)];
  }

  lemma SwitchBegins(core: State, op: OpId, call: Call)
    requires (call.Pause? || call.Resume?) && op !in core.ops && Closed !in core.flags
    ensures var t := Step(Step(core, By(op, Begin(call))), By(op, Tick));
      t == core.(ops := t.ops) && t.ops.Keys == core.ops.Keys + {op}
      && t.ops[op] == Op(call, if call.Pause? then StorePause else StoreResume, 0, {})
  {
    var s := Step(core, By(op, Begin(call)));
    assert s == Update(core, op, Op(call, LoadClosed(First), 0, {}));
  }

  lemma SwitchStores(core: State, op: OpId, call: Call)
    requires (call.Pause? || call.Resume?) && op in core.ops && core.readGate.None?
    requires core.ops[op] == Op(call, if call.Pause? then StorePause else StoreResume, 0, {})
    ensures var t := Step(core, By(op, Tick));
      && t.flags == (if call.Pause? then core.flags + {Paused} else core.flags - {Paused})
      && t.ops.Keys == core.ops.Keys && t.incoming == core.incoming && t.delivered == core.delivered
      && t.readGate.None?
  {
  }

  lemma Switches(core: State, op: OpId, call: Call)
    requires (call.Pause? || call.Resume?) && op !in core.ops && Closed !in core.flags && core.readGate.None?
    ensures var t := RunFrom(core, Switch(op, call));
      && t.flags == (if call.Pause? then core.flags + {Paused} else core.flags - {Paused})
      && t.ops.Keys == core.ops.Keys + {op} && t.incoming == core.incoming && t.delivered == core.delivered
      && t.readGate.None?
  {
    hide RunFrom, Ticks, Step;
    var begin, tick := By(op, Begin(call)), By(op, Tick);
    SwitchBegins(core, op, call);
    SwitchStores(Step(Step(core, begin), tick), op, call);
    W.RunFromOne(core, begin);
    W.RunFromSnoc(core, [begin], tick);
    W.RunFromSnoc(core, [begin] + [tick], tick);
    FewTicks(op);
    assert Switch(op, call) == [begin] + [tick] + [tick];
  }

  lemma SwitchesScene(s: Inbox, lane: Lane, op: OpId, call: Call)
    requires (call.Pause? || call.Resume?) && op !in s.core.ops && Closed !in s.core.flags && s.core.readGate.None?
    ensures var t := ReceiveRun(s, lane, Lift(Switch(op, call)));
      && t == s.(core := t.core) && t.core.readGate.None?
      && t.core.flags == (if call.Pause? then s.core.flags + {Paused} else s.core.flags - {Paused})
      && t.core.ops.Keys == s.core.ops.Keys + {op}
      && t.core.incoming == s.core.incoming && t.core.delivered == s.core.delivered
  {
    hide RunFrom, ReceiveRun;
    Switches(s.core, op, call);
    MildTicks(op, 2);
    MildRun(s, lane, Switch(op, call));
  }

  /** On a paused connection a core receive is refused after three loads. */
  lemma RefusedWhilePaused(core: State, op: OpId)
    requires op in core.ops && core.ops[op].call.Receive? && core.ops[op].pc == LoadEof(First)
    requires core.flags == {Paused} && core.readGate.None?
    ensures var t := RunFrom(core, Ticks(op, 3));
      && t.flags == core.flags && t.ops.Keys == core.ops.Keys && t.incoming == core.incoming
      && t.delivered == core.delivered && t.readGate.None? && t.ops[op].pc == Finished(Refused(IsPaused))
  {
    hide RunFrom, Ticks;
    var tick := By(op, Tick);
    W.RunFromOne(core, tick);
    W.RunFromSnoc(core, [tick], tick);
    W.RunFromSnoc(core, [tick] + [tick], tick);
    FewTicks(op);
  }

  /** The loop asks for the rest, is refused, and the receive gives up. */
  lemma GivesUp(s: Inbox, lane: Lane, id: ReceiveId, oracle: Oracle, op: OpId)
    requires Holds(s, id) && s.receives[id].op.None? && op !in s.core.ops && s.lock == Some(id)
    requires |s.receives[id].buffer| < s.receives[id].size
    requires s.core.flags == {Paused} && s.core.readGate.None?
    ensures var t := ReceiveRun(s, lane, [Issue(id, op)] + Lift(Ticks(op, 3)) + [Collect(id, oracle)]);
      && t.core.flags == s.core.flags && t.core.ops.Keys == s.core.ops.Keys + {op}
      && t.core.incoming == s.core.incoming && t.core.delivered == s.core.delivered && t.core.readGate.None?
      && t.receives == s.receives[id := ReceivePoint.Returned(TransportError)]
      && t.lock.None? && t.start == |s.core.delivered|
      && t.sequence == s.sequence && t.delivered == s.delivered && t.base == s.base && t.taken == s.taken
  {
    hide ReceiveStep, ReceiveRun, RunFrom, Lift, Ticks;
    Asks(s, lane, id, op);
    var asked := ReceiveStep(s, lane, Issue(id, op));
    RefusedWhilePaused(asked.core, op);
    MildTicks(op, 3);
    MildRun(asked, lane, Ticks(op, 3));
    ReceiveRunOne(s, lane, Issue(id, op));
    ReceiveRunAppend(s, lane, [Issue(id, op)], Lift(Ticks(op, 3)));
    CollectsRefusal(ReceiveRun(asked, lane, Lift(Ticks(op, 3))), lane, id, oracle, op);
    ReceiveRunSnoc(s, lane, [Issue(id, op)] + Lift(Ticks(op, 3)), Collect(id, oracle));
  }

  lemma CollectsRefusal(s: Inbox, lane: Lane, id: ReceiveId, oracle: Oracle, op: OpId)
    requires id in s.receives && s.receives[id].Reading? && s.receives[id].op == Some(op) && s.lock == Some(id)
    requires op in s.core.ops && s.core.ops[op].pc == Finished(Refused(IsPaused))
    ensures ReceiveStep(s, lane, Collect(id, oracle)) == Fail(s, id, TransportError)
  {
  }

  /** The connection is paused, and the receive gives up. */
  lemma Act3(lane: Lane, oracle: Oracle) returns (es: seq<ReceiveEvent>)
    ensures var s := ReceiveRun(EMPTY, lane, es);
      && Scene(s, 3, {Paused}, {0, 1, 2}, map[0 := ReceivePoint.Returned(TransportError)])
      && s.lock.None? && s.start == 3
  {
    hide EncodeFrame, ReceiveStep, ReceiveRun, RunFrom, Lift, Switch, Ticks;
    RecordBytes();
    var before := Act2(lane, oracle);
    var s := ReceiveRun(EMPTY, lane, before);
    SwitchesScene(s, lane, 1, Pause);
    var refused := [Issue(0, 2)] + Lift(Ticks(2, 3)) + [Collect(0, oracle)];
    ReceiveRunAppend(EMPTY, lane, before, Lift(Switch(1, Pause)));
    GivesUp(ReceiveRun(s, lane, Lift(Switch(1, Pause))), lane, 0, oracle, 2);
    ReceiveRunAppend(EMPTY, lane, before + Lift(Switch(1, Pause)), refused);
    es := before + Lift(Switch(1, Pause)) + refused;
  }

  lemma TakesLock(s: Inbox, lane: Lane, id: ReceiveId)
    requires s.lock.None? && id !in s.receives
    ensures ReceiveStep(ReceiveStep(s, lane, StartReceive(id)), lane, TakeLock(id))
            == s.(lock := Some(id), receives := s.receives[id := Reading(Header, 4, [], None)])
  {
    assert s.receives[id := AwaitLock][id := Reading(Header, 4, [], None)]
        == s.receives[id := Reading(Header, 4, [], None)];
  }

  /** The connection is resumed, and a second receive begins where the first one stopped. */
  lemma Act4(lane: Lane, oracle: Oracle) returns (es: seq<ReceiveEvent>)
    ensures var s := ReceiveRun(EMPTY, lane, es);
      && Scene(s, 3, {}, {0, 1, 2, 3},
               map[0 := ReceivePoint.Returned(TransportError), 1 := Reading(Header, 4, [], None)])
      && s.lock == Some(1)
  {
    hide EncodeFrame, ReceiveStep, ReceiveRun, RunFrom, Lift, Switch, Ticks;
    var before := Act3(lane, oracle);
    var s := ReceiveRun(EMPTY, lane, before);
    SwitchesScene(s, lane, 3, Resume);
    ReceiveRunAppend(EMPTY, lane, before, Lift(Switch(3, Resume)));
    var upTo := before + Lift(Switch(3, Resume));
    TakesLock(ReceiveRun(EMPTY, lane, upTo), lane, 1);
    ReceiveRunSnoc(EMPTY, lane, upTo, StartReceive(1));
    ReceiveRunSnoc(EMPTY, lane, upTo + [StartReceive(1)], TakeLock(1));
    es := upTo + [StartReceive(1)] + [TakeLock(1)];
  }

  lemma CollectsBadLength(s: Inbox, lane: Lane, id: ReceiveId, oracle: Oracle, op: OpId, chunk: Bytes)
    requires id in s.receives && s.receives[id] == Reading(Header, 4, [], Some(op)) && s.lock == Some(id)
    requires op in s.core.ops && s.core.ops[op].pc == Finished(Chunk(chunk)) && |chunk| == 4
    requires FromBigEndian(chunk) > MAX_FRAME_SIZE
    ensures ReceiveStep(s, lane, Collect(id, oracle)) == Fail(s, id, BadLength(FromBigEndian(chunk)))
  {
    assert [] + chunk == chunk;
  }

  /**
   The peer's one frame has arrived whole and would open. A receive reads three bytes of it and returns an
   error because the connection is paused; after the resume the next receive rejects the rest, before the
   cipher is asked. Nothing was closed, dropped or forged.
   */
  lemma PausedReceiveLosesBoundary(lane: Lane) returns (es: seq<ReceiveEvent>)
    ensures Fresh(EMPTY) && ParseFrame(FRAME) == Frame(Body(0, CIPHERTEXT), [])
    ensures Open(SealedIn(lane, [RECORD]), lane, 0, Body(0, CIPHERTEXT)) == Ok(RECORD.plain)
    ensures var s := ReceiveRun(EMPTY, lane, es);
      && s.core.incoming == FRAME && s.core.flags == {}
      && s.receives == map[0 := ReceivePoint.Returned(TransportError), 1 := ReceivePoint.Returned(BadLength(0x1902_0000))]
  {
    hide EncodeFrame, ReceiveStep, ReceiveRun, ChunkEvents, Fresh, Open, SealedIn;
    RecordBytes();
    EmptyIsFresh();
    HonestFrame(lane);
    var oracle := SealedIn(lane, [RECORD]);
    var before := Act4(lane, oracle);
    var s := ReceiveRun(EMPTY, lane, before);
    FetchesChunk(s, lane, 1, 4, 4);
    ReceiveRunAppend(EMPTY, lane, before, ChunkEvents(1, 4, 4));
    CollectsBadLength(ReceiveRun(s, lane, ChunkEvents(1, 4, 4)), lane, 1, oracle, 4, FRAME[3..7]);
    ReceiveRunSnoc(EMPTY, lane, before + ChunkEvents(1, 4, 4), Collect(1, oracle));
    es := before + ChunkEvents(1, 4, 4) + [Collect(1, oracle)];
  }

  lemma HonestFrame(lane: Lane)
    ensures ParseFrame(FRAME) == Frame(Body(0, CIPHERTEXT), [])
    ensures Open(SealedIn(lane, [RECORD]), lane, 0, Body(0, CIPHERTEXT)) == Ok(RECORD.plain)
  {
    hide ParseFrame, Open, SealedIn, EncodeFrame;
    RecordBytes();
    ParseEncoded(Body(0, CIPHERTEXT), []);
    assert FRAME + [] == FRAME;
    RecordHasEntry(lane, [RECORD], 0);
    OpenSealed(SealedIn(lane, [RECORD]), lane, 0, 0, RECORD.plain, CIPHERTEXT);
  }
}
