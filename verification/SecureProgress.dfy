/**
 Secure sends and receives that come through. The prefix theorems say what can never go wrong; here are the
 other halves: a frame is put together from any chunks it arrives in, a message goes out in any pieces the
 operating system takes, and every error that a secure call returns has its cause outside the loop.
 */
module SecureProgress {
  import opened ByteStrings
  import opened Wrappers
  import opened Transport
  import opened TransportSafety
  import opened Protocol
  import opened Framing
  import opened SecureRecords
  import opened Receiver
  import F = FrameBoundary
  import C = CallResults
  import W = WireGrowth

  function Sum(counts: seq<nat>): nat {
    if counts == [] then 0 else Sum(counts[..|counts| - 1]) + counts[|counts| - 1]
  }

  predicate Positive(counts: seq<nat>) {
    forall i :: 0 <= i < |counts| ==> counts[i] > 0
  }

  // ------------------------------------------------------------------ a receive, chunk by chunk

  /** One round of the reading loop: ask the core, get a chunk of `count` bytes, look at it. */
  function Round(id: ReceiveId, op: OpId, count: nat, oracle: Oracle): seq<ReceiveEvent> {
    F.ChunkEvents(id, op, count) + [Collect(id, oracle)]
  }

  function Rounds(id: ReceiveId, first: OpId, counts: seq<nat>, oracle: Oracle): seq<ReceiveEvent> {
    if counts == [] then []
    else
      var n := |counts| - 1;
      Rounds(id, first, counts[..n], oracle) + Round(id, first + n, counts[n], oracle)
  }

  /** Receive `id` holds the lock between two rounds, and core calls are numbered from `first` on. */
  predicate Between(s: Inbox, id: ReceiveId, first: OpId, phase: Phase, size: nat, buffer: Bytes) {
    && s.lock == Some(id) && id in s.receives && s.receives[id] == Reading(phase, size, buffer, None)
    && F.Readable(s.core.flags) && s.core.readGate.None?
    && (forall op :: op in s.core.ops ==> op < first)
  }

  /** The next `count` bytes of the stream, if they have arrived. */
  function Next(core: State, count: nat): Bytes {
    if |core.delivered| + count <= |core.incoming| then core.incoming[|core.delivered|..|core.delivered| + count] else []
  }

  /** `t` is `s` after receive `id` alone has moved and `bytes` have been taken off the stream. */
  predicate Took(s: Inbox, t: Inbox, id: ReceiveId, bytes: Bytes) {
    && t.core.incoming == s.core.incoming && t.core.flags == s.core.flags
    && t.core.delivered == s.core.delivered + bytes
    && t.receives.Keys == s.receives.Keys + {id}
    && (forall other :: other in s.receives && other != id ==> t.receives[other] == s.receives[other])
    && t.base == s.base
  }

  /** Nothing has been opened, rejected or given up. */
  predicate SameRecords(s: Inbox, t: Inbox) {
    t.sequence == s.sequence && t.delivered == s.delivered && t.taken == s.taken && t.alignment == s.alignment
    && t.start == s.start
  }

  lemma RoundFetches(s: Inbox, lane: Lane, id: ReceiveId, first: OpId, phase: Phase, size: nat, buffer: Bytes,
                     count: nat, oracle: Oracle)
    requires Between(s, id, first, phase, size, buffer) && 0 < count <= size - |buffer|
    requires |s.core.delivered| + count <= |s.core.incoming|
    ensures var a := ReceiveRun(s, lane, F.ChunkEvents(id, first, count));
      && ReceiveRun(s, lane, Round(id, first, count, oracle)) == ReceiveStep(a, lane, Collect(id, oracle))
      && a == s.(core := a.core, receives := s.receives[id := Reading(phase, size, buffer, Some(first))])
      && a.core.ops.Keys == s.core.ops.Keys + {first} && a.core.readGate.None? && a.core.flags == s.core.flags
      && a.core.incoming == s.core.incoming && a.core.delivered == s.core.delivered + Next(s.core, count)
      && a.core.ops[first].pc == Finished(Chunk(Next(s.core, count)))
      && Took(s, a, id, Next(s.core, count)) && SameRecords(s, a)
  {
    hide ReceiveStep, F.ChunkEvents, ReceiveRun;
    assert first !in s.core.ops;
    F.FetchesChunk(s, lane, id, first, count);
    F.ReceiveRunSnoc(s, lane, F.ChunkEvents(id, first, count), Collect(id, oracle));
  }

  /** A chunk that leaves the wanted bytes incomplete is kept, and the loop goes on. */
  lemma CollectKeepsOn(a: Inbox, lane: Lane, id: ReceiveId, op: OpId, oracle: Oracle, phase: Phase, size: nat,
                       buffer: Bytes, chunk: Bytes)
    requires a.lock == Some(id) && id in a.receives && a.receives[id] == Reading(phase, size, buffer, Some(op))
    requires op in a.core.ops && a.core.ops[op].pc == Finished(Chunk(chunk)) && chunk != []
    requires |buffer + chunk| < size
    ensures ReceiveStep(a, lane, Collect(id, oracle))
            == a.(receives := a.receives[id := Reading(phase, size, buffer + chunk, None)])
  {
  }

  lemma KeepsOn(s: Inbox, lane: Lane, id: ReceiveId, first: OpId, phase: Phase, size: nat, buffer: Bytes,
                count: nat, oracle: Oracle)
    requires Between(s, id, first, phase, size, buffer) && 0 < count < size - |buffer|
    requires |s.core.delivered| + count <= |s.core.incoming|
    ensures var t := ReceiveRun(s, lane, Round(id, first, count, oracle));
      && Between(t, id, first + 1, phase, size, buffer + Next(s.core, count))
      && Took(s, t, id, Next(s.core, count)) && SameRecords(s, t)
  {
    hide ReceiveStep, Round, ReceiveRun;
    RoundFetches(s, lane, id, first, phase, size, buffer, count, oracle);
    var a := ReceiveRun(s, lane, F.ChunkEvents(id, first, count));
    CollectKeepsOn(a, lane, id, first, oracle, phase, size, buffer, Next(s.core, count));
  }

  /** Two pieces of the stream, one after the other. */
  lemma NextTwo(s: State, t: State, n: nat, m: nat)
    requires |s.delivered| + n + m <= |s.incoming|
    requires t.incoming == s.incoming && t.delivered == s.delivered + Next(s, n)
    ensures Next(s, n + m) == Next(s, n) + Next(t, m)
  {
  }

  lemma {:induction false} KeepsOnAndOn(s: Inbox, lane: Lane, id: ReceiveId, first: OpId, phase: Phase, size: nat,
                                        buffer: Bytes, counts: seq<nat>, oracle: Oracle)
    requires Between(s, id, first, phase, size, buffer) && Positive(counts) && Sum(counts) < size - |buffer|
    requires |s.core.delivered| + Sum(counts) <= |s.core.incoming|
    ensures var t := ReceiveRun(s, lane, Rounds(id, first, counts, oracle));
      && Between(t, id, first + |counts|, phase, size, buffer + Next(s.core, Sum(counts)))
      && Took(s, t, id, Next(s.core, Sum(counts))) && SameRecords(s, t)
  {
    hide ReceiveStep, Round, ReceiveRun, Between, Took, SameRecords, Next;
    if counts == [] {
      NoRounds(s, lane, id, first, phase, size, buffer, oracle);
    } else {
      var n := |counts| - 1;
      KeepsOnAndOn(s, lane, id, first, phase, size, buffer, counts[..n], oracle);
      var t := ReceiveRun(s, lane, Rounds(id, first, counts[..n], oracle));
      TookCounts(s, t, id, Sum(counts[..n]));
      KeepsOn(t, lane, id, first + n, phase, size, buffer + Next(s.core, Sum(counts[..n])), counts[n], oracle);
      F.ReceiveRunAppend(s, lane, Rounds(id, first, counts[..n], oracle), Round(id, first + n, counts[n], oracle));
      var u := ReceiveRun(s, lane, Rounds(id, first, counts, oracle));
      TookTwice(s, t, u, id, Sum(counts[..n]), counts[n]);
      Associative(buffer, Next(s.core, Sum(counts[..n])), Next(t.core, counts[n]));
    }
  }

  lemma NoRounds(s: Inbox, lane: Lane, id: ReceiveId, first: OpId, phase: Phase, size: nat, buffer: Bytes, oracle: Oracle)
    requires Between(s, id, first, phase, size, buffer)
    ensures ReceiveRun(s, lane, []) == s && Between(s, id, first, phase, size, buffer + Next(s.core, 0))
    ensures Took(s, s, id, Next(s.core, 0)) && SameRecords(s, s)
  {
    assert buffer + [] == buffer && s.core.delivered + [] == s.core.delivered;
  }

  lemma TookCounts(s: Inbox, t: Inbox, id: ReceiveId, n: nat)
    requires Took(s, t, id, Next(s.core, n)) && |s.core.delivered| + n <= |s.core.incoming|
    ensures |t.core.delivered| == |s.core.delivered| + n && t.core.incoming == s.core.incoming && |Next(s.core, n)| == n
  {
  }

  lemma TookTwice(s: Inbox, t: Inbox, u: Inbox, id: ReceiveId, n: nat, m: nat)
    requires Took(s, t, id, Next(s.core, n)) && Took(t, u, id, Next(t.core, m)) && SameRecords(s, t) && SameRecords(t, u)
    requires |s.core.delivered| + n + m <= |s.core.incoming|
    ensures Took(s, u, id, Next(s.core, n + m)) && SameRecords(s, u) && Next(s.core, n + m) == Next(s.core, n) + Next(t.core, m)
  {
    NextTwo(s.core, t.core, n, m);
    Associative(s.core.delivered, Next(s.core, n), Next(t.core, m));
  }

  /** The chunk that completes the length starts the body; the one that completes the body opens the frame. */
  lemma CollectCompletes(a: Inbox, lane: Lane, id: ReceiveId, op: OpId, oracle: Oracle, phase: Phase, size: nat,
                         buffer: Bytes, chunk: Bytes)
    requires a.lock == Some(id) && id in a.receives && a.receives[id] == Reading(phase, size, buffer, Some(op))
    requires op in a.core.ops && a.core.ops[op].pc == Finished(Chunk(chunk)) && chunk != []
    requires |buffer + chunk| == size
    ensures phase == Header && 0 < FromBigEndian(buffer + chunk) <= MAX_FRAME_SIZE ==>
      ReceiveStep(a, lane, Collect(id, oracle))
      == a.(receives := a.receives[id := Reading(Payload, FromBigEndian(buffer + chunk), [], None)])
    ensures phase == Payload ==>
      ReceiveStep(a, lane, Collect(id, oracle)) == Deliver(a, id, oracle, lane, buffer + chunk)
  {
  }

  /** Rounds that fill what is wanted exactly, up to the last chunk but before the loop looks at it. */
  lemma Fills(s: Inbox, lane: Lane, id: ReceiveId, first: OpId, phase: Phase, size: nat, counts: seq<nat>, oracle: Oracle)
    returns (a: Inbox, buffer: Bytes, chunk: Bytes, op: OpId)
    requires Between(s, id, first, phase, size, []) && Positive(counts) && Sum(counts) == size > 0
    requires |s.core.delivered| + size <= |s.core.incoming|
    ensures ReceiveRun(s, lane, Rounds(id, first, counts, oracle)) == ReceiveStep(a, lane, Collect(id, oracle))
    ensures Took(s, a, id, Next(s.core, size)) && SameRecords(s, a) && a.lock == Some(id)
    ensures a.receives[id] == Reading(phase, size, buffer, Some(op)) && op in a.core.ops
    ensures a.core.ops[op].pc == Finished(Chunk(chunk)) && chunk != [] && buffer + chunk == Next(s.core, size)
    ensures a.core.readGate.None? && forall op :: op in a.core.ops ==> op < first + |counts|
  {
    hide ReceiveStep, ReceiveRun, F.ChunkEvents, SameRecords, Round, Took, Next;
    var n := |counts| - 1;
    KeepsOnAndOn(s, lane, id, first, phase, size, [], counts[..n], oracle);
    var t := ReceiveRun(s, lane, Rounds(id, first, counts[..n], oracle));
    TookCounts(s, t, id, Sum(counts[..n]));
    buffer, op := [] + Next(s.core, Sum(counts[..n])), first + n;
    RoundFetches(t, lane, id, op, phase, size, buffer, counts[n], oracle);
    F.ReceiveRunAppend(s, lane, Rounds(id, first, counts[..n], oracle), Round(id, op, counts[n], oracle));
    a, chunk := ReceiveRun(t, lane, F.ChunkEvents(id, op, counts[n])), Next(t.core, counts[n]);
    TookCounts(t, a, id, counts[n]);
    TookTwice(s, t, a, id, Sum(counts[..n]), counts[n]);
  }

  lemma HeaderComesThrough(s: Inbox, lane: Lane, id: ReceiveId, first: OpId, counts: seq<nat>, oracle: Oracle, size: nat)
    requires Between(s, id, first, Header, 4, []) && Positive(counts) && Sum(counts) == 4
    requires |s.core.delivered| + 4 <= |s.core.incoming|
    requires FromBigEndian(Next(s.core, 4)) == size && 0 < size <= MAX_FRAME_SIZE
    ensures var t := ReceiveRun(s, lane, Rounds(id, first, counts, oracle));
      Between(t, id, first + |counts|, Payload, size, []) && Took(s, t, id, Next(s.core, 4)) && SameRecords(s, t)
  {
    hide ReceiveStep, ReceiveRun, Rounds;
    var a, buffer, chunk, op := Fills(s, lane, id, first, Header, 4, counts, oracle);
    CollectCompletes(a, lane, id, op, oracle, Header, 4, buffer, chunk);
  }

  lemma BodyComesThrough(s: Inbox, lane: Lane, id: ReceiveId, first: OpId, counts: seq<nat>, oracle: Oracle, frame: Bytes)
    requires Between(s, id, first, Payload, |frame|, []) && Positive(counts) && Sum(counts) == |frame| > 0
    requires |s.core.delivered| + |frame| <= |s.core.incoming| && Next(s.core, |frame|) == frame
    ensures var t := ReceiveRun(s, lane, Rounds(id, first, counts, oracle));
      && t.lock.None? && Took(s, t, id, frame)
      && (match Open(oracle, lane, s.sequence, frame)
          case Ok(plain) =>
            t.receives[id] == Returned(Plain(plain)) && t.sequence == s.sequence + 1 && t.delivered == s.delivered + [plain]
          case Err(error) =>
            t.receives[id] == Returned(BadRecord(error)) && t.sequence == s.sequence && t.delivered == s.delivered)
  {
    hide ReceiveStep, ReceiveRun, Rounds, Open;
    var a, buffer, chunk, op := Fills(s, lane, id, first, Payload, |frame|, counts, oracle);
    CollectCompletes(a, lane, id, op, oracle, Payload, |frame|, buffer, chunk);
  }

  /** A session that nobody is receiving on, on a readable connection. */
  predicate Idle(s: Inbox, id: ReceiveId, first: OpId) {
    && s.lock.None? && id !in s.receives
    && F.Readable(s.core.flags) && s.core.readGate.None?
    && (forall op :: op in s.core.ops ==> op < first)
  }

  lemma Locks(s: Inbox, lane: Lane, id: ReceiveId, first: OpId)
    requires Idle(s, id, first)
    ensures var t := ReceiveRun(s, lane, [StartReceive(id)] + [TakeLock(id)]);
      Between(t, id, first, Header, 4, []) && Took(s, t, id, []) && SameRecords(s, t) && t.core == s.core
  {
    hide ReceiveStep, ReceiveRun;
    F.TakesLock(s, lane, id);
    F.ReceiveRunOne(s, lane, StartReceive(id));
    F.ReceiveRunSnoc(s, lane, [StartReceive(id)], TakeLock(id));
    assert s.core.delivered + [] == s.core.delivered;
  }

  /** The whole of a secure receive whose frame arrives in chunks of these sizes. */
  function WholeReceive(id: ReceiveId, first: OpId, header: seq<nat>, body: seq<nat>, oracle: Oracle): seq<ReceiveEvent> {
    [StartReceive(id)] + [TakeLock(id)] + Rounds(id, first, header, oracle)
    + Rounds(id, first + |header|, body, oracle)
  }

  /**
   A frame is put together. When a frame is next on the stream of an idle, readable session, a receive takes
   exactly this frame, in whatever chunks the operating system hands it out, and returns what opening it at
   the current number says: its plaintext, with the counter moved on by one, or the verdict on the record.
   */
  lemma FrameComesThrough(s: Inbox, lane: Lane, id: ReceiveId, first: OpId, header: seq<nat>, body: seq<nat>,
                          oracle: Oracle, frame: Bytes)
    requires Idle(s, id, first) && Framable(frame) && s.core.delivered + EncodeFrame(frame) <= s.core.incoming
    requires Positive(header) && Sum(header) == 4 && Positive(body) && Sum(body) == |frame|
    ensures var t := ReceiveRun(s, lane, WholeReceive(id, first, header, body, oracle));
      && t.lock.None? && t.core.delivered == s.core.delivered + EncodeFrame(frame)
      && t.core.incoming == s.core.incoming && t.core.flags == s.core.flags
      && t.receives.Keys == s.receives.Keys + {id}
      && (match Open(oracle, lane, s.sequence, frame)
          case Ok(plain) =>
            t.receives[id] == Returned(Plain(plain)) && t.sequence == s.sequence + 1 && t.delivered == s.delivered + [plain]
          case Err(error) =>
            t.receives[id] == Returned(BadRecord(error)) && t.sequence == s.sequence && t.delivered == s.delivered)
  {
    hide ReceiveStep, ReceiveRun, Rounds, Open, EncodeFrame;
    FrameBytes(s.core, frame);
    Locks(s, lane, id, first);
    var start := [StartReceive(id)] + [TakeLock(id)];
    var locked := ReceiveRun(s, lane, start);
    HeaderComesThrough(locked, lane, id, first, header, oracle, |frame|);
    F.ReceiveRunAppend(s, lane, start, Rounds(id, first, header, oracle));
    var sized := ReceiveRun(locked, lane, Rounds(id, first, header, oracle));
    BodyBytes(s.core, sized.core, frame);
    BodyComesThrough(sized, lane, id, first + |header|, body, oracle, frame);
    F.ReceiveRunAppend(s, lane, start + Rounds(id, first, header, oracle), Rounds(id, first + |header|, body, oracle));
  }

  lemma FrameBytes(core: State, frame: Bytes)
    requires Framable(frame) && core.delivered + EncodeFrame(frame) <= core.incoming
    ensures |core.delivered| + 4 + |frame| <= |core.incoming|
    ensures Next(core, 4) == EncodeFrame(frame)[..4] && FromBigEndian(Next(core, 4)) == |frame|
  {
    var d := |core.delivered|;
    assert core.incoming[d..d + 4] == (core.delivered + EncodeFrame(frame))[d..d + 4] == ToBigEndian(|frame|, 4);
    LengthRoundTrip(|frame|);
  }

  lemma BodyBytes(core: State, after: State, frame: Bytes)
    requires Framable(frame) && core.delivered + EncodeFrame(frame) <= core.incoming
    requires after.incoming == core.incoming && after.delivered == core.delivered + Next(core, 4)
    ensures |after.delivered| + |frame| <= |after.incoming| && Next(after, |frame|) == frame
    ensures after.delivered + frame == core.delivered + EncodeFrame(frame)
  {
    FrameBytes(core, frame);
    var d := |core.delivered|;
    assert core.incoming[d + 4..d + 4 + |frame|] == (core.delivered + EncodeFrame(frame))[d + 4..d + 4 + |frame|] == frame;
  }

  // ------------------------------------------------------------------ a receive at the end of the stream

  function EndEvents(id: ReceiveId, op: OpId, oracle: Oracle): seq<ReceiveEvent> {
    [Issue(id, op)] + F.Lift(EndWay(op)) + [Collect(id, oracle)]
  }

  function EndWay(op: OpId): seq<Event> {
    F.ToRead(op) + [By(op, IoRead(0))] + [By(op, Tick)]
  }

  lemma EndWayIsMild(op: OpId)
    ensures forall i :: 0 <= i < |EndWay(op)| ==> F.Mild(EndWay(op)[i])
  {
    F.MildTicks(op, 4);
    F.MildTicks(op, 6);
  }

  lemma ReadsEnd(core: State, t: State, op: OpId)
    requires F.CarriedTo(core, t, op, AwaitIo) && IncomingShut in core.flags && core.delivered == core.incoming
    ensures var u := Step(Step(t, By(op, IoRead(0))), By(op, Tick));
      && op in u.ops && u.ops[op].pc == Finished(Outcome.EndOfStream) && u.delivered == core.delivered
      && PeerEof in u.flags
  {
  }

  /** A core receive that finds the stream drained and shut, from its first check to its return. */
  lemma CoreReturnsEnd(core: State, op: OpId)
    requires F.CarriedTo(core, core, op, LoadEof(First))
    requires IncomingShut in core.flags && core.delivered == core.incoming
    ensures var u := RunFrom(core, EndWay(op));
      && op in u.ops && u.ops[op].pc == Finished(Outcome.EndOfStream) && u.delivered == core.delivered
      && PeerEof in u.flags
  {
    hide Step, RunFrom, F.ToRead;
    F.ReachesRead(core, op);
    ReadsEnd(core, RunFrom(core, F.ToRead(op)), op);
    W.RunFromSnoc(core, F.ToRead(op), By(op, IoRead(0)));
    W.RunFromSnoc(core, F.ToRead(op) + [By(op, IoRead(0))], By(op, Tick));
  }

  lemma CollectsEnd(s: Inbox, lane: Lane, id: ReceiveId, oracle: Oracle, op: OpId)
    requires id in s.receives && s.receives[id].Reading? && s.receives[id].op == Some(op) && s.lock == Some(id)
    requires op in s.core.ops && s.core.ops[op].pc == Finished(Outcome.EndOfStream)
    ensures ReceiveStep(s, lane, Collect(id, oracle)) == Fail(s, id, StreamEnded)
  {
  }

  lemma AsksAtEnd(s: Inbox, lane: Lane, id: ReceiveId, first: OpId)
    requires Between(s, id, first, Header, 4, [])
    ensures var t := ReceiveStep(s, lane, Issue(id, first));
      && F.CarriedTo(t.core, t.core, first, LoadEof(First)) && t.core.delivered == s.core.delivered
      && t.core.incoming == s.core.incoming && t.core.flags == s.core.flags
      && t.lock == s.lock && id in t.receives && t.receives[id] == Reading(Header, 4, [], Some(first))
  {
    hide ReceiveStep;
    assert first !in s.core.ops;
    F.Asks(s, lane, id, first);
  }

  /** With everything read and the incoming side shut, an idle session's next receive reports the end. */
  lemma EndComesThrough(s: Inbox, lane: Lane, id: ReceiveId, first: OpId, oracle: Oracle)
    requires Idle(s, id, first) && IncomingShut in s.core.flags && s.core.delivered == s.core.incoming
    ensures var t := ReceiveRun(s, lane, [StartReceive(id)] + [TakeLock(id)] + EndEvents(id, first, oracle));
      id in t.receives && t.receives[id] == Returned(StreamEnded) && PeerEof in t.core.flags
  {
    hide ReceiveStep, ReceiveRun, RunFrom, EndWay, F.Lift, F.Mild;
    Locks(s, lane, id, first);
    var start := [StartReceive(id)] + [TakeLock(id)];
    var locked := ReceiveRun(s, lane, start);
    AsksAtEnd(locked, lane, id, first);
    var asked := ReceiveStep(locked, lane, Issue(id, first));
    CoreReturnsEnd(asked.core, first);
    EndWayIsMild(first);
    F.MildRun(asked, lane, EndWay(first));
    CollectsEnd(WithCore(asked, RunFrom(asked.core, EndWay(first))), lane, id, oracle, first);
    F.ReceiveRunOne(locked, lane, Issue(id, first));
    F.ReceiveRunAppend(locked, lane, [Issue(id, first)], F.Lift(EndWay(first)));
    F.ReceiveRunSnoc(locked, lane, [Issue(id, first)] + F.Lift(EndWay(first)), Collect(id, oracle));
    F.ReceiveRunAppend(s, lane, start, EndEvents(id, first, oracle));
  }

  // ------------------------------------------------------------------ why a receive returns

  /** What a core receive of the loop can have returned. */
  predicate LoopOutcome(outcome: Outcome) {
    match outcome
    case Chunk(data) => data != []
    case EndOfStream => true
    case Refused(_) => true
    case IoError => true
    case _ => false
  }

  /** The pending core call of the lock holder, if it has returned, has returned one of these. */
  predicate CallIsGood(s: Inbox) {
    Active(s) && Holder(s).op.Some? && Holder(s).op.value in s.core.ops ==>
      var pc := s.core.ops[Holder(s).op.value].pc;
      pc.Finished? ==> LoopOutcome(pc.outcome)
  }

  lemma CoreOutcome(core: State, op: OpId, e: Event)
    requires Inv(core) && Enabled(core, e) && op in core.ops && core.ops[op].call.Receive?
    requires core.ops[op].pc.Finished? ==> LoopOutcome(core.ops[op].pc.outcome)
    requires e.By? && e.action.Drop? ==> e.id != op
    ensures var t := Apply(core, e);
      op in t.ops && (t.ops[op].pc.Finished? ==> LoopOutcome(t.ops[op].pc.outcome))
  {
    hide Inv, Act;
    StepOthers(core, e);
    if Actor(e) == Some(op) {
      C.InvOf(core, op);
      StepInv(core, e);
      assert Step(core, e) == Apply(core, e);
      ActOutcome(core, op, e.action);
    }
  }

  lemma ActOutcome(core: State, op: OpId, action: Action)
    requires op in core.ops && OpInv(core, op) && CloseFlags(core) && core.ops[op].call.Receive?
    requires Ready(core, op, action) && !action.Drop?
    ensures var t := Act(core, op, action);
      op in t.ops && (t.ops[op].pc.Finished? ==> LoopOutcome(t.ops[op].pc.outcome))
  {
    match action
    case Tick => TickOutcome(core, op);
    case _ =>
  }

  lemma TickOutcome(core: State, op: OpId)
    requires op in core.ops && OpInv(core, op) && core.ops[op].call.Receive? && Ready(core, op, Tick)
    ensures var t := TickAt(core, op);
      op in t.ops && (t.ops[op].pc.Finished? ==> LoopOutcome(t.ops[op].pc.outcome))
  {
    if core.ops[op].pc.Closing? {
      match core.ops[op].pc.step
      case SetWriteShut(_) =>
      case TakeSlot =>
      case _ =>
    }
  }

  lemma CoreKeepsGood(s: Inbox, e: Event)
    requires ReceiveInv(s) && CallIsGood(s) && Enabled(s.core, e) && CoreAllowed(s, e)
    ensures CallIsGood(WithCore(s, Apply(s.core, e)))
  {
    hide Inv, Apply, Enabled, StreamInv, LoopOutcome;
    if Active(s) && Holder(s).op.Some? {
      CoreOutcome(s.core, Holder(s).op.value, e);
    }
  }

  lemma CollectKeepsGood(s: Inbox, lane: Lane, e: ReceiveEvent)
    requires e.Collect?
    ensures ReceiveEnabled(s, e) ==> CallIsGood(ReceiveStep(s, lane, e))
  {
  }

  lemma OtherKeepsGood(s: Inbox, lane: Lane, e: ReceiveEvent)
    requires ReceiveInv(s) && CallIsGood(s) && !e.Collect? && !e.Core?
    ensures CallIsGood(ReceiveStep(s, lane, e))
  {
    hide Inv, StreamInv;
  }

  lemma StepKeepsGood(s: Inbox, lane: Lane, e: ReceiveEvent)
    requires ReceiveInv(s) && CallIsGood(s)
    ensures CallIsGood(ReceiveStep(s, lane, e))
  {
    hide ReceiveInv, CallIsGood;
    if ReceiveEnabled(s, e) {
      match e
      case Core(event) => CoreKeepsGood(s, event);
      case Collect(_, _) => CollectKeepsGood(s, lane, e);
      case _ => OtherKeepsGood(s, lane, e);
    }
  }

  lemma {:induction false} RunKeepsGood(start: Inbox, lane: Lane, es: seq<ReceiveEvent>)
    requires Fresh(start)
    ensures CallIsGood(ReceiveRun(start, lane, es))
  {
    hide ReceiveStep, ReceiveInv;
    if es != [] {
      RunKeepsGood(start, lane, es[..|es| - 1]);
      ReceiveRunInv(start, lane, es[..|es| - 1]);
      StepKeepsGood(ReceiveRun(start, lane, es[..|es| - 1]), lane, es[|es| - 1]);
    }
  }

  predicate FetchedFrame(s: Inbox, frame: Bytes) {
    Framable(frame) && Fetched(s) == EncodeFrame(frame)
  }

  /** The core call that the receive was waiting for has returned this. */
  predicate CoreReturned(s: Inbox, id: ReceiveId, outcome: Outcome) {
    && id in s.receives && s.receives[id].Reading? && s.receives[id].op.Some?
    && s.receives[id].op.value in s.core.ops && s.core.ops[s.receives[id].op.value].pc == Finished(outcome)
  }

  /** Why receive `id` returns this outcome in a step from `s`. */
  ghost predicate ReceiveCause(s: Inbox, lane: Lane, e: ReceiveEvent, id: ReceiveId, outcome: ReceiveOutcome) {
    match outcome
    case Plain(plain) =>
      e.Collect? && exists frame :: FetchedFrame(s, frame) && Open(e.oracle, lane, s.sequence, frame) == Ok(plain)
    case BadRecord(error) =>
      e.Collect? && exists frame :: FetchedFrame(s, frame) && Open(e.oracle, lane, s.sequence, frame) == Err(error)
    case BadLength(size) =>
      e.Collect? && |Fetched(s)| == 4 && FromBigEndian(Fetched(s)) == size && (size == 0 || size > 64 * 1024 * 1024)
    case StreamEnded => e.Collect? && CoreReturned(s, id, Outcome.EndOfStream)
    case TransportError =>
      e.Collect? && (CoreReturned(s, id, IoError) || exists why :: CoreReturned(s, id, Refused(why)))
    case Abandoned => e.DropReceive?
  }

  lemma ExtendCause(s: Inbox, lane: Lane, id: ReceiveId, oracle: Oracle, chunk: Bytes)
    requires LockInv(s) && Holds(s, id) && Pending(s) == chunk && chunk != []
    requires |s.receives[id].buffer + chunk| <= s.receives[id].size
    requires Receiver.Extend(s, id, oracle, lane, chunk).receives[id].Returned?
    ensures ReceiveCause(s, lane, Collect(id, oracle), id, Receiver.Extend(s, id, oracle, lane, chunk).receives[id].outcome)
  {
    hide Open, EncodeFrame, Framable;
    var buffer := s.receives[id].buffer + chunk;
    if s.receives[id].phase == Payload {
      BodyFetched(s, id, chunk);
      assert FetchedFrame(s, buffer);
    } else {
      LengthFetched(s, id, chunk);
    }
  }

  lemma CollectCause(s: Inbox, lane: Lane, id: ReceiveId, oracle: Oracle)
    requires LockInv(s) && CallIsGood(s) && ReceiveEnabled(s, Collect(id, oracle))
    requires Harvest(s, id, oracle, lane).receives[id].Returned?
    ensures ReceiveCause(s, lane, Collect(id, oracle), id, Harvest(s, id, oracle, lane).receives[id].outcome)
  {
    hide Receiver.Extend, Fetched, FetchedFrame;
    match s.core.ops[s.receives[id].op.value].pc.outcome
    case Chunk(data) =>
      ChunkFits(s, id, data);
      ExtendCause(s, lane, id, oracle, data);
    case EndOfStream =>
    case Refused(why) => assert CoreReturned(s, id, Refused(why));
    case IoError => assert CoreReturned(s, id, IoError);
  }

  /**
   No secure receive returns without a cause. In every run a plaintext or a verdict comes from opening the
   whole frame that was fetched, a bad length is what the four bytes fetched spell, the end of the stream and
   a transport error come from the core call that the loop was waiting for; a short chunk, an empty buffer
   or anything else that happens in between is never a reason to give up.
   */
  lemma ReceiveHasCause(start: Inbox, lane: Lane, es: seq<ReceiveEvent>, e: ReceiveEvent, id: ReceiveId)
    requires Fresh(start)
    requires var s, t := ReceiveRun(start, lane, es), ReceiveStep(ReceiveRun(start, lane, es), lane, e);
      id in s.receives && !s.receives[id].Returned? && id in t.receives && t.receives[id].Returned?
    ensures var s, t := ReceiveRun(start, lane, es), ReceiveStep(ReceiveRun(start, lane, es), lane, e);
      !e.Core? && e.id == id && ReceiveCause(s, lane, e, id, t.receives[id].outcome)
  {
    hide ReceiveInv, ReceiveCause, Harvest, CallIsGood, Fresh;
    var s := ReceiveRun(start, lane, es);
    ReceiveRunInv(start, lane, es);
    RunKeepsGood(start, lane, es);
    assert LockInv(s) by { LockOf(s); }
    OwnReturns(s, lane, e, id);
    if e.Collect? {
      CollectCause(s, lane, e.id, e.oracle);
    } else {
      AbandonCause(s, lane, e, id);
    }
  }

  lemma OwnReturns(s: Inbox, lane: Lane, e: ReceiveEvent, id: ReceiveId)
    requires id in s.receives && id in ReceiveStep(s, lane, e).receives
    requires ReceiveStep(s, lane, e).receives[id] != s.receives[id]
    ensures !e.Core? && e.id == id && ReceiveEnabled(s, e)
  {
  }

  lemma LockOf(s: Inbox)
    requires ReceiveInv(s)
    ensures LockInv(s)
  {
  }

  lemma AbandonCause(s: Inbox, lane: Lane, e: ReceiveEvent, id: ReceiveId)
    requires !e.Collect? && id in s.receives && !s.receives[id].Returned?
    requires id in ReceiveStep(s, lane, e).receives && ReceiveStep(s, lane, e).receives[id].Returned?
    ensures e.DropReceive? && e.id == id && ReceiveStep(s, lane, e).receives[id].outcome == Abandoned
    ensures ReceiveCause(s, lane, e, id, Abandoned)
  {
  }

  /** A secure receive can be dropped while it waits for the lock, and while its core call waits for a gate or for
      the operating system; the lock is free then, and the bytes that it has taken are gone. */
  lemma ReceiveCanBeDropped(s: Inbox, lane: Lane, id: ReceiveId)
    requires id in s.receives
    requires s.receives[id].AwaitLock?
             || (Holds(s, id) && s.receives[id].op.Some?
                 && (At(s.core, s.receives[id].op.value, AwaitGate) || At(s.core, s.receives[id].op.value, AwaitIo)))
    ensures var t := ReceiveStep(s, lane, DropReceive(id));
      && id in t.receives && t.receives[id] == Returned(Abandoned) && t.delivered == s.delivered
      && t.sequence == s.sequence && t.core.delivered == s.core.delivered
      && (s.receives[id].Reading? ==> t.lock.None?) && (s.receives[id].AwaitLock? ==> t.lock == s.lock)
  {
  }
}
