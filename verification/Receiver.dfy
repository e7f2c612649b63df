/**
 The receiving direction of a secure session, running on the transport core.

 Any number of secure receives compete for the receive lock; the holder reads a four-byte length and
 then a frame body, each by repeated core receives, and opens the body at the current sequence
 number. Every other core call may run in between; raw reads beside the session are excluded. The
 incoming bytes are unrestricted here, and a receive future may be dropped at any await point.
 */
module Receiver {
  import opened ByteStrings
  import opened Wrappers
  import opened Transport
  import opened TransportSafety
  import opened TransportTheorems
  import opened Protocol
  import opened Framing
  import opened SecureRecords

  type ReceiveId = nat

  datatype ReceiveOutcome =
    | Plain(plain: Bytes)
    | BadLength(size: nat)
    | BadRecord(error: OpenError)
    | StreamEnded
    | TransportError
    | Abandoned

  datatype Phase = Header | Payload

  /** One `read_exact` in progress: the bytes it wants, those it has, and its pending core call. */
  datatype ReceivePoint =
    | AwaitLock
    | Reading(phase: Phase, size: nat, buffer: Bytes, op: Option<OpId>)
    | Returned(outcome: ReceiveOutcome)

  /** `Astray`: a receive has given up inside a frame, so the next one starts off a frame boundary. */
  datatype Alignment = Aligned | Astray

  /** `base` are the bytes consumed before the session, `taken` all frame bodies read since then and
      `start` the stream position at which the current or next receive begins: a ghost account. */
  datatype Inbox = Inbox(
    core: State,
    lock: Option<ReceiveId>,
    sequence: nat,
    receives: map<ReceiveId, ReceivePoint>,
    delivered: seq<Bytes>,
    base: Bytes,
    taken: seq<Bytes>,
    start: nat,
    alignment: Alignment)

  datatype ReceiveEvent =
    | Core(event: Event)                              // a step of any call of the core
    | StartReceive(id: ReceiveId)
    | TakeLock(id: ReceiveId)
    | Issue(id: ReceiveId, op: OpId)                  // the next core receive of the loop
    | Collect(id: ReceiveId, oracle: Oracle)          // its result, and what follows from it
    | DropReceive(id: ReceiveId)                      // the future was dropped at an await point

  function Holder(s: Inbox): ReceivePoint
    requires s.lock.Some? && s.lock.value in s.receives
  {
    s.receives[s.lock.value]
  }

  predicate Active(s: Inbox) {
    s.lock.Some? && s.lock.value in s.receives && Holder(s).Reading?
  }

  /** The core call that the lock holder is waiting for. */
  predicate Current(s: Inbox, op: OpId) {
    Active(s) && Holder(s).op == Some(op)
  }

  /** Bytes of a finished core receive that the loop has not yet looked at. */
  function Pending(s: Inbox): Bytes {
    if Active(s) && Holder(s).op.Some? && Holder(s).op.value in s.core.ops then
      var pc := s.core.ops[Holder(s).op.value].pc;
      if pc.Finished? && pc.outcome.Chunk? then pc.outcome.data else []
    else []
  }

  /** Everything the current receive has taken off the stream. */
  function Fetched(s: Inbox): Bytes {
    if !Active(s) then []
    else (if Holder(s).phase == Payload then ToBigEndian(Holder(s).size, FRAME_LENGTH_SIZE) else [])
         + Holder(s).buffer + Pending(s)
  }

  // ------------------------------------------------------------------ steps

  predicate CoreAllowed(s: Inbox, e: Event) {
    e.By? ==>
      && (e.action.Begin? ==> !e.action.call.Receive?)
      && (e.action.Drop? ==> !Current(s, e.id))
  }

  predicate Holds(s: Inbox, id: ReceiveId) {
    s.lock == Some(id) && id in s.receives && s.receives[id].Reading?
  }

  predicate ReceiveEnabled(s: Inbox, e: ReceiveEvent) {
    match e
    case Core(event) => Enabled(s.core, event) && CoreAllowed(s, event)
    case StartReceive(id) => id !in s.receives
    case TakeLock(id) => s.lock.None? && id in s.receives && s.receives[id].AwaitLock?
    case Issue(id, op) => Holds(s, id) && s.receives[id].op.None? && op !in s.core.ops
    case Collect(id, _) =>
      && Holds(s, id) && s.receives[id].op.Some? && s.receives[id].op.value in s.core.ops
      && s.core.ops[s.receives[id].op.value].pc.Finished?
    case DropReceive(id) =>
      && id in s.receives
      && (s.receives[id].AwaitLock?
          || (Holds(s, id) && s.receives[id].op.Some? && Ready(s.core, s.receives[id].op.value, Drop)))
  }

  function SetReceive(s: Inbox, id: ReceiveId, point: ReceivePoint): Inbox {
    s.(receives := s.receives[id := point])
  }

  function WithCore(s: Inbox, core: State): Inbox {
    s.(core := core)
  }

  function Grant(s: Inbox, id: ReceiveId): Inbox {
    s.(lock := Some(id), receives := s.receives[id := Reading(Header, FRAME_LENGTH_SIZE, [], None)])
  }

  /** Give up: the lock is released, and bytes already taken off the stream are gone. */
  function Fail(s: Inbox, id: ReceiveId, outcome: ReceiveOutcome): Inbox {
    s.(lock := None,
       receives := s.receives[id := Returned(outcome)],
       start := |s.core.delivered|,
       alignment := if |s.core.delivered| == s.start then s.alignment else Astray)
  }

  /** A complete frame has been read: open it at the current sequence number. */
  function Deliver(s: Inbox, id: ReceiveId, oracle: Oracle, lane: Lane, frame: Bytes): Inbox {
    match Open(oracle, lane, s.sequence, frame)
    case Ok(plain) =>
      s.(lock := None,
         receives := s.receives[id := Returned(Plain(plain))],
         sequence := s.sequence + 1,
         delivered := s.delivered + [plain],
         taken := s.taken + [frame],
         start := |s.core.delivered|)
    case Err(error) =>
      s.(lock := None,
         receives := s.receives[id := Returned(BadRecord(error))],
         taken := s.taken + [frame],
         start := |s.core.delivered|)
  }

  /** The loop has a new chunk. */
  function Extend(s: Inbox, id: ReceiveId, oracle: Oracle, lane: Lane, chunk: Bytes): Inbox
    requires Holds(s, id)
  {
    var point := s.receives[id];
    var buffer := point.buffer + chunk;
    if chunk == [] then Fail(s, id, TransportError)
    else if |buffer| < point.size then SetReceive(s, id, Reading(point.phase, point.size, buffer, None))
    else if point.phase == Payload then Deliver(s, id, oracle, lane, buffer)
    else
      var size := FromBigEndian(buffer);
      if size == 0 || size > MAX_FRAME_SIZE then Fail(s, id, BadLength(size))
      else SetReceive(s, id, Reading(Payload, size, [], None))
  }

  function Harvest(s: Inbox, id: ReceiveId, oracle: Oracle, lane: Lane): Inbox
    requires ReceiveEnabled(s, Collect(id, oracle))
  {
    match s.core.ops[s.receives[id].op.value].pc.outcome
    case Chunk(data) => Extend(s, id, oracle, lane, data)
    case EndOfStream => Fail(s, id, StreamEnded)
    case _ => Fail(s, id, TransportError)
  }

  function Request(s: Inbox, id: ReceiveId, op: OpId): Inbox
    requires Holds(s, id) && |s.receives[id].buffer| <= s.receives[id].size
  {
    var point := s.receives[id];
    var call := Receive(point.size - |point.buffer|);
    s.(core := Update(s.core, op, Op(call, Entry(call), 0, {})),
       receives := s.receives[id := Reading(point.phase, point.size, point.buffer, Some(op))])
  }

  function Abandon(s: Inbox, id: ReceiveId): Inbox
    requires ReceiveEnabled(s, DropReceive(id))
  {
    if s.receives[id].AwaitLock? then SetReceive(s, id, Returned(Abandoned))
    else Fail(WithCore(s, Act(s.core, s.receives[id].op.value, Drop)), id, Abandoned)
  }

  function ReceiveStep(s: Inbox, lane: Lane, e: ReceiveEvent): Inbox {
    if !ReceiveEnabled(s, e) then s else
    match e
    case Core(event) => WithCore(s, Apply(s.core, event))
    case StartReceive(id) => SetReceive(s, id, AwaitLock)
    case TakeLock(id) => Grant(s, id)
    case Issue(id, op) => if |s.receives[id].buffer| <= s.receives[id].size then Request(s, id, op) else s
    case Collect(id, oracle) => Harvest(s, id, oracle, lane)
    case DropReceive(id) => Abandon(s, id)
  }

  function ReceiveRun(start: Inbox, lane: Lane, es: seq<ReceiveEvent>): Inbox {
    if es == [] then start
    else ReceiveStep(ReceiveRun(start, lane, es[..|es| - 1]), lane, es[|es| - 1])
  }

  /** A session starts on any reachable core that no receive is running on. */
  predicate Fresh(s: Inbox) {
    && Inv(s.core)
    && (forall op :: op in s.core.ops && s.core.ops[op].call.Receive? ==> s.core.ops[op].pc.Finished?)
    && s.lock.None? && s.sequence == 0 && s.receives == map[] && s.delivered == []
    && s.base == s.core.delivered && s.taken == [] && s.start == |s.core.delivered| && s.alignment == Aligned
  }

  // ------------------------------------------------------------------ invariant

  predicate LockInv(s: Inbox) {
    && (forall id :: id in s.receives && s.receives[id].Reading? ==> s.lock == Some(id))
    && (s.lock.Some? ==> Active(s) && |Holder(s).buffer| < Holder(s).size)
    && (s.lock.Some? && Holder(s).phase == Header ==> Holder(s).size == FRAME_LENGTH_SIZE)
    && (s.lock.Some? && Holder(s).phase == Payload ==> 0 < Holder(s).size <= MAX_FRAME_SIZE)
    && (s.lock.Some? && Holder(s).op.Some? ==>
          && Holder(s).op.value in s.core.ops
          && s.core.ops[Holder(s).op.value].call == Receive(Holder(s).size - |Holder(s).buffer|)
          && |Pending(s)| <= Holder(s).size - |Holder(s).buffer|)
    && (forall op :: op in s.core.ops && s.core.ops[op].call.Receive? && !s.core.ops[op].pc.Finished? ==> Current(s, op))
  }

  /** The stream consumed so far: what came before, whole frames, and the frame being read. */
  predicate StreamInv(s: Inbox) {
    && s.start <= |s.core.delivered|
    && s.core.delivered[s.start..] == Fetched(s)
    && (s.alignment == Aligned ==> s.core.delivered[..s.start] == s.base + EncodeFrames(s.taken))
    && (forall i :: 0 <= i < |s.taken| ==> Framable(s.taken[i]))
    && s.sequence == |s.delivered|
  }

  /** The session part of the invariant. */
  predicate Consistent(s: Inbox) {
    LockInv(s) && StreamInv(s)
  }

  predicate ReceiveInv(s: Inbox) {
    Inv(s.core) && Consistent(s)
  }

  // ------------------------------------------------------------------ core steps

  lemma PendingKept(s: Inbox, e: Event)
    requires Inv(s.core) && LockInv(s) && Enabled(s.core, e) && CoreAllowed(s, e) && !Reads(e)
    ensures Pending(WithCore(s, Apply(s.core, e))) == Pending(s)
  {
    if s.lock.Some? && Holder(s).op.Some? {
      CoreKeepsCalls(s.core, e);
      QuietReads(s.core, e);
    }
  }

  lemma RunningKept(s: Inbox, e: Event)
    requires Inv(s.core) && LockInv(s) && Enabled(s.core, e) && CoreAllowed(s, e)
    ensures var core := Apply(s.core, e);
      && (forall op :: op in s.core.ops ==> op in core.ops && core.ops[op].call == s.core.ops[op].call)
      && (forall op :: op in core.ops && core.ops[op].call.Receive? && !core.ops[op].pc.Finished? ==> Current(s, op))
  {
    CoreKeepsCalls(s.core, e);
    CoreCallsSame(s.core, e);
    var core := Apply(s.core, e);
    forall op | op in core.ops && core.ops[op].call.Receive? && !core.ops[op].pc.Finished? ensures Current(s, op) {
      assert op in s.core.ops && !s.core.ops[op].pc.Finished?;
    }
  }

  lemma CoreKeepsLock(s: Inbox, e: Event)
    requires Inv(s.core) && LockInv(s) && Enabled(s.core, e) && CoreAllowed(s, e) && !Reads(e)
    ensures LockInv(WithCore(s, Apply(s.core, e)))
    ensures Pending(WithCore(s, Apply(s.core, e))) == Pending(s)
  {
    RunningKept(s, e);
    PendingKept(s, e);
  }

  lemma QuietKeeps(s: Inbox, e: Event)
    requires ReceiveInv(s) && ReceiveEnabled(s, Core(e)) && !Reads(e)
    ensures ReceiveInv(WithCore(s, Apply(s.core, e)))
  {
    CoreKeepsLock(s, e);
    QuietReads(s.core, e);
    StepInv(s.core, e);
    assert Step(s.core, e) == Apply(s.core, e);
  }

  /** A read result can only be for the lock holder's pending call. */
  lemma ReadIsCurrent(s: Inbox, op: OpId, count: nat)
    requires LockInv(s) && Ready(s.core, op, IoRead(count)) && count > 0
    ensures Current(s, op) && Pending(s) == []
    ensures count <= Holder(s).size - |Holder(s).buffer|
  {
    assert !s.core.ops[op].pc.Finished?;
  }

  lemma ReadKeepsLock(s: Inbox, op: OpId, count: nat)
    requires LockInv(s) && Ready(s.core, op, IoRead(count)) && count > 0
    ensures LockInv(WithCore(s, Read(s.core, op, count)))
    ensures Pending(WithCore(s, Read(s.core, op, count))) == s.core.incoming[|s.core.delivered|..|s.core.delivered| + count]
  {
    ReadIsCurrent(s, op, count);
    ReadEffect(s.core, op, count);
    var next := WithCore(s, Read(s.core, op, count));
    forall other | other in next.core.ops && next.core.ops[other].call.Receive? ensures next.core.ops[other].pc.Finished? {
      assert other == op || s.core.ops[other].pc.Finished? || Current(s, other);
    }
  }

  lemma ReadKeepsStream(s: Inbox, op: OpId, count: nat)
    requires LockInv(s) && StreamInv(s) && Ready(s.core, op, IoRead(count)) && count > 0
    ensures StreamInv(WithCore(s, Read(s.core, op, count)))
  {
    ReadIsCurrent(s, op, count);
    ReadKeepsLock(s, op, count);
    ReadEffect(s.core, op, count);
    var next := WithCore(s, Read(s.core, op, count));
    var chunk := s.core.incoming[|s.core.delivered|..|s.core.delivered| + count];
    assert Fetched(s) + chunk == Fetched(next);
    assert next.core.delivered[s.start..] == s.core.delivered[s.start..] + chunk;
    assert next.core.delivered[..s.start] == s.core.delivered[..s.start];
  }

  lemma ReadKeeps(s: Inbox, e: Event)
    requires ReceiveInv(s) && ReceiveEnabled(s, Core(e)) && Reads(e)
    ensures ReceiveInv(WithCore(s, Apply(s.core, e)))
  {
    StepInv(s.core, e);
    assert Step(s.core, e) == Apply(s.core, e);
    assert Apply(s.core, e) == Read(s.core, e.id, e.action.count);
    ReadKeepsLock(s, e.id, e.action.count);
    ReadKeepsStream(s, e.id, e.action.count);
  }

  // ------------------------------------------------------------------ session steps

  lemma NoReceiveRuns(s: Inbox)
    requires LockInv(s)
    requires s.lock.None? || Holder(s).op.None?
             || (Holder(s).op.value in s.core.ops && s.core.ops[Holder(s).op.value].pc.Finished?)
    ensures forall op :: op in s.core.ops && s.core.ops[op].call.Receive? ==> s.core.ops[op].pc.Finished?
  {
    forall op | op in s.core.ops && s.core.ops[op].call.Receive? ensures s.core.ops[op].pc.Finished? {
      assert s.core.ops[op].pc.Finished? || Current(s, op);
    }
  }

  lemma GrantKeeps(s: Inbox, id: ReceiveId)
    requires ReceiveInv(s) && ReceiveEnabled(s, TakeLock(id))
    ensures ReceiveInv(Grant(s, id))
  {
    NoReceiveRuns(s);
  }

  lemma RequestKeepsLock(s: Inbox, id: ReceiveId, op: OpId)
    requires LockInv(s) && StreamInv(s) && ReceiveEnabled(s, Issue(id, op))
    ensures LockInv(Request(s, id, op)) && StreamInv(Request(s, id, op))
  {
    NoReceiveRuns(s);
    assert Pending(Request(s, id, op)) == [];
  }

  lemma RequestKeeps(s: Inbox, id: ReceiveId, op: OpId)
    requires ReceiveInv(s) && ReceiveEnabled(s, Issue(id, op))
    ensures ReceiveInv(Request(s, id, op))
  {
    RequestKeepsLock(s, id, op);
    var e := By(op, Begin(Receive(s.receives[id].size - |s.receives[id].buffer|)));
    StepInv(s.core, e);
    assert Request(s, id, op).core == Step(s.core, e);
  }

  /** The holder is not waiting for the core. */
  predicate Settled(s: Inbox) {
    && Active(s)
    && (Holder(s).op.Some? ==> Holder(s).op.value in s.core.ops && s.core.ops[Holder(s).op.value].pc.Finished?)
  }

  lemma FailKeeps(s: Inbox, id: ReceiveId, outcome: ReceiveOutcome)
    requires Consistent(s) && Holds(s, id) && Settled(s)
    ensures Consistent(Fail(s, id, outcome))
  {
    NoReceiveRuns(s);
    assert s.core.delivered[..|s.core.delivered|] == s.core.delivered;
  }

  lemma TakenGrows(s: Inbox, frame: Bytes)
    requires StreamInv(s) && s.alignment == Aligned && Fetched(s) == EncodeFrame(frame)
    ensures s.core.delivered == s.base + EncodeFrames(s.taken + [frame])
  {
    assert (s.taken + [frame])[..|s.taken|] == s.taken;
    assert s.core.delivered == s.core.delivered[..s.start] + s.core.delivered[s.start..];
  }

  lemma DeliverKeeps(s: Inbox, id: ReceiveId, oracle: Oracle, lane: Lane, frame: Bytes)
    requires Consistent(s) && Holds(s, id) && Settled(s) && Framable(frame) && Fetched(s) == EncodeFrame(frame)
    ensures Consistent(Deliver(s, id, oracle, lane, frame))
  {
    hide Open, EncodeFrame, EncodeFrames, Framable;
    NoReceiveRuns(s);
    if s.alignment == Aligned {
      TakenGrows(s, frame);
    }
    assert s.core.delivered[..|s.core.delivered|] == s.core.delivered;
  }

  /** A chunk that leaves the wanted bytes incomplete. */
  lemma ExtendPartial(s: Inbox, id: ReceiveId, chunk: Bytes)
    requires Consistent(s) && Holds(s, id) && Settled(s) && Pending(s) == chunk
    requires |s.receives[id].buffer + chunk| < s.receives[id].size
    ensures var point := s.receives[id];
      Consistent(SetReceive(s, id, Reading(point.phase, point.size, point.buffer + chunk, None)))
  {
    NoReceiveRuns(s);
    var point := s.receives[id];
    assert Fetched(SetReceive(s, id, Reading(point.phase, point.size, point.buffer + chunk, None))) == Fetched(s);
  }

  /** The length is complete and good: start on the body. */
  lemma ExtendHeader(s: Inbox, id: ReceiveId, size: nat)
    requires Consistent(s) && Holds(s, id) && Settled(s) && s.receives[id].phase == Header
    requires 0 < size <= MAX_FRAME_SIZE && Fetched(s) == ToBigEndian(size, FRAME_LENGTH_SIZE)
    ensures Consistent(SetReceive(s, id, Reading(Payload, size, [], None)))
  {
    NoReceiveRuns(s);
    assert Fetched(SetReceive(s, id, Reading(Payload, size, [], None))) == Fetched(s);
  }

  /** With its body complete, the receive has fetched exactly one frame. */
  lemma BodyFetched(s: Inbox, id: ReceiveId, chunk: Bytes)
    requires LockInv(s) && Holds(s, id) && Pending(s) == chunk && s.receives[id].phase == Payload
    requires |s.receives[id].buffer + chunk| == s.receives[id].size
    ensures Framable(s.receives[id].buffer + chunk)
    ensures Fetched(s) == EncodeFrame(s.receives[id].buffer + chunk)
  {
  }

  lemma LengthFetched(s: Inbox, id: ReceiveId, chunk: Bytes)
    requires LockInv(s) && Holds(s, id) && Pending(s) == chunk && s.receives[id].phase == Header
    ensures Fetched(s) == s.receives[id].buffer + chunk && s.receives[id].size == FRAME_LENGTH_SIZE
  {
  }

  lemma ExtendKeeps(s: Inbox, id: ReceiveId, oracle: Oracle, lane: Lane, chunk: Bytes)
    requires Consistent(s) && Holds(s, id) && Settled(s) && Pending(s) == chunk
    requires |s.receives[id].buffer + chunk| <= s.receives[id].size
    ensures Consistent(Extend(s, id, oracle, lane, chunk))
  {
    var point := s.receives[id];
    var buffer := point.buffer + chunk;
    if chunk == [] {
      FailKeeps(s, id, TransportError);
    } else if |buffer| < point.size {
      ExtendPartial(s, id, chunk);
    } else if point.phase == Payload {
      BodyFetched(s, id, chunk);
      DeliverKeeps(s, id, oracle, lane, buffer);
    } else {
      var size := FromBigEndian(buffer);
      if size == 0 || size > MAX_FRAME_SIZE {
        FailKeeps(s, id, BadLength(size));
      } else {
        BigEndianInverse(buffer);
        LengthFetched(s, id, chunk);
        ExtendHeader(s, id, size);
      }
    }
  }

  lemma ChunkFits(s: Inbox, id: ReceiveId, data: Bytes)
    requires LockInv(s) && Holds(s, id) && s.receives[id].op.Some? && s.receives[id].op.value in s.core.ops
    requires s.core.ops[s.receives[id].op.value].pc == Finished(Chunk(data))
    ensures Pending(s) == data && |s.receives[id].buffer + data| <= s.receives[id].size
  {
  }

  lemma HarvestKeeps(s: Inbox, id: ReceiveId, oracle: Oracle, lane: Lane)
    requires Consistent(s) && ReceiveEnabled(s, Collect(id, oracle))
    ensures Consistent(Harvest(s, id, oracle, lane)) && Harvest(s, id, oracle, lane).core == s.core
  {
    match s.core.ops[s.receives[id].op.value].pc.outcome
    case Chunk(data) => ExtendKeeps(s, id, oracle, lane, data);
    case EndOfStream => FailKeeps(s, id, StreamEnded);
    case _ => FailKeeps(s, id, TransportError);
  }

  lemma AbandonKeeps(s: Inbox, id: ReceiveId)
    requires ReceiveInv(s) && ReceiveEnabled(s, DropReceive(id)) && s.receives[id].Reading?
    ensures ReceiveInv(Abandon(s, id))
  {
    var op := s.receives[id].op.value;
    var dropped := WithCore(s, Act(s.core, op, Drop));
    StepInv(s.core, By(op, Drop));
    assert dropped.core == Step(s.core, By(op, Drop));
    FinishStill(s.core, op, Dropped);
    DropKeepsLock(s, id);
    FailKeeps(dropped, id, Abandoned);
  }

  lemma DropKeepsLock(s: Inbox, id: ReceiveId)
    requires LockInv(s) && StreamInv(s) && ReceiveEnabled(s, DropReceive(id)) && s.receives[id].Reading?
    ensures var dropped := WithCore(s, Act(s.core, s.receives[id].op.value, Drop));
      Consistent(dropped)
  {
    var op := s.receives[id].op.value;
    FinishStill(s.core, op, Dropped);
    var dropped := WithCore(s, Act(s.core, op, Drop));
    forall other | other in dropped.core.ops && dropped.core.ops[other].call.Receive?
      ensures dropped.core.ops[other].pc.Finished?
    {
      assert other == op || s.core.ops[other].pc.Finished? || Current(s, other);
    }
    assert Pending(dropped) == Pending(s) == [];
  }

  lemma StartKeeps(s: Inbox, id: ReceiveId)
    requires ReceiveInv(s)
    ensures id !in s.receives ==> ReceiveInv(SetReceive(s, id, AwaitLock))
  {
  }

  lemma LeaveKeeps(s: Inbox, id: ReceiveId)
    requires ReceiveInv(s) && ReceiveEnabled(s, DropReceive(id)) && s.receives[id].AwaitLock?
    ensures ReceiveInv(Abandon(s, id))
  {
    hide Inv, EncodeFrames, Framable, Fail;
  }

  lemma CollectKeeps(s: Inbox, id: ReceiveId, oracle: Oracle, lane: Lane)
    requires ReceiveInv(s) && ReceiveEnabled(s, Collect(id, oracle))
    ensures ReceiveInv(Harvest(s, id, oracle, lane))
  {
    hide Consistent, Inv, Harvest;
    HarvestKeeps(s, id, oracle, lane);
  }

  /** The invariant of the receiving direction survives every event. */
  lemma ReceiveStepInv(s: Inbox, lane: Lane, e: ReceiveEvent)
    requires ReceiveInv(s)
    ensures ReceiveInv(ReceiveStep(s, lane, e))
  {
    hide ReceiveInv, Apply, Enabled, CoreAllowed, Reads, Grant, Request, Harvest, Abandon, SetReceive;
    if ReceiveEnabled(s, e) {
      match e
      case Core(event) => if Reads(event) { ReadKeeps(s, event); } else { QuietKeeps(s, event); }
      case StartReceive(id) => StartKeeps(s, id);
      case TakeLock(id) => GrantKeeps(s, id);
      case Issue(id, op) => RequestKeeps(s, id, op);
      case Collect(id, oracle) => CollectKeeps(s, id, oracle, lane);
      case DropReceive(id) => if s.receives[id].Reading? { AbandonKeeps(s, id); } else { LeaveKeeps(s, id); }
    }
  }

  /** While nobody holds the receive lock, no event of the core consumes incoming bytes. */
  lemma IdleCoreKeepsStream(s: Inbox, lane: Lane, e: Event)
    requires ReceiveInv(s) && s.lock.None?
    ensures ReceiveStep(s, lane, Core(e)).core.delivered == s.core.delivered
  {
    if ReceiveEnabled(s, Core(e)) {
      if Reads(e) {
        ReadIsCurrent(s, e.id, e.action.count);
      } else {
        QuietReads(s.core, e);
      }
    }
  }

  lemma IdleKeepsStream(s: Inbox, lane: Lane, e: ReceiveEvent)
    requires ReceiveInv(s) && s.lock.None?
    ensures ReceiveStep(s, lane, e).core.delivered == s.core.delivered
  {
    if e.Core? {
      IdleCoreKeepsStream(s, lane, e.event);
    }
  }

  // ------------------------------------------------------------------ theorems

  lemma {:induction false} ReceiveRunInv(start: Inbox, lane: Lane, es: seq<ReceiveEvent>)
    requires Fresh(start)
    ensures ReceiveInv(ReceiveRun(start, lane, es))
  {
    if es == [] {
      assert start.core.delivered[..start.start] == start.core.delivered;
    } else {
      ReceiveRunInv(start, lane, es[..|es| - 1]);
      ReceiveStepInv(ReceiveRun(start, lane, es[..|es| - 1]), lane, es[|es| - 1]);
    }
  }

  lemma StepKeepsInboxBase(s: Inbox, lane: Lane, e: ReceiveEvent)
    ensures ReceiveStep(s, lane, e).base == s.base
  {
  }

  lemma {:induction false} RunKeepsInboxBase(start: Inbox, lane: Lane, es: seq<ReceiveEvent>)
    ensures ReceiveRun(start, lane, es).base == start.base
  {
    hide ReceiveStep;
    if es != [] {
      RunKeepsInboxBase(start, lane, es[..|es| - 1]);
      StepKeepsInboxBase(ReceiveRun(start, lane, es[..|es| - 1]), lane, es[|es| - 1]);
    }
  }

  /** A step delivers nothing, or the plaintext that the oracle opens at the next sequence number. */
  lemma StepDelivers(s: Inbox, lane: Lane, e: ReceiveEvent)
    ensures var next := ReceiveStep(s, lane, e);
      || (next.delivered == s.delivered && next.sequence == s.sequence)
      || (e.Collect? && next.sequence == s.sequence + 1
          && exists frame :: Open(e.oracle, lane, s.sequence, frame).Ok?
               && next.delivered == s.delivered + [Open(e.oracle, lane, s.sequence, frame).value])
  {
    if ReceiveEnabled(s, e) && e.Collect? {
      var outcome := s.core.ops[s.receives[e.id].op.value].pc.outcome;
      if outcome.Chunk? {
        var frame := s.receives[e.id].buffer + outcome.data;
        assert Deliver(s, e.id, e.oracle, lane, frame).delivered == s.delivered
               || Open(e.oracle, lane, s.sequence, frame).Ok?;
      }
    }
  }

  lemma PrefixStep(s: Inbox, lane: Lane, e: ReceiveEvent, sealed: seq<Bytes>)
    requires s.sequence == |s.delivered| < U64_LIMIT && s.delivered <= sealed
    requires e.Collect? ==> Honest(e.oracle, lane, sealed)
    ensures var next := ReceiveStep(s, lane, e);
      next.sequence == |next.delivered| < U64_LIMIT && next.delivered <= sealed
  {
    hide ReceiveStep, Open, Honest;
    StepDelivers(s, lane, e);
    var next := ReceiveStep(s, lane, e);
    if next.delivered != s.delivered {
      var frame :| Open(e.oracle, lane, s.sequence, frame).Ok?
        && next.delivered == s.delivered + [Open(e.oracle, lane, s.sequence, frame).value];
      AcceptedIsNext(e.oracle, lane, s.sequence, frame, sealed);
    }
  }

  /**
   Prefix delivery over the transport, on an arbitrary wire. For any interleaving of receives, closes,
   pauses and dropped futures, and for any incoming bytes, what the receives returned is a prefix of
   what the peer sealed by then, and the counter is the number of plaintexts returned.
   */
  lemma {:induction false} DeliveredIsPrefix(start: Inbox, lane: Lane, es: seq<ReceiveEvent>, sealed: seq<seq<Bytes>>)
    requires Fresh(start) && |sealed| == |es|
    requires forall i :: 0 <= i < |es| && es[i].Collect? ==> Honest(es[i].oracle, lane, sealed[i])
    requires forall i, j :: 0 <= i < j < |es| ==> sealed[i] <= sealed[j]
    ensures var s := ReceiveRun(start, lane, es);
      && s.sequence == |s.delivered| < U64_LIMIT
      && (es == [] ==> s.delivered == [])
      && (es != [] ==> s.delivered <= sealed[|es| - 1])
  {
    if es != [] {
      var n := |es| - 1;
      DeliveredIsPrefix(start, lane, es[..n], sealed[..n]);
      PrefixStep(ReceiveRun(start, lane, es[..n]), lane, es[n], sealed[n]);
    }
  }

  predicate GotPlain(point: ReceivePoint) {
    point.Returned? && point.outcome.Plain?
  }

  /** The receives that returned a plaintext. */
  function PlainIds(receives: map<ReceiveId, ReceivePoint>): set<ReceiveId> {
    set id | id in receives && GotPlain(receives[id])
  }

  /** The receive counter is the number of successful receives, and never wraps. */
  lemma {:induction false} CounterCountsReceives(start: Inbox, lane: Lane, es: seq<ReceiveEvent>)
    requires Fresh(start)
    ensures var s := ReceiveRun(start, lane, es); |PlainIds(s.receives)| == s.sequence == |s.delivered| < U64_LIMIT
  {
    hide ReceiveStep, Fresh, ReceiveInv, PlainIds;
    if es == [] {
      FreshCounts(start);
    } else {
      var s, e := ReceiveRun(start, lane, es[..|es| - 1]), es[|es| - 1];
      CounterCountsReceives(start, lane, es[..|es| - 1]);
      ReceiveStepCounts(s, lane, e);
    }
  }

  lemma FreshCounts(start: Inbox)
    requires Fresh(start)
    ensures |PlainIds(start.receives)| == start.sequence == |start.delivered| == 0
  {
    assert PlainIds(map[]) == {};
  }

  lemma PlainIdsAfter(receives: map<ReceiveId, ReceivePoint>, id: ReceiveId, point: ReceivePoint)
    requires id in receives ==> !GotPlain(receives[id])
    ensures |PlainIds(receives[id := point])| == |PlainIds(receives)| + (if GotPlain(point) then 1 else 0)
  {
    var after := PlainIds(receives[id := point]);
    if GotPlain(point) {
      assert after == PlainIds(receives) + {id};
    } else {
      assert after == PlainIds(receives);
    }
  }

  lemma ReceiveStepCounts(s: Inbox, lane: Lane, e: ReceiveEvent)
    requires s.sequence < U64_LIMIT
    ensures var next := ReceiveStep(s, lane, e);
      && |PlainIds(next.receives)| - |PlainIds(s.receives)| == next.sequence - s.sequence == |next.delivered| - |s.delivered|
      && next.sequence < U64_LIMIT
  {
    hide PlainIds;
    var next := ReceiveStep(s, lane, e);
    if next != s && !e.Core? {
      PlainIdsAfter(s.receives, e.id, next.receives[e.id]);
    }
  }
}
