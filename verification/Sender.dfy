/**
 The sending direction of a secure session, running on the transport core.

 Any number of secure sends compete for the send lock; the holder encrypts under the current sequence
 number, submits one frame as one core send, and advances the sequence only when that send succeeded.
 Every other core call may run in between. Raw writes beside the session are excluded. A send future
 may be dropped at any await point; what that breaks, and what it does not, is part of the invariant.
 */
module Sender {
  import opened ByteStrings
  import opened Wrappers
  import opened Transport
  import opened TransportSafety
  import opened TransportTheorems
  import opened Protocol
  import opened Framing
  import opened SecureRecords

  type SendId = nat

  datatype SendResult = Sent | Exhausted | BadSize | TransportError | Abandoned

  datatype SendPoint =
    | AwaitLock(plain: Bytes)
    | Writing(plain: Bytes, ciphertext: Bytes, op: OpId)
    | Returned(result: SendResult)

  /**
   What follows the last complete frame on the wire. `Live`: the bytes of the frame being written.
   `Dead`: a failed frame on a closed connection. `Cut`: a frame whose future was dropped, on a
   connection that may still be open. `Garbled`: a later frame was written behind a cut one.
   */
  datatype Status = Live | Dead | Cut | Garbled

  /** `base` is the wire when the session began; `frames` are the records completely on the wire and
      `residue` is what follows the last of them. Both are a ghost account. */
  datatype Session = Session(
    core: State,
    lock: Option<SendId>,
    sequence: nat,
    sends: map<SendId, SendPoint>,
    base: Bytes,
    frames: seq<Sealed>,
    residue: Bytes,
    status: Status)

  datatype SendEvent =
    | Core(event: Event)                                    // a step of any call of the core
    | StartSend(id: SendId, plain: Bytes)
    | TakeLock(id: SendId, ciphertext: Bytes, op: OpId)     // lock, encrypt, submit the frame
    | FinishSend(id: SendId)                                // the core send returned
    | DropSend(id: SendId)                                  // the future was dropped at an await point

  function Bodies(frames: seq<Sealed>): (bodies: seq<Bytes>)
    ensures |bodies| == |frames|
  {
    seq(|frames|, i requires 0 <= i < |frames| => Body(i, frames[i].ciphertext))
  }

  function OnWire(frames: seq<Sealed>): Bytes {
    EncodeFrames(Bodies(frames))
  }

  /** The core call that carries the current frame, if a send is writing. */
  predicate Carries(s: Session, id: SendId, op: OpId) {
    s.lock == Some(id) && id in s.sends && s.sends[id].Writing? && s.sends[id].op == op
  }

  predicate Current(s: Session, op: OpId) {
    s.lock.Some? && Carries(s, s.lock.value, op)
  }

  function Holder(s: Session): SendPoint
    requires s.lock.Some? && s.lock.value in s.sends
  {
    s.sends[s.lock.value]
  }

  // ------------------------------------------------------------------ steps

  predicate CoreAllowed(s: Session, e: Event) {
    e.By? ==>
      && (e.action.Begin? ==> !IsWriter(e.action.call))
      && (e.action.Drop? ==> !Current(s, e.id))
  }

  predicate SendEnabled(s: Session, e: SendEvent) {
    match e
    case Core(event) => Enabled(s.core, event) && CoreAllowed(s, event)
    case StartSend(id, _) => id !in s.sends
    case TakeLock(id, ciphertext, op) =>
      && s.lock.None? && id in s.sends && s.sends[id].AwaitLock? && op !in s.core.ops
      && |ciphertext| == |s.sends[id].plain| + TAG_SIZE
    case FinishSend(id) =>
      && s.lock == Some(id) && id in s.sends && s.sends[id].Writing?
      && s.sends[id].op in s.core.ops && s.core.ops[s.sends[id].op].pc.Finished?
    case DropSend(id) =>
      && id in s.sends
      && (s.sends[id].AwaitLock? || (s.sends[id].Writing? && s.lock == Some(id) && Ready(s.core, s.sends[id].op, Drop)))
  }

  function SetSend(s: Session, id: SendId, point: SendPoint): Session {
    s.(sends := s.sends[id := point])
  }

  /** Release the lock and return. */
  function Leave(s: Session, id: SendId, result: SendResult): Session {
    s.(sends := s.sends[id := Returned(result)], lock := None)
  }

  /** The core moved; nothing happened on the wire. */
  function Quiet(s: Session, core: State): Session {
    s.(core := core)
  }

  /** The current frame, or a foreign one behind a cut frame, has grown on the wire. */
  function Grow(s: Session, core: State, op: OpId, chunk: Bytes): Session
    requires Current(s, op)
  {
    var record := Sealed(Holder(s).plain, Holder(s).ciphertext);
    if s.status != Live then
      s.(core := core, status := Garbled)
    else if s.residue + chunk == EncodeFrame(Body(s.sequence, record.ciphertext)) then
      s.(core := core, frames := s.frames + [record], residue := [])
    else
      s.(core := core, residue := s.residue + chunk)
  }

  function CoreStep(s: Session, e: Event): Session
    requires Enabled(s.core, e)
  {
    if e.By? && e.action.IoWrite? && e.action.count > 0 && Current(s, e.id) then
      var op := s.core.ops[e.id];
      Grow(s, Apply(s.core, e), e.id, Payload(op.call)[op.written..op.written + e.action.count])
    else
      Quiet(s, Apply(s.core, e))
  }

  function Lock(s: Session, id: SendId, ciphertext: Bytes, op: OpId): Session
    requires id in s.sends && s.sends[id].AwaitLock?
  {
    var body := Body(s.sequence, ciphertext);
    if s.sequence + 1 >= U64_LIMIT then SetSend(s, id, Returned(Exhausted))
    else if !Framable(body) then SetSend(s, id, Returned(BadSize))
    else
      s.(core := Update(s.core, op, Op(Send(EncodeFrame(body)), LoadClosed(First), 0, {})),
         lock := Some(id),
         sends := s.sends[id := Writing(s.sends[id].plain, ciphertext, op)])
  }

  function Advance(s: Session): Session {
    s.(sequence := s.sequence + 1)
  }

  function SetStatus(s: Session, status: Status): Session {
    s.(status := if s.residue == [] || s.status != Live then s.status else status)
  }

  function Finish(s: Session, id: SendId): Session
    requires id in s.sends && s.sends[id].Writing?
    requires s.sends[id].op in s.core.ops && s.core.ops[s.sends[id].op].pc.Finished?
  {
    if s.core.ops[s.sends[id].op].pc.outcome.Success?
    then Leave(Advance(s), id, Sent)
    else Leave(SetStatus(s, Dead), id, TransportError)
  }

  function Abandon(s: Session, id: SendId): Session
    requires SendEnabled(s, DropSend(id))
  {
    if s.sends[id].AwaitLock? then SetSend(s, id, Returned(Abandoned))
    else Leave(Quiet(SetStatus(s, Cut), Act(s.core, s.sends[id].op, Drop)), id, Abandoned)
  }

  function SendStep(s: Session, e: SendEvent): Session {
    if !SendEnabled(s, e) then s else
    match e
    case Core(event) => CoreStep(s, event)
    case StartSend(id, plain) => SetSend(s, id, AwaitLock(plain))
    case TakeLock(id, ciphertext, op) => Lock(s, id, ciphertext, op)
    case FinishSend(id) => Finish(s, id)
    case DropSend(id) => Abandon(s, id)
  }

  function SendRun(start: Session, es: seq<SendEvent>): Session {
    if es == [] then start
    else SendStep(SendRun(start, es[..|es| - 1]), es[|es| - 1])
  }

  /** A session starts on any reachable core whose data writers have all returned without leaving a
      partial buffer behind. */
  predicate Fresh(s: Session) {
    && Inv(s.core)
    && (forall op :: op in s.core.ops && IsWriter(s.core.ops[op].call) ==>
          s.core.ops[op].pc.Finished? && !Torn(s.core.ops[op]) && s.core.ops[op].pc.outcome != Dropped)
    && s.lock.None? && s.sequence == 0 && s.sends == map[]
    && s.base == s.core.wire && s.frames == [] && s.residue == [] && s.status == Live
  }

  // ------------------------------------------------------------------ invariant

  /** A torn core send left the residue and closed the connection. */
  predicate Silenced(core: State) {
    Closed in core.flags && exists i :: 0 <= i < |core.order| && core.order[i] in core.ops && Torn(core.ops[core.order[i]])
  }

  predicate LockInv(s: Session) {
    && (forall id :: id in s.sends && s.sends[id].Writing? ==> s.lock == Some(id))
    && (s.lock.Some? ==> s.lock.value in s.sends && Holder(s).Writing?)
    && (s.lock.Some? ==>
          var w := Holder(s);
          && w.op in s.core.ops
          && s.core.ops[w.op].call == Send(EncodeFrame(Body(s.sequence, w.ciphertext)))
          && NotDropped(s.core.ops[w.op])
          && Framable(Body(s.sequence, w.ciphertext)) && s.sequence + 1 < U64_LIMIT
          && |w.ciphertext| == |w.plain| + TAG_SIZE)
    && (forall op :: op in s.core.ops && IsWriter(s.core.ops[op].call) && !s.core.ops[op].pc.Finished? ==> Current(s, op))
    && s.sequence < U64_LIMIT
  }

  /** The frame that `residue` is a strict prefix of carries the sequence number of the next record. */
  ghost predicate PartialFrame(residue: Bytes, sequence: nat) {
    residue == [] || exists ciphertext: Bytes :: PartOf(residue, sequence, ciphertext)
  }

  predicate PartOf(residue: Bytes, sequence: nat, ciphertext: Bytes) {
    && Framable(Body(sequence, ciphertext))
    && residue <= EncodeFrame(Body(sequence, ciphertext)) && residue != EncodeFrame(Body(sequence, ciphertext))
  }

  predicate GoodRecords(frames: seq<Sealed>) {
    forall i :: 0 <= i < |frames| ==>
      Framable(Body(i, frames[i].ciphertext)) && |frames[i].ciphertext| == |frames[i].plain| + TAG_SIZE
  }

  predicate HolderSucceeded(s: Session) {
    && s.lock.Some? && s.lock.value in s.sends && Holder(s).Writing?
    && Holder(s).op in s.core.ops && s.core.ops[Holder(s).op].pc == Finished(Success)
  }

  /** The wire is the session's records in sequence order, then at most one partial frame. */
  ghost predicate WireInv(s: Session)
    requires LockInv(s)
  {
    && s.core.wire == s.base + OnWire(s.frames) + s.residue
    && |s.frames| == s.sequence + (if HolderSucceeded(s) then 1 else 0)
    && (HolderSucceeded(s) ==> s.frames[|s.frames| - 1] == Sealed(Holder(s).plain, Holder(s).ciphertext))
    && PartialFrame(s.residue, |s.frames|)
    && GoodRecords(s.frames)
    && (match s.status
        case Live =>
          if s.lock.None? || HolderSucceeded(s) then s.residue == []
          else s.residue == Part(s.core.ops, Holder(s).op)
        case Dead => s.residue != [] && Silenced(s.core) && (s.lock.Some? ==> s.core.ops[Holder(s).op].written == 0)
        case Cut => s.residue != [] && s.sequence + 1 < U64_LIMIT && (s.lock.Some? ==> s.core.ops[Holder(s).op].written == 0)
        case Garbled => false)
  }

  ghost predicate SendInv(s: Session) {
    && Inv(s.core)
    && LockInv(s)
    && (s.status != Garbled ==> WireInv(s))
  }

  lemma InvAt(core: State, op: OpId)
    requires Inv(core) && op in core.ops
    ensures OpInv(core, op)
  {
  }

  // ------------------------------------------------------------------ core steps

  lemma DroppedIsFinished(core: State, e: Event, op: OpId)
    requires Inv(core) && Enabled(core, e) && op in Apply(core, e).ops
    requires IsWriter(Apply(core, e).ops[op].call) && !Apply(core, e).ops[op].pc.Finished?
    requires e.By? && e.action.Begin? ==> !IsWriter(e.action.call)
    ensures op in core.ops && core.ops[op].call == Apply(core, e).ops[op].call && !core.ops[op].pc.Finished?
  {
    CoreKeepsCalls(core, e);
  }

  lemma CoreKeepsLock(s: Session, e: Event, next: Session)
    requires Inv(s.core) && LockInv(s) && Enabled(s.core, e) && CoreAllowed(s, e)
    requires next.core == Apply(s.core, e)
    requires next.lock == s.lock && next.sends == s.sends && next.sequence == s.sequence
    ensures LockInv(next)
  {
    CoreKeepsCalls(s.core, e);
    forall op | op in next.core.ops && IsWriter(next.core.ops[op].call) && !next.core.ops[op].pc.Finished?
      ensures Current(next, op)
    {
      DroppedIsFinished(s.core, e, op);
      assert Current(s, op);
    }
  }

  lemma OnWireAppend(frames: seq<Sealed>, record: Sealed)
    ensures OnWire(frames + [record]) == OnWire(frames) + EncodeFrame(Body(|frames|, record.ciphertext))
  {
    var bodies := Bodies(frames + [record]);
    assert bodies[..|bodies| - 1] == Bodies(frames);
    assert bodies[|bodies| - 1] == Body(|frames|, record.ciphertext);
  }

  /** A send that has not returned has not put its whole buffer on the wire. */
  lemma UnfinishedIsPartial(core: State, op: OpId)
    requires op in core.ops && OpInv(core, op) && core.ops[op].call.Send? && core.ops[op].call.data != []
    ensures !core.ops[op].pc.Finished? ==> core.ops[op].written < |Payload(core.ops[op].call)|
    ensures core.ops[op].pc.Finished? && NotDropped(core.ops[op]) ==>
      (core.ops[op].written == |Payload(core.ops[op].call)| <==> core.ops[op].pc.outcome.Success?)
  {
  }

  lemma SilencedStays(core: State, e: Event)
    requires Inv(core) && Enabled(core, e) && Silenced(core)
    ensures Silenced(Apply(core, e))
  {
    hide Inv, Apply;
    var i :| 0 <= i < |core.order| && core.order[i] in core.ops && Torn(core.ops[core.order[i]]);
    StepOthers(core, e);
    CoreKeepsCalls(core, e);
    assert Apply(core, e).order[i] == core.order[i];
  }

  lemma TornBeforeLast(core: State)
    requires WriteOrder(core) && Silenced(core)
    ensures var last := core.order[|core.order| - 1];
      last in core.ops && (Torn(core.ops[last]) || Late in core.ops[last].marks)
  {
    var i :| 0 <= i < |core.order| && core.order[i] in core.ops && Torn(core.ops[core.order[i]]);
    assert i == |core.order| - 1 || Late in core.ops[core.order[|core.order| - 1]].marks;
  }

  /** Behind a torn send nobody writes: whoever takes the gate now has taken it late. */
  lemma SilencedNoWrite(core: State, op: OpId)
    requires WriteOrder(core) && Silenced(core) && op in core.ops && OpInv(core, op)
    ensures IsWriter(core.ops[op].call) ==> !core.ops[op].pc.AwaitIo?
  {
    TornBeforeLast(core);
  }

  predicate Writes(e: Event) {
    e.By? && e.action.IoWrite? && e.action.count > 0
  }

  /** A core step that writes nothing freezes the wire and the progress of every call. */
  lemma QuietCore(core: State, e: Event)
    requires Inv(core) && Enabled(core, e) && !Writes(e)
    ensures Apply(core, e).wire == core.wire
    ensures forall op :: op in core.ops ==> op in Apply(core, e).ops && Apply(core, e).ops[op].written == core.ops[op].written
    ensures forall op :: op in core.ops ==> Part(Apply(core, e).ops, op) == Part(core.ops, op)
  {
    CoreCallsSame(core, e);
    if !(e.By? && e.action.TakeGate?) {
      StepFreezes(core, e);
    }
  }

  /** A send that makes no progress neither becomes nor stops being successful. */
  lemma SuccessSame(core: State, next: State, op: OpId)
    requires op in core.ops && OpInv(core, op) && core.ops[op].call.Send? && core.ops[op].call.data != []
    requires op in next.ops && OpInv(next, op) && CallKept(core.ops[op], next.ops[op])
    requires NotDropped(core.ops[op]) && next.ops[op].written == core.ops[op].written
    ensures next.ops[op].pc == Finished(Success) <==> core.ops[op].pc == Finished(Success)
  {
    hide OpInv;
    UnfinishedIsPartial(core, op);
    UnfinishedIsPartial(next, op);
  }

  lemma FrameNotEmpty(payload: Bytes)
    ensures EncodeFrame(payload) != []
  {
  }

  lemma HolderSuccessKept(s: Session, e: Event, next: Session)
    requires Inv(s.core) && LockInv(s) && Enabled(s.core, e) && CoreAllowed(s, e) && !Writes(e)
    requires next == Quiet(s, Apply(s.core, e))
    ensures HolderSucceeded(next) <==> HolderSucceeded(s)
  {
    hide Inv, OpInv, Apply, Enabled, EncodeFrame, Body, CallKept;
    if s.lock.Some? {
      var op := Holder(s).op;
      FrameNotEmpty(Body(s.sequence, Holder(s).ciphertext));
      QuietCore(s.core, e);
      CoreKeepsCalls(s.core, e);
      StepInv(s.core, e);
      assert next.core == Step(s.core, e);
      InvAt(s.core, op);
      InvAt(next.core, op);
      SuccessSame(s.core, next.core, op);
    }
  }

  /** Nothing that the account of the wire speaks of has changed. */
  predicate SameAccount(s: Session, core: State) {
    && core.wire == s.core.wire
    && (forall op :: op in s.core.ops ==>
          op in core.ops && core.ops[op].written == s.core.ops[op].written && Part(core.ops, op) == Part(s.core.ops, op))
    && (HolderSucceeded(Quiet(s, core)) <==> HolderSucceeded(s))
    && (s.status == Dead ==> Silenced(core))
  }

  lemma SameAccountWire(s: Session, core: State)
    requires LockInv(s) && WireInv(s) && s.status != Garbled && LockInv(Quiet(s, core)) && SameAccount(s, core)
    ensures WireInv(Quiet(s, core))
  {
    hide EncodeFrame, Body, OnWire, Framable, Part, PartialFrame, GoodRecords, Silenced;
  }

  lemma QuietWire(s: Session, e: Event)
    requires SendInv(s) && Enabled(s.core, e) && CoreAllowed(s, e) && !Writes(e) && s.status != Garbled
    requires LockInv(Quiet(s, Apply(s.core, e)))
    ensures WireInv(Quiet(s, Apply(s.core, e)))
  {
    hide EncodeFrame, Body, OnWire, Framable, Part, PartialFrame, GoodRecords, Silenced, HolderSucceeded, Inv, LockInv, Apply;
    QuietCore(s.core, e);
    HolderSuccessKept(s, e, Quiet(s, Apply(s.core, e)));
    CoreKeepsCalls(s.core, e);
    if s.status == Dead {
      SilencedStays(s.core, e);
    }
    SameAccountWire(s, Apply(s.core, e));
  }

  /** The core side of a write by the current frame's send. */
  lemma GrowCore(s: Session, op: OpId, count: nat)
    requires LockInv(s) && Ready(s.core, op, IoWrite(count)) && count > 0 && Current(s, op)
    ensures Grown(s, Write(s.core, op, count), op, s.core.ops[op].written, s.core.ops[op].written + count)
    ensures Payload(s.core.ops[op].call) == EncodeFrame(Body(s.sequence, Holder(s).ciphertext))
  {
    WriteEffect(s.core, op, count);
  }

  /** The core after the current frame's send has taken it from `from` to `to`. */
  predicate Grown(s: Session, core: State, op: OpId, from: nat, to: nat)
    requires s.lock.Some? && s.lock.value in s.sends && Holder(s).Writing?
  {
    var data := EncodeFrame(Body(s.sequence, Holder(s).ciphertext));
    && from < to <= |data|
    && op in core.ops && core.ops[op].call == Send(data) && core.ops[op].written == to
    && (core.ops[op].pc == Finished(Success) <==> to == |data|)
    && core.wire == s.core.wire + data[from..to]
  }

  function GrownBy(s: Session, core: State, op: OpId, from: nat, to: nat): Session
    requires Current(s, op) && Grown(s, core, op, from, to)
  {
    Grow(s, core, op, EncodeFrame(Body(s.sequence, Holder(s).ciphertext))[from..to])
  }

  lemma WireCompletes(base: Bytes, before: Bytes, data: Bytes, from: nat)
    requires from <= |data|
    ensures base + before + data[..from] + data[from..] == base + (before + data) + []
  {
    assert data[..from] + data[from..] == data;
  }

  lemma FrameCompleted(s: Session, core: State, op: OpId, from: nat, to: nat)
    requires LockInv(s) && WireInv(s) && s.status == Live && Current(s, op) && Grown(s, core, op, from, to)
    requires var data := EncodeFrame(Body(s.sequence, Holder(s).ciphertext));
      s.residue == data[..from] && |s.frames| == s.sequence && to == |data|
    requires LockInv(GrownBy(s, core, op, from, to))
    ensures WireInv(GrownBy(s, core, op, from, to)) && GrownBy(s, core, op, from, to).status == Live
  {
    hide EncodeFrame, OnWire;
    var record := Sealed(Holder(s).plain, Holder(s).ciphertext);
    var data := EncodeFrame(Body(s.sequence, record.ciphertext));
    var next := GrownBy(s, core, op, from, to);
    assert s.residue + data[from..to] == data;
    assert next.frames == s.frames + [record] && next.residue == [];
    OnWireAppend(s.frames, record);
    assert data[from..to] == data[from..];
    WireCompletes(s.base, OnWire(s.frames), data, from);
    assert next.core.wire == s.base + OnWire(next.frames) + next.residue;
  }

  lemma WireGrows(front: Bytes, data: Bytes, from: nat, to: nat)
    requires from <= to <= |data|
    ensures front + data[..from] + data[from..to] == front + data[..to]
    ensures data[..from] + data[from..to] == data[..to]
  {
  }

  lemma FrameGrew(s: Session, core: State, op: OpId, from: nat, to: nat)
    requires LockInv(s) && WireInv(s) && s.status == Live && Current(s, op) && Grown(s, core, op, from, to)
    requires var data := EncodeFrame(Body(s.sequence, Holder(s).ciphertext));
      s.residue == data[..from] && |s.frames| == s.sequence && to < |data|
    requires LockInv(GrownBy(s, core, op, from, to))
    ensures WireInv(GrownBy(s, core, op, from, to)) && GrownBy(s, core, op, from, to).status == Live
  {
    var ciphertext := Holder(s).ciphertext;
    var data := EncodeFrame(Body(s.sequence, ciphertext));
    WireGrows(s.base + OnWire(s.frames), data, from, to);
    assert PartOf(data[..to], s.sequence, ciphertext);
    var next := GrownBy(s, core, op, from, to);
    assert next.frames == s.frames && next.residue == data[..to];
    assert next.core.wire == s.base + OnWire(s.frames) + data[..to];
  }

  lemma LiveWriteKeeps(s: Session, core: State, op: OpId, from: nat, to: nat)
    requires LockInv(s) && WireInv(s) && s.status == Live && Current(s, op) && Grown(s, core, op, from, to)
    requires var data := EncodeFrame(Body(s.sequence, Holder(s).ciphertext));
      s.residue == data[..from] && |s.frames| == s.sequence
    requires LockInv(GrownBy(s, core, op, from, to))
    ensures WireInv(GrownBy(s, core, op, from, to))
  {
    if core.ops[op].pc == Finished(Success) {
      FrameCompleted(s, core, op, from, to);
    } else {
      FrameGrew(s, core, op, from, to);
    }
  }

  lemma WriteLive(s: Session, op: OpId, count: nat)
    requires LockInv(s) && WireInv(s) && s.status == Live
    requires Ready(s.core, op, IoWrite(count)) && count > 0 && Current(s, op)
    requires LockInv(CoreStep(s, By(op, IoWrite(count))))
    ensures WireInv(CoreStep(s, By(op, IoWrite(count))))
  {
    hide EncodeFrame, Body, OnWire, PartialFrame, GoodRecords, LockInv;
    GrowCore(s, op, count);
    var from, core := s.core.ops[op].written, Write(s.core, op, count);
    assert CoreStep(s, By(op, IoWrite(count))) == GrownBy(s, core, op, from, from + count);
    LiveWriteKeeps(s, core, op, from, from + count);
  }

  lemma WriteNotDead(s: Session, e: Event)
    requires SendInv(s) && SendEnabled(s, Core(e)) && Writes(e)
    ensures Current(s, e.id) && s.status != Dead
  {
    assert OpInv(s.core, e.id) && Current(s, e.id);
    if s.status == Dead {
      SilencedNoWrite(s.core, e.id);
    }
  }

  lemma CoreStepIsStep(s: Session, e: Event)
    requires Enabled(s.core, e)
    ensures var next := CoreStep(s, e);
      && next.core == Step(s.core, e) && next.core == Apply(s.core, e)
      && next.lock == s.lock && next.sends == s.sends && next.sequence == s.sequence
  {
  }

  lemma CoreStepCore(s: Session, e: Event)
    requires SendInv(s) && SendEnabled(s, Core(e))
    ensures Inv(CoreStep(s, e).core) && LockInv(CoreStep(s, e))
  {
    CoreStepIsStep(s, e);
    StepInv(s.core, e);
    CoreKeepsLock(s, e, CoreStep(s, e));
  }

  lemma WriteEventKeeps(s: Session, e: Event)
    requires SendInv(s) && SendEnabled(s, Core(e)) && Writes(e)
    ensures SendInv(CoreStep(s, e))
  {
    WriteNotDead(s, e);
    CoreStepCore(s, e);
    if s.status == Live {
      WriteLive(s, e.id, e.action.count);
    }
  }

  lemma QuietEventKeeps(s: Session, e: Event)
    requires SendInv(s) && SendEnabled(s, Core(e)) && !Writes(e)
    ensures SendInv(CoreStep(s, e))
  {
    CoreStepCore(s, e);
    if s.status != Garbled {
      QuietWire(s, e);
    }
  }

  // ------------------------------------------------------------------ session steps

  lemma StartKeeps(s: Session, id: SendId, plain: Bytes)
    requires SendInv(s) && id !in s.sends
    ensures SendInv(SetSend(s, id, AwaitLock(plain)))
  {
  }

  /** Before the lock is taken no data writer is running. */
  lemma LockIsExclusive(s: Session)
    requires LockInv(s) && s.lock.None?
    ensures forall op :: op in s.core.ops && IsWriter(s.core.ops[op].call) ==> s.core.ops[op].pc.Finished?
  {
    forall op | op in s.core.ops && IsWriter(s.core.ops[op].call) ensures s.core.ops[op].pc.Finished? {
      assert !Current(s, op);
    }
  }

  /** The lock is granted and the frame submitted. */
  predicate Submits(s: Session, id: SendId, ciphertext: Bytes, op: OpId) {
    && SendEnabled(s, TakeLock(id, ciphertext, op))
    && s.sequence + 1 < U64_LIMIT && Framable(Body(s.sequence, ciphertext))
  }

  lemma SubmitLock(s: Session, id: SendId, ciphertext: Bytes, op: OpId)
    requires LockInv(s) && Submits(s, id, ciphertext, op)
    ensures LockInv(Lock(s, id, ciphertext, op))
    ensures Lock(s, id, ciphertext, op).core == Apply(s.core, By(op, Begin(Send(EncodeFrame(Body(s.sequence, ciphertext))))))
  {
    LockIsExclusive(s);
  }

  lemma SubmitWire(s: Session, id: SendId, ciphertext: Bytes, op: OpId)
    requires SendInv(s) && Submits(s, id, ciphertext, op) && s.status != Garbled
    requires LockInv(Lock(s, id, ciphertext, op))
    ensures WireInv(Lock(s, id, ciphertext, op))
  {
    if s.status == Dead {
      var e := By(op, Begin(Send(EncodeFrame(Body(s.sequence, ciphertext)))));
      SilencedStays(s.core, e);
    }
  }

  lemma LockKeeps(s: Session, id: SendId, ciphertext: Bytes, op: OpId)
    requires SendInv(s) && SendEnabled(s, TakeLock(id, ciphertext, op))
    ensures SendInv(Lock(s, id, ciphertext, op))
  {
    if Submits(s, id, ciphertext, op) {
      SubmitLock(s, id, ciphertext, op);
      StepInv(s.core, By(op, Begin(Send(EncodeFrame(Body(s.sequence, ciphertext))))));
      if s.status != Garbled {
        SubmitWire(s, id, ciphertext, op);
      }
    }
  }

  /** When the lock holder leaves, no data writer is running any more. */
  lemma LeaveLock(s: Session, next: Session, id: SendId)
    requires LockInv(s) && s.lock == Some(id) && id in s.sends && s.sends[id].Writing?
    requires next.lock.None? && next.sends.Keys == s.sends.Keys && next.sends[id].Returned?
    requires forall other :: other in s.sends && other != id ==> next.sends[other] == s.sends[other]
    requires next.sequence < U64_LIMIT
    requires next.core.ops.Keys == s.core.ops.Keys
    requires forall op :: op in s.core.ops && op != s.sends[id].op ==> next.core.ops[op] == s.core.ops[op]
    requires s.sends[id].op in s.core.ops && next.core.ops[s.sends[id].op].pc.Finished?
    ensures LockInv(next)
  {
    forall op | op in next.core.ops && IsWriter(next.core.ops[op].call) ensures next.core.ops[op].pc.Finished? {
      assert op == s.sends[id].op || s.core.ops[op].pc.Finished? || Current(s, op);
    }
  }

  lemma FinishWire(s: Session, id: SendId)
    requires SendInv(s) && SendEnabled(s, FinishSend(id)) && s.status != Garbled
    requires LockInv(Finish(s, id))
    ensures WireInv(Finish(s, id))
  {
    hide Inv, EncodeFrame, Body, OnWire, PartialFrame, GoodRecords;
    var op := s.sends[id].op;
    assert OpInv(s.core, op) by { InvAt(s.core, op); }
    if s.status == Cut {
      FrameNotEmpty(Body(s.sequence, Holder(s).ciphertext));
      UnfinishedIsPartial(s.core, op);
    }
    if s.status == Live && !HolderSucceeded(s) && s.residue != [] {
      assert Torn(s.core.ops[op]) && op in s.core.order;
    }
  }

  lemma FinishKeeps(s: Session, id: SendId)
    requires SendInv(s) && SendEnabled(s, FinishSend(id))
    ensures SendInv(Finish(s, id))
  {
    assert Finish(s, id).core == s.core;
    LeaveLock(s, Finish(s, id), id);
    if s.status != Garbled {
      FinishWire(s, id);
    }
  }

  lemma AbandonWire(s: Session, id: SendId)
    requires SendInv(s) && SendEnabled(s, DropSend(id)) && s.sends[id].Writing? && s.status != Garbled
    requires LockInv(Abandon(s, id))
    ensures WireInv(Abandon(s, id))
  {
    hide EncodeFrame, Body, OnWire, PartialFrame, GoodRecords, Inv;
    var e := By(s.sends[id].op, Drop);
    InvAt(s.core, s.sends[id].op);
    if s.status == Dead {
      SilencedStays(s.core, e);
    }
  }

  lemma AbandonLock(s: Session, id: SendId)
    requires LockInv(s) && SendEnabled(s, DropSend(id)) && s.sends[id].Writing?
    ensures LockInv(Abandon(s, id)) && Abandon(s, id).core == Step(s.core, By(s.sends[id].op, Drop))
  {
    FinishStill(s.core, s.sends[id].op, Dropped);
    LeaveLock(s, Abandon(s, id), id);
  }

  lemma AbandonKeeps(s: Session, id: SendId)
    requires SendInv(s) && SendEnabled(s, DropSend(id)) && s.sends[id].Writing?
    ensures SendInv(Abandon(s, id))
  {
    AbandonLock(s, id);
    StepInv(s.core, By(s.sends[id].op, Drop));
    if s.status != Garbled {
      AbandonWire(s, id);
    }
  }

  /** The invariant of the sending direction survives every event. */
  lemma SendStepInv(s: Session, e: SendEvent)
    requires SendInv(s)
    ensures SendInv(SendStep(s, e))
  {
    if SendEnabled(s, e) {
      match e
      case Core(event) =>
        if Writes(event) { WriteEventKeeps(s, event); } else { QuietEventKeeps(s, event); }
      case StartSend(id, plain) => StartKeeps(s, id, plain);
      case TakeLock(id, ciphertext, op) => LockKeeps(s, id, ciphertext, op);
      case FinishSend(id) => FinishKeeps(s, id);
      case DropSend(id) =>
        if s.sends[id].Writing? { AbandonKeeps(s, id); }
    }
  }

  // ------------------------------------------------------------------ theorems

  lemma {:induction false} SendRunInv(start: Session, es: seq<SendEvent>)
    requires Fresh(start)
    ensures SendInv(SendRun(start, es))
  {
    if es == [] {
      assert Bodies(start.frames) == [];
    } else {
      SendRunInv(start, es[..|es| - 1]);
      SendStepInv(SendRun(start, es[..|es| - 1]), es[|es| - 1]);
    }
  }

  lemma {:induction false} NoDropNoCut(start: Session, es: seq<SendEvent>)
    requires Fresh(start)
    requires forall e :: e in es ==> !e.DropSend?
    ensures Sound(SendRun(start, es))
    ensures SendRun(start, es).base == start.base
  {
    if es != [] {
      NoDropNoCut(start, es[..|es| - 1]);
      SendRunInv(start, es[..|es| - 1]);
      StepSound(SendRun(start, es[..|es| - 1]), es[|es| - 1]);
    }
  }

  lemma StepSound(s: Session, e: SendEvent)
    requires SendInv(s) && Sound(s) && !e.DropSend?
    ensures Sound(SendStep(s, e)) && SendStep(s, e).base == s.base
  {
    if SendEnabled(s, e) {
      if e.Core? {
        CoreStepStatus(s, e.event);
      } else {
        OtherStepStatus(s, e);
      }
    }
  }

  lemma StepKeepsBase(s: Session, e: SendEvent)
    ensures SendStep(s, e).base == s.base
  {
  }

  lemma {:induction false} RunKeepsBase(start: Session, es: seq<SendEvent>)
    ensures SendRun(start, es).base == start.base
  {
    hide SendStep;
    if es != [] {
      RunKeepsBase(start, es[..|es| - 1]);
      StepKeepsBase(SendRun(start, es[..|es| - 1]), es[|es| - 1]);
    }
  }

  /** While nobody holds the send lock, no event of the core moves the wire. */
  lemma IdleCoreKeepsWire(s: Session, e: Event)
    requires SendInv(s) && s.lock.None?
    ensures SendStep(s, Core(e)).core.wire == s.core.wire
  {
    if SendEnabled(s, Core(e)) {
      if Writes(e) {
        WriteNotDead(s, e);
      } else {
        QuietCore(s.core, e);
      }
    }
  }

  /** A session step is at most one step of its core. */
  lemma StepIsCoreStep(s: Session, e: SendEvent)
    requires SendInv(s)
    ensures SendStep(s, e).core == s.core || exists event :: SendStep(s, e).core == Step(s.core, event)
  {
    if SendEnabled(s, e) {
      match e
      case Core(event) => CoreStepIsStep(s, event);
      case TakeLock(id, ciphertext, op) =>
        if Submits(s, id, ciphertext, op) {
          SubmitLock(s, id, ciphertext, op);
          assert Lock(s, id, ciphertext, op).core
            == Step(s.core, By(op, Begin(Send(EncodeFrame(Body(s.sequence, ciphertext))))));
        }
      case DropSend(id) =>
        if s.sends[id].Writing? {
          AbandonLock(s, id);
        }
      case _ =>
    }
  }

  lemma IdleKeepsWire(s: Session, e: SendEvent)
    requires SendInv(s) && s.lock.None?
    ensures SendStep(s, e).core.wire == s.core.wire
  {
    if e.Core? {
      IdleCoreKeepsWire(s, e.event);
    }
  }

  /** No frame was written behind one that was cut short. */
  predicate Intact(s: Session) {
    s.status != Garbled
  }

  predicate Sound(s: Session) {
    s.status.Live? || s.status.Dead?
  }

  lemma CoreStepStatus(s: Session, e: Event)
    requires SendInv(s) && SendEnabled(s, Core(e)) && Sound(s)
    ensures Sound(CoreStep(s, e)) && CoreStep(s, e).base == s.base
  {
    if Writes(e) {
      WriteNotDead(s, e);
    }
  }

  lemma OtherStepStatus(s: Session, e: SendEvent)
    requires SendEnabled(s, e) && Sound(s) && !e.Core? && !e.DropSend?
    ensures Sound(SendStep(s, e)) && SendStep(s, e).base == s.base
  {
  }

  /**
   One frame per sequence number on the wire. Without dropped futures the wire since the session
   began is the complete frames with sequence numbers 0, 1, 2, ... in this order, then at most a
   strict prefix of one frame with the next number, although encryption precedes writing and the
   counter advances only on success. A prefix without a writer at work means a closed connection.
   */
  lemma OneFramePerSequence(start: Session, es: seq<SendEvent>)
    requires Fresh(start)
    requires forall e :: e in es ==> !e.DropSend?
    ensures var s := SendRun(start, es);
      && s.core.wire == start.base + OnWire(s.frames) + s.residue
      && PartialFrame(s.residue, |s.frames|)
      && |s.frames| < U64_LIMIT
      && s.sequence <= |s.frames| <= s.sequence + 1
      && (s.residue != [] && s.lock.None? ==> Closed in s.core.flags)
  {
    SendRunInv(start, es);
    NoDropNoCut(start, es);
  }

  /** The identifiers of the sends that returned success. */
  function SentIds(sends: map<SendId, SendPoint>): set<SendId> {
    set id | id in sends && sends[id] == Returned(Sent)
  }

  /** The send counter is the number of successful sends, and never wraps. */
  lemma {:induction false} CounterCountsSends(start: Session, es: seq<SendEvent>)
    requires Fresh(start)
    ensures |SentIds(SendRun(start, es).sends)| == SendRun(start, es).sequence < U64_LIMIT
  {
    SendRunInv(start, es);
    if es == [] {
      assert SentIds(map[]) == {};
    } else {
      var s, e := SendRun(start, es[..|es| - 1]), es[|es| - 1];
      CounterCountsSends(start, es[..|es| - 1]);
      SendRunInv(start, es[..|es| - 1]);
      if SendEnabled(s, e) {
        StepCounts(s, e);
      }
    }
  }

  /** One send has moved to another point. */
  lemma SentIdsAfter(sends: map<SendId, SendPoint>, id: SendId, point: SendPoint)
    requires id in sends ==> !sends[id].Returned?
    ensures |SentIds(sends[id := point])| == |SentIds(sends)| + (if point == Returned(Sent) then 1 else 0)
  {
    var after := SentIds(sends[id := point]);
    if point == Returned(Sent) {
      assert after == SentIds(sends) + {id};
    } else {
      assert after == SentIds(sends);
    }
  }

  lemma StepCounts(s: Session, e: SendEvent)
    requires LockInv(s) && SendEnabled(s, e)
    ensures |SentIds(SendStep(s, e).sends)| - |SentIds(s.sends)| == SendStep(s, e).sequence - s.sequence
  {
    hide LockInv, SentIds;
    var next := SendStep(s, e);
    if e.Core? {
      CoreStepIsStep(s, e.event);
    } else {
      SentIdsAfter(s.sends, e.id, next.sends[e.id]);
    }
  }
}
