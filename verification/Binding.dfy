/**
 Secure sends and receives through the binding: the session machines of `Sender` and `Receiver`, each
 under its own outer gate and guard. Futures are dropped at any await point, and the token of the
 session is cancelled by anybody at any time: `close`, `abort`, the other direction, a discarded
 result, or the end of the session object.
 */
module Binding {
  import opened ByteStrings
  import opened Wrappers
  import opened Transport
  import opened TransportSafety
  import opened Protocol
  import opened Framing
  import opened SecureRecords
  import opened Tasks
  import opened Guarding
  import S = Sender
  import R = Receiver

  // ------------------------------------------------------------------ the sending direction

  datatype Sending = Sending(guard: Guard, inner: S.Session)

  datatype SendingEvent =
    | CoreStep(event: Event)
    | Call(id: CallId, plain: Bytes)
    | LockAndEncrypt(id: CallId, ciphertext: Bytes, op: OpId)
    | Resolve(id: CallId)                 // the inner send returned
    | Leave(id: CallId)                   // the future was dropped, or a biased select saw the token
    | Tick(id: CallId)                    // gate, checks, and the end of an unwinding call
    | CancelToken

  /** The size check in front of the session; every call has a number of its own. */
  predicate Admits(b: Sending, id: CallId, plain: Bytes) {
    |plain| <= MAX_PLAINTEXT_SIZE && id !in b.guard.calls && id !in b.inner.sends
  }

  /** The inner session's part of an event. */
  function InnerSend(b: Sending, e: SendingEvent): Option<S.SendEvent> {
    match e
    case CoreStep(event) => Some(S.Core(event))
    case Call(id, plain) =>
      if Admits(b, id, plain) then Some(S.StartSend(id, plain)) else None
    case LockAndEncrypt(id, ciphertext, op) =>
      if Is(b.guard, id, Guarded) then Some(S.TakeLock(id, ciphertext, op)) else None
    case Resolve(id) => if Is(b.guard, id, Guarded) then Some(S.FinishSend(id)) else None
    case Leave(id) =>
      if Is(b.guard, id, Guarded) || Is(b.guard, id, Queued) then Some(S.DropSend(id)) else None
    case _ => None
  }

  function InnerAfter(s: S.Session, e: Option<S.SendEvent>): S.Session {
    if e.Some? then S.SendStep(s, e.value) else s
  }

  /** The next step of a call that is waiting for the gate, checking, or unwinding. */
  function GuardTick(g: Guard, id: CallId, closed: bool): Option<GuardEvent> {
    if id !in g.calls then None else
    match g.calls[id]
    case Queued => Some(GuardEvent.TakeGate(id))
    case LoadToken => Some(CheckToken(id))
    case LoadClosed => Some(CheckClosed(id, closed))
    case Poisoning => Some(Poison(id))
    case Releasing => Some(Release(id))
    case _ => None
  }

  /** What the result of an inner send means for the guard. */
  function Settle(next: S.Session, id: CallId): Option<GuardEvent> {
    if id in next.sends && next.sends[id].Returned? then
      Some(if next.sends[id].result == S.Sent then Succeed(id) else Fail(id))
    else None
  }

  /** The guard's part of an event. */
  function GuardSend(b: Sending, e: SendingEvent): Option<GuardEvent> {
    var next := InnerAfter(b.inner, InnerSend(b, e));
    match e
    case CoreStep(_) => None
    case Call(id, plain) => if Admits(b, id, plain) then Some(Queue(id)) else None
    case LockAndEncrypt(id, _, _) => Settle(next, id)
    case Resolve(id) => Settle(next, id)
    case Leave(id) =>
      if !S.SendEnabled(b.inner, S.DropSend(id)) then None
      else if Is(b.guard, id, Queued) then Some(GuardEvent.Leave(id)) else Some(Fail(id))
    case Tick(id) => GuardTick(b.guard, id, Closed in b.inner.core.flags)
    case CancelToken => Some(Cancel)
  }

  function GuardAfter(g: Guard, e: Option<GuardEvent>): Guard {
    if e.Some? then GuardStep(g, e.value) else g
  }

  function SendingStep(b: Sending, e: SendingEvent): Sending {
    Sending(GuardAfter(b.guard, GuardSend(b, e)), InnerAfter(b.inner, InnerSend(b, e)))
  }

  function SendingRun(start: S.Session, es: seq<SendingEvent>): Sending {
    if es == [] then Sending(Fresh, start)
    else SendingStep(SendingRun(start, es[..|es| - 1]), es[|es| - 1])
  }

  /** How the inner session depends on the guard. */
  predicate Tied(g: Guard, s: S.Session) {
    && (s.lock.Some? ==> s.lock == g.gate && Is(g, s.lock.value, Guarded))
    && (g.health == Sound ==> s.status == S.Live)
    && (g.health == Spoiled ==> s.lock.None?)
    && s.status != S.Garbled
    && (forall id :: id in s.sends && !s.sends[id].Returned? ==> id in g.calls)
  }

  /** The binding takes over a session at any moment at which no send is under way and every earlier one, like
      the key confirmation of the handshake, has left a whole frame behind. */
  ghost predicate StartSending(s: S.Session) {
    && S.SendInv(s) && s.lock.None? && s.status == S.Live
    && forall id :: id in s.sends ==> s.sends[id].Returned?
  }

  ghost predicate SendingInv(b: Sending) {
    S.SendInv(b.inner) && GuardInv(b.guard) && Tied(b.guard, b.inner)
  }

  /** While no send is writing, or the current one writes its own frame, a live session stays live. */
  lemma CoreStepTied(g: Guard, s: S.Session, e: Event)
    requires Tied(g, s)
    ensures Tied(g, S.SendStep(s, S.Core(e)))
  {
  }

  lemma LockTied(g: Guard, s: S.Session, id: CallId, ciphertext: Bytes, op: OpId)
    requires Tied(g, s) && GuardInv(g) && S.LockInv(s) && Is(g, id, Guarded)
    ensures var next := S.SendStep(s, S.TakeLock(id, ciphertext, op));
      Tied(GuardAfter(g, Settle(next, id)), next)
  {
    assert g.health == Sound && g.gate == Some(id);
  }

  lemma ResolveTied(g: Guard, s: S.Session, id: CallId)
    requires Tied(g, s) && GuardInv(g) && S.LockInv(s) && Is(g, id, Guarded)
    ensures var next := S.SendStep(s, S.FinishSend(id));
      Tied(GuardAfter(g, Settle(next, id)), next)
  {
    assert g.health == Sound && g.gate == Some(id);
  }

  lemma LeaveTied(g: Guard, s: S.Session, id: CallId)
    requires Tied(g, s) && GuardInv(g) && S.LockInv(s)
    requires Is(g, id, Guarded) || Is(g, id, Queued)
    ensures var e := if !S.SendEnabled(s, S.DropSend(id)) then None
                     else if Is(g, id, Queued) then Some(GuardEvent.Leave(id)) else Some(Fail(id));
      Tied(GuardAfter(g, e), S.SendStep(s, S.DropSend(id)))
  {
  }

  lemma TickTied(g: Guard, s: S.Session, e: Option<GuardEvent>)
    requires Tied(g, s) && GuardInv(g)
    requires e.Some? ==> e.value.Cancel? || e.value.TakeGate? || e.value.CheckToken? || e.value.CheckClosed?
                         || e.value.Poison? || e.value.Release? || e.value.Leave?
    ensures Tied(GuardAfter(g, e), s)
  {
  }

  /** The binding's invariant survives every event. */
  lemma SendingStepInv(b: Sending, e: SendingEvent)
    requires SendingInv(b)
    ensures SendingInv(SendingStep(b, e))
  {
    if InnerSend(b, e).Some? {
      S.SendStepInv(b.inner, InnerSend(b, e).value);
    }
    if GuardSend(b, e).Some? {
      GuardStepInv(b.guard, GuardSend(b, e).value);
    }
    SendingStepTied(b, e);
  }

  lemma SendingStepTied(b: Sending, e: SendingEvent)
    requires Tied(b.guard, b.inner) && GuardInv(b.guard) && S.LockInv(b.inner)
    ensures Tied(SendingStep(b, e).guard, SendingStep(b, e).inner)
  {
    match e
    case CoreStep(event) => CoreStepTied(b.guard, b.inner, event);
    case LockAndEncrypt(id, ciphertext, op) =>
      if Is(b.guard, id, Guarded) { LockTied(b.guard, b.inner, id, ciphertext, op); }
    case Resolve(id) => if Is(b.guard, id, Guarded) { ResolveTied(b.guard, b.inner, id); }
    case Leave(id) =>
      if Is(b.guard, id, Guarded) || Is(b.guard, id, Queued) { LeaveTied(b.guard, b.inner, id); }
    case Call(_, _) =>
    case _ => TickTied(b.guard, b.inner, GuardSend(b, e));
  }

  lemma {:induction false} SendingRunInv(start: S.Session, es: seq<SendingEvent>)
    requires StartSending(start)
    ensures SendingInv(SendingRun(start, es))
  {
    if es != [] {
      SendingRunInv(start, es[..|es| - 1]);
      SendingStepInv(SendingRun(start, es[..|es| - 1]), es[|es| - 1]);
    }
  }

  lemma {:induction false} SendingBase(start: S.Session, es: seq<SendingEvent>)
    ensures SendingRun(start, es).inner.base == start.base
  {
    if es != [] {
      var b, e := SendingRun(start, es[..|es| - 1]), es[|es| - 1];
      SendingBase(start, es[..|es| - 1]);
      if InnerSend(b, e).Some? {
        S.StepKeepsBase(b.inner, InnerSend(b, e).value);
      }
    }
  }

  /**
   The directional wire under the binding, with futures dropped at any await point: complete frames
   numbered 0, 1, 2, ... and then at most a strict prefix of one frame with the next number. The prefix
   belongs to the call at the gate, or some guarded call has failed.
   */
  lemma SendingIsIntact(start: S.Session, es: seq<SendingEvent>)
    requires StartSending(start)
    ensures var b := SendingRun(start, es); var s := b.inner;
      && S.Intact(s)
      && s.core.wire == start.base + S.OnWire(s.frames) + s.residue
      && S.PartialFrame(s.residue, |s.frames|)
      && (s.residue != [] && b.guard.health == Sound ==>
            s.lock.Some? && s.lock == b.guard.gate && Is(b.guard, s.lock.value, Guarded))
  {
    SendingRunInv(start, es);
    SendingBase(start, es);
  }

  /**
   A failed or cancelled secure send is the last send to touch the wire: once the guard of one call has
   gone off, no event puts another byte of a secure send on it.
   */
  lemma FailedSendIsLast(start: S.Session, es: seq<SendingEvent>, more: seq<SendingEvent>, id: CallId)
    requires StartSending(start) && id in SendingRun(start, es).guard.calls
    requires WentOff(SendingRun(start, es).guard.calls[id])
    ensures SendingRun(start, es + more).inner.core.wire == SendingRun(start, es).inner.core.wire
    ensures SendingRun(start, es + more).guard.health == Spoiled
  {
    SendingRunInv(start, es);
    WireFrozen(start, es, more);
  }

  lemma {:induction false} WireFrozen(start: S.Session, es: seq<SendingEvent>, more: seq<SendingEvent>)
    requires StartSending(start) && SendingRun(start, es).guard.health == Spoiled
    ensures SendingRun(start, es + more).inner.core.wire == SendingRun(start, es).inner.core.wire
    ensures SendingRun(start, es + more).guard.health == Spoiled
  {
    hide StartSending, SendingStep, SendingInv;
    if more == [] {
      assert es + more == es;
    } else {
      var init := more[..|more| - 1];
      WireFrozen(start, es, init);
      assert (es + more)[..|es + more| - 1] == es + init;
      SendingRunInv(start, es + init);
      SpoiledStep(SendingRun(start, es + init), more[|more| - 1]);
    }
  }

  lemma SpoiledStep(b: Sending, e: SendingEvent)
    requires SendingInv(b) && b.guard.health == Spoiled
    ensures SendingStep(b, e).inner.core.wire == b.inner.core.wire
    ensures SendingStep(b, e).guard.health == Spoiled
  {
    hide S.SendStep, S.SendInv, GuardSend, GuardStep, GuardInv;
    if GuardSend(b, e).Some? {
      GuardStepInv(b.guard, GuardSend(b, e).value);
    }
    if InnerSend(b, e).Some? {
      S.IdleKeepsWire(b.inner, InnerSend(b, e).value);
    }
  }

  /** What the size check in front of the session admits. */
  predicate Admitted(point: S.SendPoint) {
    match point
    case AwaitLock(plain) => |plain| <= MAX_PLAINTEXT_SIZE
    case Writing(plain, _, _) => |plain| <= MAX_PLAINTEXT_SIZE
    case Returned(result) => result != S.BadSize
  }

  /** The size check decides: a rejected plaintext leaves everything as it was, so it uses no sequence
      number, and an admitted one is never rejected by the frame-size check after encryption. */
  lemma SizeCheckDecides(start: S.Session, es: seq<SendingEvent>, id: CallId, plain: Bytes)
    requires StartSending(start)
    ensures var b := SendingRun(start, es);
      && (|plain| > MAX_PLAINTEXT_SIZE ==> SendingStep(b, Call(id, plain)) == b)
      && (|plain| <= MAX_PLAINTEXT_SIZE && id !in b.guard.calls && id !in b.inner.sends ==>
            Is(SendingStep(b, Call(id, plain)).guard, id, Queued))
      && AllAdmitted(b)
  {
    AdmittedRun(start, es);
  }

  predicate AllAdmitted(b: Sending) {
    forall id :: id in b.inner.sends && id in b.guard.calls ==> Admitted(b.inner.sends[id])
  }

  lemma {:induction false} AdmittedRun(start: S.Session, es: seq<SendingEvent>)
    ensures AllAdmitted(SendingRun(start, es))
  {
    hide SendingStep, AllAdmitted;
    if es == [] {
      AdmittedStart(start);
    } else {
      AdmittedRun(start, es[..|es| - 1]);
      AdmittedStep(SendingRun(start, es[..|es| - 1]), es[|es| - 1]);
    }
  }

  lemma AdmittedStart(start: S.Session)
    ensures AllAdmitted(Sending(Fresh, start))
  {
  }

  lemma AdmittedStep(b: Sending, e: SendingEvent)
    requires AllAdmitted(b)
    ensures AllAdmitted(SendingStep(b, e))
  {
    if e.LockAndEncrypt? && e.id in b.inner.sends && b.inner.sends[e.id].AwaitLock? {
      if |e.ciphertext| == |b.inner.sends[e.id].plain| + TAG_SIZE {
        PlaintextBound(b.inner.sends[e.id].plain, b.inner.sequence, e.ciphertext);
      }
    }
  }

  // ------------------------------------------------------------------ the receiving direction

  datatype Receiving = Receiving(guard: Guard, inner: R.Inbox)

  /** Handing a received plaintext over to the caller may still fail. */
  datatype Handover = Handed | Lost

  datatype ReceivingEvent =
    | RxCore(event: Event)
    | RxCall(id: CallId)
    | RxLock(id: CallId)
    | RxIssue(id: CallId, op: OpId)
    | RxCollect(id: CallId, oracle: Oracle, handover: Handover)
    | RxLeave(id: CallId)
    | RxTick(id: CallId)
    | RxCancel

  function InnerReceive(b: Receiving, e: ReceivingEvent): Option<R.ReceiveEvent> {
    match e
    case RxCore(event) => Some(R.Core(event))
    case RxCall(id) => if id !in b.guard.calls && id !in b.inner.receives then Some(R.StartReceive(id)) else None
    case RxLock(id) => if Is(b.guard, id, Guarded) then Some(R.TakeLock(id)) else None
    case RxIssue(id, op) => if Is(b.guard, id, Guarded) then Some(R.Issue(id, op)) else None
    case RxCollect(id, oracle, _) => if Is(b.guard, id, Guarded) then Some(R.Collect(id, oracle)) else None
    case RxLeave(id) =>
      if Is(b.guard, id, Guarded) || Is(b.guard, id, Queued) then Some(R.DropReceive(id)) else None
    case _ => None
  }

  function InboxAfter(s: R.Inbox, lane: Lane, e: Option<R.ReceiveEvent>): R.Inbox {
    if e.Some? then R.ReceiveStep(s, lane, e.value) else s
  }

  function SettleReceive(next: R.Inbox, id: CallId, handover: Handover): Option<GuardEvent> {
    if id in next.receives && next.receives[id].Returned? then
      Some(if next.receives[id].outcome.Plain? && handover == Handed then Succeed(id) else Fail(id))
    else None
  }

  function GuardReceive(b: Receiving, lane: Lane, e: ReceivingEvent): Option<GuardEvent> {
    match e
    case RxCall(id) => if id !in b.inner.receives then Some(Queue(id)) else None
    case RxCollect(id, _, handover) => SettleReceive(InboxAfter(b.inner, lane, InnerReceive(b, e)), id, handover)
    case RxLeave(id) =>
      if !R.ReceiveEnabled(b.inner, R.DropReceive(id)) then None
      else if Is(b.guard, id, Queued) then Some(GuardEvent.Leave(id)) else Some(Fail(id))
    case RxTick(id) => GuardTick(b.guard, id, Closed in b.inner.core.flags)
    case RxCancel => Some(Cancel)
    case _ => None
  }

  function ReceivingStep(b: Receiving, lane: Lane, e: ReceivingEvent): Receiving {
    Receiving(GuardAfter(b.guard, GuardReceive(b, lane, e)), InboxAfter(b.inner, lane, InnerReceive(b, e)))
  }

  function ReceivingRun(start: R.Inbox, lane: Lane, es: seq<ReceivingEvent>): Receiving {
    if es == [] then Receiving(Fresh, start)
    else ReceivingStep(ReceivingRun(start, lane, es[..|es| - 1]), lane, es[|es| - 1])
  }

  predicate Bound(g: Guard, s: R.Inbox) {
    && (s.lock.Some? ==> s.lock == g.gate && Is(g, s.lock.value, Guarded))
    && (g.health == Sound ==> s.alignment == R.Aligned)
    && (g.health == Spoiled ==> s.lock.None?)
    && (forall id :: id in s.receives && !s.receives[id].Returned? ==> id in g.calls)
  }

  /** Likewise for receives: none is under way, and the stream is on a frame boundary. */
  ghost predicate StartReceiving(s: R.Inbox) {
    && R.ReceiveInv(s) && s.lock.None? && s.alignment == R.Aligned
    && forall id :: id in s.receives ==> s.receives[id].Returned?
  }

  ghost predicate ReceivingInv(b: Receiving) {
    R.ReceiveInv(b.inner) && GuardInv(b.guard) && Bound(b.guard, b.inner)
  }

  lemma CollectBound(g: Guard, s: R.Inbox, lane: Lane, id: CallId, oracle: Oracle, handover: Handover)
    requires Bound(g, s) && GuardInv(g) && R.LockInv(s) && Is(g, id, Guarded)
    ensures var next := R.ReceiveStep(s, lane, R.Collect(id, oracle));
      Bound(GuardAfter(g, SettleReceive(next, id, handover)), next)
  {
    assert g.health == Sound && g.gate == Some(id);
  }

  lemma LeaveBound(g: Guard, s: R.Inbox, lane: Lane, id: CallId)
    requires Bound(g, s) && GuardInv(g) && R.LockInv(s)
    requires Is(g, id, Guarded) || Is(g, id, Queued)
    ensures var e := if !R.ReceiveEnabled(s, R.DropReceive(id)) then None
                     else if Is(g, id, Queued) then Some(GuardEvent.Leave(id)) else Some(Fail(id));
      Bound(GuardAfter(g, e), R.ReceiveStep(s, lane, R.DropReceive(id)))
  {
  }

  lemma TickBound(g: Guard, s: R.Inbox, e: Option<GuardEvent>)
    requires Bound(g, s) && GuardInv(g)
    requires e.Some? ==> e.value.Cancel? || e.value.TakeGate? || e.value.CheckToken? || e.value.CheckClosed?
                         || e.value.Poison? || e.value.Release? || e.value.Leave?
    ensures Bound(GuardAfter(g, e), s)
  {
  }

  /** Starting, locking and issuing, and steps of the core, keep a frame boundary. */
  lemma OtherBound(g: Guard, s: R.Inbox, lane: Lane, e: R.ReceiveEvent)
    requires Bound(g, s) && GuardInv(g)
    requires e.Core? || ((e.TakeLock? || e.Issue?) && Is(g, e.id, Guarded))
    ensures Bound(g, R.ReceiveStep(s, lane, e))
  {
    if !e.Core? {
      assert g.health == Sound && g.gate == Some(e.id);
    }
  }

  lemma ReceivingStepBound(b: Receiving, lane: Lane, e: ReceivingEvent)
    requires Bound(b.guard, b.inner) && GuardInv(b.guard) && R.LockInv(b.inner)
    ensures Bound(ReceivingStep(b, lane, e).guard, ReceivingStep(b, lane, e).inner)
  {
    match e
    case RxCore(event) => OtherBound(b.guard, b.inner, lane, R.Core(event));
    case RxLock(id) => if Is(b.guard, id, Guarded) { OtherBound(b.guard, b.inner, lane, R.TakeLock(id)); }
    case RxIssue(id, op) => if Is(b.guard, id, Guarded) { OtherBound(b.guard, b.inner, lane, R.Issue(id, op)); }
    case RxCollect(id, oracle, handover) =>
      if Is(b.guard, id, Guarded) { CollectBound(b.guard, b.inner, lane, id, oracle, handover); }
    case RxLeave(id) =>
      if Is(b.guard, id, Guarded) || Is(b.guard, id, Queued) { LeaveBound(b.guard, b.inner, lane, id); }
    case RxCall(_) =>
    case _ => TickBound(b.guard, b.inner, GuardReceive(b, lane, e));
  }

  lemma ReceivingStepInv(b: Receiving, lane: Lane, e: ReceivingEvent)
    requires ReceivingInv(b)
    ensures ReceivingInv(ReceivingStep(b, lane, e))
  {
    if InnerReceive(b, e).Some? {
      R.ReceiveStepInv(b.inner, lane, InnerReceive(b, e).value);
    }
    if GuardReceive(b, lane, e).Some? {
      GuardStepInv(b.guard, GuardReceive(b, lane, e).value);
    }
    ReceivingStepBound(b, lane, e);
  }

  lemma {:induction false} ReceivingRunInv(start: R.Inbox, lane: Lane, es: seq<ReceivingEvent>)
    requires StartReceiving(start)
    ensures ReceivingInv(ReceivingRun(start, lane, es))
  {
    if es != [] {
      ReceivingRunInv(start, lane, es[..|es| - 1]);
      ReceivingStepInv(ReceivingRun(start, lane, es[..|es| - 1]), lane, es[|es| - 1]);
    }
  }

  /**
   Every secure receive that reads a byte starts exactly at a frame boundary: an event that consumes
   incoming bytes happens on behalf of a call that is past its open check, and the bytes consumed before
   that call began are whole frames.
   */
  lemma ReceivesStartAligned(start: R.Inbox, lane: Lane, es: seq<ReceivingEvent>, e: ReceivingEvent)
    requires StartReceiving(start)
    requires var b := ReceivingRun(start, lane, es);
      ReceivingStep(b, lane, e).inner.core.delivered != b.inner.core.delivered
    ensures var b := ReceivingRun(start, lane, es); var s := b.inner;
      && s.lock.Some? && Is(b.guard, s.lock.value, Guarded)
      && s.start <= |s.core.delivered|
      && s.core.delivered[..s.start] == s.base + EncodeFrames(s.taken)
      && s.core.delivered[s.start..] == R.Fetched(s)
  {
    ReceivingRunInv(start, lane, es);
    MovingNeedsLock(ReceivingRun(start, lane, es), lane, e);
  }

  lemma MovingNeedsLock(b: Receiving, lane: Lane, e: ReceivingEvent)
    requires ReceivingInv(b)
    ensures b.inner.lock.None? ==> ReceivingStep(b, lane, e).inner.core.delivered == b.inner.core.delivered
  {
    hide R.ReceiveStep, R.ReceiveInv, GuardReceive, GuardStep;
    if b.inner.lock.None? && InnerReceive(b, e).Some? {
      R.IdleKeepsStream(b.inner, lane, InnerReceive(b, e).value);
    }
  }

  /** A failed or cancelled secure receive is the last to consume bytes. */
  lemma FailedReceiveIsLast(start: R.Inbox, lane: Lane, es: seq<ReceivingEvent>, more: seq<ReceivingEvent>, id: CallId)
    requires StartReceiving(start) && id in ReceivingRun(start, lane, es).guard.calls
    requires WentOff(ReceivingRun(start, lane, es).guard.calls[id])
    ensures ReceivingRun(start, lane, es + more).inner.core.delivered == ReceivingRun(start, lane, es).inner.core.delivered
    ensures ReceivingRun(start, lane, es + more).guard.health == Spoiled
  {
    ReceivingRunInv(start, lane, es);
    StreamFrozen(start, lane, es, more);
  }

  lemma {:induction false} StreamFrozen(start: R.Inbox, lane: Lane, es: seq<ReceivingEvent>, more: seq<ReceivingEvent>)
    requires StartReceiving(start) && ReceivingRun(start, lane, es).guard.health == Spoiled
    ensures ReceivingRun(start, lane, es + more).inner.core.delivered == ReceivingRun(start, lane, es).inner.core.delivered
    ensures ReceivingRun(start, lane, es + more).guard.health == Spoiled
  {
    hide StartReceiving, ReceivingStep, ReceivingInv;
    if more == [] {
      assert es + more == es;
    } else {
      var init := more[..|more| - 1];
      StreamFrozen(start, lane, es, init);
      assert (es + more)[..|es + more| - 1] == es + init;
      ReceivingRunInv(start, lane, es + init);
      SpoiledReceives(ReceivingRun(start, lane, es + init), lane, more[|more| - 1]);
    }
  }

  lemma SpoiledReceives(b: Receiving, lane: Lane, e: ReceivingEvent)
    requires ReceivingInv(b) && b.guard.health == Spoiled
    ensures ReceivingStep(b, lane, e).inner.core.delivered == b.inner.core.delivered
    ensures ReceivingStep(b, lane, e).guard.health == Spoiled
  {
    MovingNeedsLock(b, lane, e);
    SpoiledStays(b, lane, e);
  }

  lemma SpoiledStays(b: Receiving, lane: Lane, e: ReceivingEvent)
    requires ReceivingInv(b) && b.guard.health == Spoiled
    ensures ReceivingStep(b, lane, e).guard.health == Spoiled
  {
    if GuardReceive(b, lane, e).Some? {
      GuardStepInv(b.guard, GuardReceive(b, lane, e).value);
    }
  }
}
