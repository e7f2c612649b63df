/**
 Both ends of a traffic direction from the handshake on. At first each session is used by its own handshake
 alone, without a guard; once the key confirmation has gone through, the binding takes the session over, each
 side at its own time. From then on sends and receives are dropped at any await point, and the guards see to
 it that what end-to-end delivery needs is never broken: no hypothesis about dropped futures is left.
 */
module BoundEndToEnd {
  import opened ByteStrings
  import opened Wrappers
  import opened Transport
  import opened SecureRecords
  import opened Guarding
  import opened Binding
  import opened EndToEnd
  import S = Sender
  import R = Receiver

  /** `Bare`: used by the handshake. `Abandoned`: the handshake was dropped while it was writing, and with it the
      session. `Behind`: taken over by the binding. */
  datatype Side = Bare | Abandoned | Behind(guard: Guard)

  datatype Ends = Ends(tx: Side, rx: Side, pair: Pair)

  datatype EndsEvent =
    | BareTx(bareSend: S.SendEvent)
    | BareRx(bareReceive: R.ReceiveEvent)
    | TakeOverTx
    | TakeOverRx
    | BoundTx(send: SendingEvent)
    | BoundRx(receive: ReceivingEvent)

  predicate TxReady(s: S.Session) {
    s.lock.None? && s.status == S.Live && forall id :: id in s.sends ==> s.sends[id].Returned?
  }

  predicate RxReady(s: R.Inbox) {
    s.lock.None? && s.alignment == R.Aligned && forall id :: id in s.receives ==> s.receives[id].Returned?
  }

  /** The pipe alone feeds the receiver, and its cipher opens exactly what has been sealed. */
  function Informed(d: Ends, lane: Lane, foreign: Oracle, e: ReceivingEvent): ReceivingEvent {
    if e.RxCollect? then RxCollect(e.id, Known(d.pair, lane, foreign), e.handover) else e
  }

  predicate FeedsReceiver(e: ReceivingEvent) {
    e.RxCore? && (e.event.PeerWrites? || e.event.PeerShuts?)
  }

  /** A handshake that is dropped inside a write ends its session. */
  predicate EndsSession(s: S.Session, e: S.SendEvent) {
    e.DropSend? && S.SendEnabled(s, e) && s.sends[e.id].Writing?
  }

  function BareTxStep(d: Ends, lane: Lane, foreign: Oracle, e: S.SendEvent): Ends {
    match d.tx
    case Bare =>
      Ends(if EndsSession(d.pair.tx, e) then Abandoned else Bare, d.rx, PairStep(d.pair, lane, foreign, Tx(e)))
    case Abandoned => if e.Core? then Ends(Abandoned, d.rx, PairStep(d.pair, lane, foreign, Tx(e))) else d
    case Behind(_) => d
  }

  function BoundTxStep(d: Ends, lane: Lane, foreign: Oracle, e: SendingEvent): Ends
    requires d.tx.Behind?
  {
    var b := Sending(d.tx.guard, d.pair.tx);
    var inner := InnerSend(b, e);
    Ends(Behind(GuardAfter(d.tx.guard, GuardSend(b, e))), d.rx,
         if inner.Some? then PairStep(d.pair, lane, foreign, Tx(inner.value)) else d.pair)
  }

  function BoundRxStep(d: Ends, lane: Lane, foreign: Oracle, e: ReceivingEvent): Ends
    requires d.rx.Behind?
  {
    var b, known := Receiving(d.rx.guard, d.pair.rx), Informed(d, lane, foreign, e);
    var inner := InnerReceive(b, known);
    Ends(d.tx, Behind(GuardAfter(d.rx.guard, GuardReceive(b, lane, known))),
         if inner.Some? then PairStep(d.pair, lane, foreign, Rx(inner.value)) else d.pair)
  }

  function EndsStep(d: Ends, lane: Lane, foreign: Oracle, e: EndsEvent): Ends {
    match e
    case BareTx(send) => BareTxStep(d, lane, foreign, send)
    case BareRx(receive) =>
      if d.rx == Bare then Ends(d.tx, Bare, PairStep(d.pair, lane, foreign, Rx(receive))) else d
    case TakeOverTx => if d.tx == Bare && TxReady(d.pair.tx) then Ends(Behind(Guarding.Fresh), d.rx, d.pair) else d
    case TakeOverRx => if d.rx == Bare && RxReady(d.pair.rx) then Ends(d.tx, Behind(Guarding.Fresh), d.pair) else d
    case BoundTx(send) => if d.tx.Behind? then BoundTxStep(d, lane, foreign, send) else d
    case BoundRx(receive) =>
      if d.rx.Behind? && !FeedsReceiver(receive) then BoundRxStep(d, lane, foreign, receive) else d
  }

  function EndsRun(start: Pair, lane: Lane, foreign: Oracle, es: seq<EndsEvent>): Ends {
    if es == [] then Ends(Bare, Bare, start)
    else EndsStep(EndsRun(start, lane, foreign, es[..|es| - 1]), lane, foreign, es[|es| - 1])
  }

  // ------------------------------------------------------------------ invariant

  ghost predicate TxInv(side: Side, s: S.Session) {
    match side
    case Bare => S.Sound(s)
    case Abandoned => s.lock.None?
    case Behind(g) => SendingInv(Sending(g, s))
  }

  ghost predicate RxInv(side: Side, s: R.Inbox) {
    side.Behind? ==> ReceivingInv(Receiving(side.guard, s))
  }

  ghost predicate EndsInv(d: Ends) {
    Good(d.pair) && TxInv(d.tx, d.pair.tx) && RxInv(d.rx, d.pair.rx)
  }

  /** The pipe feeds the receiver without touching its session. */
  lemma FeedKeepsRx(side: Side, rx: R.Inbox, next: R.Inbox)
    requires RxInv(side, rx) && SameSession(rx, next) && R.ReceiveInv(next)
    ensures RxInv(side, next)
  {
  }

  /** One step of the sending session, seen from the other end. */
  lemma SendKeepsRx(d: Ends, lane: Lane, foreign: Oracle, e: S.SendEvent)
    requires Good(d.pair) && RxInv(d.rx, d.pair.rx) && Honest(foreign, lane, []) && S.Intact(S.SendStep(d.pair.tx, e))
    ensures Good(PairStep(d.pair, lane, foreign, Tx(e))) && RxInv(d.rx, PairStep(d.pair, lane, foreign, Tx(e)).rx)
    ensures PairStep(d.pair, lane, foreign, Tx(e)).tx == S.SendStep(d.pair.tx, e)
  {
    hide S.SendStep, S.SendInv, S.Intact, R.ReceiveStep, Link, RxInv;
    var tx := S.SendStep(d.pair.tx, e);
    StepGood(d.pair, lane, foreign, Tx(e));
    SendStepPipe(d.pair.tx, e);
    LinkKeeps(d.pair.rx, lane, d.pair.tx.core, tx.core);
    FeedKeepsRx(d.rx, d.pair.rx, Link(d.pair.rx, lane, d.pair.tx.core, tx.core));
  }

  lemma ReceiveKeepsGood(pair: Pair, lane: Lane, foreign: Oracle, e: R.ReceiveEvent)
    requires Good(pair) && Honest(foreign, lane, [])
    ensures Good(PairStep(pair, lane, foreign, Rx(e))) && PairStep(pair, lane, foreign, Rx(e)).tx == pair.tx
  {
    hide S.SendInv, R.ReceiveStep;
    StepGood(pair, lane, foreign, Rx(e));
  }

  /** The handshake's own send and the steps of its core. */
  lemma BareTxKeeps(s: S.Session, side: Side, e: S.SendEvent)
    requires S.SendInv(s) && S.Intact(s) && TxInv(side, s) && !side.Behind? && (side == Abandoned ==> e.Core?)
    ensures var next := S.SendStep(s, e);
      S.Intact(next) && TxInv(if side == Abandoned || EndsSession(s, e) then Abandoned else Bare, next)
  {
    if side == Bare && !e.DropSend? {
      S.StepSound(s, e);
    }
  }

  lemma BareTxEnds(d: Ends, lane: Lane, foreign: Oracle, e: S.SendEvent)
    requires EndsInv(d) && Honest(foreign, lane, [])
    ensures EndsInv(BareTxStep(d, lane, foreign, e))
  {
    hide S.SendStep, RxInv, TxInv, PairStep;
    if !d.tx.Behind? && (d.tx == Abandoned ==> e.Core?) {
      BareTxKeeps(d.pair.tx, d.tx, e);
      SendKeepsRx(d, lane, foreign, e);
    }
  }

  lemma BoundTxEnds(d: Ends, lane: Lane, foreign: Oracle, e: SendingEvent)
    requires EndsInv(d) && Honest(foreign, lane, []) && d.tx.Behind?
    ensures EndsInv(BoundTxStep(d, lane, foreign, e))
  {
    hide Good, RxInv, PairStep, S.SendStep, InnerSend, GuardSend, GuardStep, S.SendInv;
    var b := Sending(d.tx.guard, d.pair.tx);
    SendingStepInv(b, e);
    var inner := InnerSend(b, e);
    if inner.Some? {
      SendKeepsRx(d, lane, foreign, inner.value);
    }
  }

  lemma BoundRxEnds(d: Ends, lane: Lane, foreign: Oracle, e: ReceivingEvent)
    requires EndsInv(d) && Honest(foreign, lane, []) && d.rx.Behind? && !FeedsReceiver(e)
    ensures EndsInv(BoundRxStep(d, lane, foreign, e))
  {
    hide Good, TxInv, ReceivingInv;
    var b, known := Receiving(d.rx.guard, d.pair.rx), Informed(d, lane, foreign, e);
    ReceivingStepInv(b, lane, known);
    BoundRxMoves(d, lane, foreign, e);
    var inner := InnerReceive(b, known);
    if inner.Some? {
      ReceiveKeepsGood(d.pair, lane, foreign, inner.value);
    }
  }

  /** The receiving side moves exactly as the binding's own machine does. */
  lemma BoundRxMoves(d: Ends, lane: Lane, foreign: Oracle, e: ReceivingEvent)
    requires d.rx.Behind? && !FeedsReceiver(e)
    ensures var next := BoundRxStep(d, lane, foreign, e);
      && next.rx.Behind? && Receiving(next.rx.guard, next.pair.rx)
         == ReceivingStep(Receiving(d.rx.guard, d.pair.rx), lane, Informed(d, lane, foreign, e))
  {
  }

  lemma TakeOverTxEnds(d: Ends, lane: Lane, foreign: Oracle)
    requires EndsInv(d)
    ensures EndsInv(EndsStep(d, lane, foreign, TakeOverTx))
  {
    hide Good, RxInv, S.SendInv, S.Sound, PairStep;
    if d.tx == Bare && TxReady(d.pair.tx) {
      assert S.SendInv(d.pair.tx) by { GoodSends(d.pair); }
    }
  }

  lemma TakeOverRxEnds(d: Ends, lane: Lane, foreign: Oracle)
    requires EndsInv(d)
    ensures EndsInv(EndsStep(d, lane, foreign, TakeOverRx))
  {
    hide Good, TxInv, R.ReceiveInv, PairStep;
    if d.rx == Bare && RxReady(d.pair.rx) {
      assert R.ReceiveInv(d.pair.rx) by { GoodSends(d.pair); }
    }
  }

  lemma GoodSends(pair: Pair)
    requires Good(pair)
    ensures S.SendInv(pair.tx) && R.ReceiveInv(pair.rx)
  {
    hide S.SendInv, R.ReceiveInv;
  }

  lemma EndsStepInv(d: Ends, lane: Lane, foreign: Oracle, e: EndsEvent)
    requires EndsInv(d) && Honest(foreign, lane, [])
    ensures EndsInv(EndsStep(d, lane, foreign, e))
  {
    hide EndsInv, BareTxStep, BoundTxStep, BoundRxStep;
    match e
    case BareTx(send) => BareTxEnds(d, lane, foreign, send);
    case BareRx(receive) => BareRxEnds(d, lane, foreign, receive);
    case BoundTx(send) => if d.tx.Behind? { BoundTxEnds(d, lane, foreign, send); }
    case TakeOverTx => TakeOverTxEnds(d, lane, foreign);
    case TakeOverRx => TakeOverRxEnds(d, lane, foreign);
    case BoundRx(receive) =>
      if d.rx.Behind? && !FeedsReceiver(receive) { BoundRxEnds(d, lane, foreign, receive); }
  }

  lemma BareRxEnds(d: Ends, lane: Lane, foreign: Oracle, e: R.ReceiveEvent)
    requires EndsInv(d) && Honest(foreign, lane, [])
    ensures EndsInv(EndsStep(d, lane, foreign, BareRx(e)))
  {
    hide Good, TxInv, PairStep;
    ReceiveKeepsGood(d.pair, lane, foreign, e);
  }

  lemma {:induction false} EndsRunInv(start: Pair, lane: Lane, foreign: Oracle, es: seq<EndsEvent>)
    requires Opened(start) && S.Sound(start.tx) && Honest(foreign, lane, [])
    ensures EndsInv(EndsRun(start, lane, foreign, es))
  {
    hide EndsStep, Good, Opened, S.Sound;
    if es == [] {
      StartGood(start);
    } else {
      EndsRunInv(start, lane, foreign, es[..|es| - 1]);
      EndsStepInv(EndsRun(start, lane, foreign, es[..|es| - 1]), lane, foreign, es[|es| - 1]);
    }
  }

  // ------------------------------------------------------------------ theorems

  /**
   End-to-end refinement under the binding, from the first byte of the session on and with no hypothesis
   about dropped futures: what the receives returned is at every step a prefix of what the peer's sends have
   completely written, in send-lock order; and no receive has rejected a frame as long as the stream is on a
   frame boundary, which it is for as long as no guarded receive has failed.
   */
  lemma BoundPrefix(start: Pair, lane: Lane, foreign: Oracle, es: seq<EndsEvent>)
    requires Opened(start) && S.Sound(start.tx) && Honest(foreign, lane, [])
    ensures var d := EndsRun(start, lane, foreign, es);
      && d.pair.rx.delivered <= Plains(d.pair.tx.frames)
      && d.pair.rx.sequence == |d.pair.rx.delivered|
      && (d.rx.Behind? && d.rx.guard.health == Sound ==> d.pair.rx.alignment == R.Aligned)
      && (d.pair.rx.alignment == R.Aligned ==> NoRejects(d.pair.rx))
  {
    hide EndsStep, S.SendInv;
    EndsRunInv(start, lane, foreign, es);
  }

  /** And nothing is lost: when no guarded receive has failed, none is reading and the pipe is drained,
      everything completely written has been received, and nothing else is on the wire. */
  lemma BoundDrained(start: Pair, lane: Lane, foreign: Oracle, es: seq<EndsEvent>)
    requires Opened(start) && S.Sound(start.tx) && Honest(foreign, lane, [])
    requires var d := EndsRun(start, lane, foreign, es);
      && d.rx.Behind? && d.rx.guard.health == Sound && d.pair.rx.lock.None?
      && d.pair.rx.core.delivered == d.pair.rx.core.incoming
    ensures var d := EndsRun(start, lane, foreign, es);
      d.pair.rx.delivered == Plains(d.pair.tx.frames) && d.pair.tx.residue == []
  {
    hide EndsStep, S.SendInv, Good;
    EndsRunInv(start, lane, foreign, es);
    Drained(EndsRun(start, lane, foreign, es).pair);
  }
}
