/**
 What the binding makes of an inner result. `Binding` shows that a failed call is the last one; here is the
 other half: a call fails in the binding only if its inner send or receive did, a successful one goes through
 as it is, and nobody but an explicit cancellation or such a failure ever cancels the session token.
 */
module BindingVerdicts {
  import opened ByteStrings
  import opened Wrappers
  import opened Transport
  import opened SecureRecords
  import opened Tasks
  import opened Guarding
  import opened Binding
  import S = Sender
  import R = Receiver

  /** The guard has gone off and has cancelled the token. */
  predicate HasPoisoned(stage: Stage) {
    stage.Releasing? || stage == Gone(Failed)
  }

  ghost predicate SomePoisoned(g: Guard) {
    exists id :: id in g.calls && HasPoisoned(g.calls[id])
  }

  // ------------------------------------------------------------------ sending

  predicate SendMatches(stage: Stage, point: S.SendPoint) {
    match stage
    case Gone(Done) => point == S.Returned(S.Sent)
    case Gone(Refused) => point.AwaitLock? || point == S.Returned(S.Abandoned)
    case Guarded => point.AwaitLock? || point.Writing?
    case Queued => point.AwaitLock?
    case LoadToken => point.AwaitLock?
    case LoadClosed => point.AwaitLock?
    case _ => point.Returned? && point.result != S.Sent
  }

  ghost predicate SendVerdicts(b: Sending) {
    forall id :: id in b.guard.calls ==> id in b.inner.sends && SendMatches(b.guard.calls[id], b.inner.sends[id])
  }

  lemma GuardMovesOne(g: Guard, e: GuardEvent)
    ensures e.Cancel? ==> GuardStep(g, e).calls == g.calls
    ensures !e.Cancel? ==> forall id :: id != e.id ==>
      (id in GuardStep(g, e).calls <==> id in g.calls) && (id in g.calls ==> GuardStep(g, e).calls[id] == g.calls[id])
  {
  }

  lemma InnerMovesOne(s: S.Session, e: S.SendEvent)
    ensures e.Core? ==> S.SendStep(s, e).sends == s.sends
    ensures !e.Core? ==> forall id :: id != e.id ==>
      (id in S.SendStep(s, e).sends <==> id in s.sends) && (id in s.sends ==> S.SendStep(s, e).sends[id] == s.sends[id])
  {
  }

  lemma SettleMatches(b: Sending, id: CallId, e: SendingEvent)
    requires SendVerdicts(b) && Is(b.guard, id, Guarded)
    requires e == Resolve(id) || (e.LockAndEncrypt? && e.id == id)
    ensures var next := SendingStep(b, e);
      id in next.guard.calls && id in next.inner.sends && SendMatches(next.guard.calls[id], next.inner.sends[id])
  {
  }

  lemma LeaveMatches(b: Sending, id: CallId)
    requires SendVerdicts(b) && id in b.guard.calls
    ensures var next := SendingStep(b, SendingEvent.Leave(id));
      id in next.guard.calls && id in next.inner.sends && SendMatches(next.guard.calls[id], next.inner.sends[id])
  {
  }

  lemma TickMatches(b: Sending, id: CallId)
    requires SendVerdicts(b) && id in b.guard.calls
    ensures var next := SendingStep(b, SendingEvent.Tick(id));
      id in next.guard.calls && id in next.inner.sends && SendMatches(next.guard.calls[id], next.inner.sends[id])
  {
  }

  lemma OwnMatches(b: Sending, e: SendingEvent)
    requires SendVerdicts(b) && !e.CoreStep? && !e.CancelToken?
    ensures var next := SendingStep(b, e);
      e.id in next.guard.calls ==> e.id in next.inner.sends && SendMatches(next.guard.calls[e.id], next.inner.sends[e.id])
  {
    match e
    case Call(id, plain) =>
    case Leave(id) => if id in b.guard.calls { LeaveMatches(b, id); }
    case Tick(id) => if id in b.guard.calls { TickMatches(b, id); }
    case Resolve(id) => if Is(b.guard, id, Guarded) { SettleMatches(b, id, e); }
    case LockAndEncrypt(id, _, _) => if Is(b.guard, id, Guarded) { SettleMatches(b, id, e); }
  }

  lemma OthersMatch(b: Sending, e: SendingEvent, id: CallId)
    requires SendVerdicts(b) && (e.CoreStep? || e.CancelToken? || id != e.id)
    ensures var next := SendingStep(b, e);
      id in next.guard.calls ==> id in next.inner.sends && SendMatches(next.guard.calls[id], next.inner.sends[id])
  {
    hide S.SendStep, GuardStep, SendMatches;
    if GuardSend(b, e).Some? {
      GuardMovesOne(b.guard, GuardSend(b, e).value);
    }
    if InnerSend(b, e).Some? {
      InnerMovesOne(b.inner, InnerSend(b, e).value);
    }
  }

  lemma StepVerdicts(b: Sending, e: SendingEvent)
    requires SendVerdicts(b)
    ensures SendVerdicts(SendingStep(b, e))
  {
    hide SendingStep, SendMatches;
    forall id | id in SendingStep(b, e).guard.calls
      ensures id in SendingStep(b, e).inner.sends
      ensures SendMatches(SendingStep(b, e).guard.calls[id], SendingStep(b, e).inner.sends[id])
    {
      if e.CoreStep? || e.CancelToken? || id != e.id {
        OthersMatch(b, e, id);
      } else {
        OwnMatches(b, e);
      }
    }
  }

  /** A step cancels the token by an explicit cancellation, or by the guard of a call that has failed. */
  lemma GuardCancels(g: Guard, e: GuardEvent)
    requires g.token == Cancelled ==> SomePoisoned(g)
    ensures GuardStep(g, e).token == Cancelled && !e.Cancel? ==> SomePoisoned(GuardStep(g, e))
  {
    if g.token == Cancelled {
      var id :| id in g.calls && HasPoisoned(g.calls[id]);
      assert id in GuardStep(g, e).calls && HasPoisoned(GuardStep(g, e).calls[id]);
    } else if e.Poison? && Is(g, e.id, Poisoning) {
      assert HasPoisoned(GuardStep(g, e).calls[e.id]);
    }
  }

  /**
   Verdicts on sends. In every run a secure send is done exactly if the session sent its whole frame, it is
   failed only if the session's send returned an error or was dropped under the guard, and it is refused
   before it touched the session. Unless somebody cancelled the token, a cancelled token means that the guard
   of a failed send has gone off.
   */
  lemma {:induction false} SendVerdictsHold(start: S.Session, es: seq<SendingEvent>)
    ensures var b := SendingRun(start, es);
      && SendVerdicts(b)
      && (b.guard.token == Cancelled ==> CancelToken in es || SomePoisoned(b.guard))
  {
    hide SendingStep, SendVerdicts, SomePoisoned;
    if es == [] {
      assert SendVerdicts(SendingRun(start, es)) by { NoCallsYet(start); }
    } else {
      var init, e := es[..|es| - 1], es[|es| - 1];
      SendVerdictsHold(start, init);
      StepVerdicts(SendingRun(start, init), e);
      assert es == init + [e];
      if CancelToken !in es {
        StepCancels(SendingRun(start, init), e);
      }
    }
  }

  lemma NoCallsYet(start: S.Session)
    ensures SendVerdicts(Sending(Fresh, start))
  {
  }

  lemma StepCancels(b: Sending, e: SendingEvent)
    requires !e.CancelToken? && (b.guard.token == Cancelled ==> SomePoisoned(b.guard))
    ensures SendingStep(b, e).guard.token == Cancelled ==> SomePoisoned(SendingStep(b, e).guard)
  {
    hide GuardStep, SomePoisoned, S.SendStep;
    if GuardSend(b, e).Some? {
      GuardCancels(b.guard, GuardSend(b, e).value);
    }
  }

  // ------------------------------------------------------------------ receiving

  predicate ReceiveMatches(stage: Stage, point: R.ReceivePoint) {
    match stage
    case Gone(Done) => point.Returned? && point.outcome.Plain?
    case Gone(Refused) => point.AwaitLock? || point == R.Returned(R.Abandoned)
    case Guarded => point.AwaitLock? || point.Reading?
    case Queued => point.AwaitLock?
    case LoadToken => point.AwaitLock?
    case LoadClosed => point.AwaitLock?
    case _ => point.Returned?
  }

  /** Handing the plaintext over to the caller has failed in this step. */
  predicate HandoverFails(e: ReceivingEvent, id: CallId) {
    e.RxCollect? && e.id == id && e.handover == Handover.Lost
  }

  ghost predicate SomeHandoverFailed(es: seq<ReceivingEvent>, id: CallId) {
    exists i :: 0 <= i < |es| && HandoverFails(es[i], id)
  }

  ghost predicate ReceiveFine(b: Receiving, es: seq<ReceivingEvent>, id: CallId) {
    id in b.guard.calls ==>
      && id in b.inner.receives && ReceiveMatches(b.guard.calls[id], b.inner.receives[id])
      && (WentOff(b.guard.calls[id]) && b.inner.receives[id].outcome.Plain? ==> SomeHandoverFailed(es, id))
  }

  lemma InboxMovesOne(s: R.Inbox, lane: Lane, e: R.ReceiveEvent)
    ensures e.Core? ==> R.ReceiveStep(s, lane, e).receives == s.receives
    ensures !e.Core? ==> forall id :: id != e.id ==>
      (id in R.ReceiveStep(s, lane, e).receives <==> id in s.receives)
      && (id in s.receives ==> R.ReceiveStep(s, lane, e).receives[id] == s.receives[id])
  {
  }

  /** The guard and the inner receive of the call that moves. */
  ghost predicate OwnFine(b: Receiving, next: Receiving, e: ReceivingEvent, id: CallId) {
    id in next.guard.calls ==>
      && id in next.inner.receives && ReceiveMatches(next.guard.calls[id], next.inner.receives[id])
      && (WentOff(next.guard.calls[id]) && next.inner.receives[id].outcome.Plain? ==>
            HandoverFails(e, id)
            || (id in b.guard.calls && WentOff(b.guard.calls[id]) && id in b.inner.receives
                && b.inner.receives[id] == next.inner.receives[id]))
  }

  ghost predicate Matched(b: Receiving, id: CallId) {
    id in b.guard.calls ==> id in b.inner.receives && ReceiveMatches(b.guard.calls[id], b.inner.receives[id])
  }

  lemma CollectFine(b: Receiving, lane: Lane, e: ReceivingEvent)
    requires e.RxCollect? && Is(b.guard, e.id, Guarded) && Matched(b, e.id)
    ensures OwnFine(b, ReceivingStep(b, lane, e), e, e.id)
  {
  }

  lemma RxLeaveFine(b: Receiving, lane: Lane, e: ReceivingEvent)
    requires e.RxLeave? && e.id in b.guard.calls && Matched(b, e.id)
    ensures OwnFine(b, ReceivingStep(b, lane, e), e, e.id)
  {
  }

  lemma RxTickFine(b: Receiving, lane: Lane, e: ReceivingEvent)
    requires e.RxTick? && e.id in b.guard.calls && Matched(b, e.id)
    ensures OwnFine(b, ReceivingStep(b, lane, e), e, e.id)
  {
  }

  lemma RxOtherFine(b: Receiving, lane: Lane, e: ReceivingEvent)
    requires (e.RxLock? || e.RxIssue?) && Is(b.guard, e.id, Guarded) && Matched(b, e.id)
    ensures OwnFine(b, ReceivingStep(b, lane, e), e, e.id)
  {
  }

  lemma RxOwnFine(b: Receiving, lane: Lane, e: ReceivingEvent)
    requires !e.RxCore? && !e.RxCancel? && Matched(b, e.id)
    ensures OwnFine(b, ReceivingStep(b, lane, e), e, e.id)
  {
    match e
    case RxCall(_) =>
    case RxCollect(id, _, _) => if Is(b.guard, id, Guarded) { CollectFine(b, lane, e); }
    case RxLeave(id) => if id in b.guard.calls { RxLeaveFine(b, lane, e); }
    case RxTick(id) => if id in b.guard.calls { RxTickFine(b, lane, e); }
    case RxLock(id) => if Is(b.guard, id, Guarded) { RxOtherFine(b, lane, e); }
    case RxIssue(id, _) => if Is(b.guard, id, Guarded) { RxOtherFine(b, lane, e); }
  }

  lemma RxOthersSame(b: Receiving, lane: Lane, e: ReceivingEvent, id: CallId)
    requires Matched(b, id) && (e.RxCore? || e.RxCancel? || id != e.id)
    ensures var next := ReceivingStep(b, lane, e);
      && Matched(next, id) && (id in next.guard.calls <==> id in b.guard.calls)
      && (id in b.guard.calls ==> next.guard.calls[id] == b.guard.calls[id]
                                  && next.inner.receives[id] == b.inner.receives[id])
  {
    hide R.ReceiveStep, GuardStep, ReceiveMatches;
    if GuardReceive(b, lane, e).Some? {
      GuardMovesOne(b.guard, GuardReceive(b, lane, e).value);
    }
    if InnerReceive(b, e).Some? {
      InboxMovesOne(b.inner, lane, InnerReceive(b, e).value);
    }
  }

  lemma StepFine(b: Receiving, lane: Lane, es: seq<ReceivingEvent>, e: ReceivingEvent, id: CallId)
    requires ReceiveFine(b, es, id)
    ensures ReceiveFine(ReceivingStep(b, lane, e), es + [e], id)
  {
    hide ReceivingStep, ReceiveMatches, HandoverFails;
    assert Matched(b, id);
    if SomeHandoverFailed(es, id) {
      var i :| 0 <= i < |es| && HandoverFails(es[i], id);
      assert HandoverFails((es + [e])[i], id);
    }
    if e.RxCore? || e.RxCancel? || id != e.id {
      RxOthersSame(b, lane, e, id);
    } else {
      RxOwnFine(b, lane, e);
      if HandoverFails(e, id) {
        assert HandoverFails((es + [e])[|es|], id);
      }
    }
  }

  lemma RxCancels(b: Receiving, lane: Lane, e: ReceivingEvent)
    requires !e.RxCancel? && (b.guard.token == Cancelled ==> SomePoisoned(b.guard))
    ensures ReceivingStep(b, lane, e).guard.token == Cancelled ==> SomePoisoned(ReceivingStep(b, lane, e).guard)
  {
    hide GuardStep, SomePoisoned, R.ReceiveStep;
    if GuardReceive(b, lane, e).Some? {
      GuardCancels(b.guard, GuardReceive(b, lane, e).value);
    }
  }

  /**
   Verdicts on receives. In every run a secure receive is done only if the session returned a plaintext, it is
   failed only if the session's receive returned an error, was dropped under the guard, or its plaintext could
   not be handed over, and it is refused before it touched the session. Unless somebody cancelled the token, a
   cancelled token means that the guard of a failed receive has gone off.
   */
  lemma {:induction false} ReceiveVerdictsHold(start: R.Inbox, lane: Lane, es: seq<ReceivingEvent>, id: CallId)
    ensures var b := ReceivingRun(start, lane, es);
      && ReceiveFine(b, es, id)
      && (b.guard.token == Cancelled ==> RxCancel in es || SomePoisoned(b.guard))
  {
    hide ReceivingStep, ReceiveFine, SomePoisoned;
    if es == [] {
      assert ReceiveFine(ReceivingRun(start, lane, es), es, id) by { NoReceivesYet(start, id); }
    } else {
      var init, e := es[..|es| - 1], es[|es| - 1];
      ReceiveVerdictsHold(start, lane, init, id);
      assert es == init + [e];
      StepFine(ReceivingRun(start, lane, init), lane, init, e, id);
      if RxCancel !in es {
        RxCancels(ReceivingRun(start, lane, init), lane, e);
      }
    }
  }

  lemma NoReceivesYet(start: R.Inbox, id: CallId)
    ensures ReceiveFine(Receiving(Fresh, start), [], id)
  {
  }

  // ------------------------------------------------------------------ calls come through, cancellations take effect

  /** The first three moves of a call under a free gate. */
  lemma TicksEnter(g: Guard, id: CallId)
    requires Is(g, id, Queued) && g.gate.None? && g.token == Armed
    ensures var a := GuardStep(g, GuardEvent.TakeGate(id));
      var b := GuardStep(a, CheckToken(id));
      var c := GuardStep(b, CheckClosed(id, false));
      && GuardTick(g, id, false) == Some(GuardEvent.TakeGate(id))
      && GuardTick(a, id, false) == Some(CheckToken(id)) && GuardTick(b, id, false) == Some(CheckClosed(id, false))
      && Is(c, id, Guarded) && c.gate == Some(id) && c.token == Armed
  {
  }

  /** On an open session with a free gate an admitted send reaches the session undisturbed, its plaintext with
      it. */
  lemma SendReachesSession(b: Sending, id: CallId, plain: Bytes)
    requires Admits(b, id, plain) && b.guard.gate.None? && b.guard.token == Armed && Closed !in b.inner.core.flags
    ensures var tick := SendingEvent.Tick(id);
      var t := SendingStep(SendingStep(SendingStep(SendingStep(b, Call(id, plain)), tick), tick), tick);
      && Is(t.guard, id, Guarded) && t.guard.gate == Some(id) && t.guard.token == Armed
      && t.inner == S.SetSend(b.inner, id, S.AwaitLock(plain))
  {
    hide S.SendStep;
    var queued := SendingStep(b, Call(id, plain));
    Submitted(b, id, plain);
    TicksEnter(queued.guard, id);
  }

  lemma Submitted(b: Sending, id: CallId, plain: Bytes)
    requires Admits(b, id, plain)
    ensures SendingStep(b, Call(id, plain))
            == Sending(GuardStep(b.guard, Queue(id)), S.SetSend(b.inner, id, S.AwaitLock(plain)))
  {
  }

  /** When the inner send has put its frame out, the call is done: the gate is free and the token as it was. */
  lemma SentIsDone(b: Sending, id: CallId)
    requires Is(b.guard, id, Guarded) && b.inner.lock == Some(id)
    requires id in b.inner.sends && b.inner.sends[id].Writing? && b.inner.sends[id].op in b.inner.core.ops
    requires b.inner.core.ops[b.inner.sends[id].op].pc == Finished(Success)
    ensures var t := SendingStep(b, Resolve(id));
      && Is(t.guard, id, Gone(Done)) && t.guard.gate.None? && t.guard.token == b.guard.token
      && id in t.inner.sends && t.inner.sends[id] == S.Returned(S.Sent)
  {
  }

  lemma ReceiveReachesSession(b: Receiving, lane: Lane, id: CallId)
    requires id !in b.guard.calls && id !in b.inner.receives
    requires b.guard.gate.None? && b.guard.token == Armed && Closed !in b.inner.core.flags
    ensures var tick := RxTick(id);
      var queued := ReceivingStep(b, lane, RxCall(id));
      var t := ReceivingStep(ReceivingStep(ReceivingStep(queued, lane, tick), lane, tick), lane, tick);
      && Is(t.guard, id, Guarded) && t.guard.gate == Some(id) && t.guard.token == Armed
      && t.inner == R.SetReceive(b.inner, id, R.AwaitLock)
  {
    hide R.ReceiveStep;
    var queued := ReceivingStep(b, lane, RxCall(id));
    Requested(b, lane, id);
    TicksEnter(queued.guard, id);
  }

  lemma Requested(b: Receiving, lane: Lane, id: CallId)
    requires id !in b.guard.calls && id !in b.inner.receives
    ensures ReceivingStep(b, lane, RxCall(id))
            == Receiving(GuardStep(b.guard, Queue(id)), R.SetReceive(b.inner, id, R.AwaitLock))
  {
  }

  /** Under the guard the session's own steps are its steps, and a cancellation cancels at once and moves nothing
      else. */
  lemma GuardedStepsPass(b: Sending, id: CallId, ciphertext: Bytes, op: OpId)
    requires Is(b.guard, id, Guarded)
    ensures SendingStep(b, LockAndEncrypt(id, ciphertext, op)).inner == S.SendStep(b.inner, S.TakeLock(id, ciphertext, op))
    ensures SendingStep(b, Resolve(id)).inner == S.SendStep(b.inner, S.FinishSend(id))
    ensures SendingStep(b, CancelToken) == Sending(b.guard.(token := Cancelled), b.inner)
  {
    hide S.SendStep;
  }

  lemma GuardedReceivesPass(b: Receiving, lane: Lane, id: CallId, op: OpId, oracle: Oracle, handover: Handover)
    requires Is(b.guard, id, Guarded)
    ensures ReceivingStep(b, lane, RxLock(id)).inner == R.ReceiveStep(b.inner, lane, R.TakeLock(id))
    ensures ReceivingStep(b, lane, RxIssue(id, op)).inner == R.ReceiveStep(b.inner, lane, R.Issue(id, op))
    ensures ReceivingStep(b, lane, RxCollect(id, oracle, handover)).inner
            == R.ReceiveStep(b.inner, lane, R.Collect(id, oracle))
    ensures ReceivingStep(b, lane, RxCancel) == Receiving(b.guard.(token := Cancelled), b.inner)
  {
    hide R.ReceiveStep;
  }

  /** A call that is dropped, or sees the token, under the guard sets the guard off; while it waits for the gate it
      just leaves. */
  lemma LeavingSend(b: Sending, id: CallId)
    requires S.SendEnabled(b.inner, S.DropSend(id))
    ensures var t := SendingStep(b, SendingEvent.Leave(id));
      && (Is(b.guard, id, Guarded) ==> Is(t.guard, id, Poisoning) && t.inner == S.SendStep(b.inner, S.DropSend(id)))
      && (Is(b.guard, id, Queued) ==> Is(t.guard, id, Gone(Verdict.Refused)) && t.guard.token == b.guard.token)
  {
    hide S.SendStep, S.SendEnabled;
  }

  lemma LeavingReceive(b: Receiving, lane: Lane, id: CallId)
    requires R.ReceiveEnabled(b.inner, R.DropReceive(id))
    ensures var t := ReceivingStep(b, lane, RxLeave(id));
      && (Is(b.guard, id, Guarded) ==>
            Is(t.guard, id, Poisoning) && t.inner == R.ReceiveStep(b.inner, lane, R.DropReceive(id)))
      && (Is(b.guard, id, Queued) ==> Is(t.guard, id, Gone(Verdict.Refused)) && t.guard.token == b.guard.token)
  {
    hide R.ReceiveStep, R.ReceiveEnabled;
  }

  /** A guard that has gone off cancels the token in its next move, and then the gate is released. */
  lemma GuardGoesOff(b: Sending, id: CallId)
    requires GuardInv(b.guard) && Is(b.guard, id, Poisoning)
    ensures var tick := SendingEvent.Tick(id); var t := SendingStep(b, tick); var u := SendingStep(t, tick);
      && t.guard.token == Cancelled && t.guard.gate == Some(id)
      && Is(u.guard, id, Gone(Failed)) && u.guard.gate.None? && u.guard.token == Cancelled && u.inner == b.inner
  {
  }

  /** The guard is disarmed only behind the handover: a received plaintext that cannot be handed to the caller sets
      the guard off like an error does. */
  lemma HandoverDecides(b: Receiving, lane: Lane, id: CallId, oracle: Oracle, handover: Handover)
    requires Is(b.guard, id, Guarded)
    ensures var t := ReceivingStep(b, lane, RxCollect(id, oracle, handover));
      id in t.inner.receives && t.inner.receives[id].Returned? ==>
        if t.inner.receives[id].outcome.Plain? && handover == Handed
        then Is(t.guard, id, Gone(Done)) && t.guard.gate.None? && t.guard.token == b.guard.token
        else Is(t.guard, id, Poisoning) && t.guard.gate == b.guard.gate
  {
    hide R.ReceiveStep;
  }
}
