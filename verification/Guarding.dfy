/**
 The cancellation policy of one direction of a secure session in the binding.

 A call takes the direction's gate, checks that the session is open, and only then arms a guard that
 cancels the session token unless it is disarmed by success. The guard is declared after the gate, so
 it goes off before the gate is released. The token may also be cancelled by anybody at any time.
 */
module Guarding {
  import opened Wrappers
  import opened Tasks

  datatype Verdict = Done | Refused | Failed

  /** Where a call is. Everything between `LoadToken` and `Releasing` happens under the gate; the guard
      is armed at `Guarded` and goes off at `Poisoning`. */
  datatype Stage =
    | Queued
    | LoadToken
    | LoadClosed
    | Guarded
    | Poisoning
    | Releasing
    | Gone(verdict: Verdict)

  /** A ghost mark: some guarded call has ended without success. */
  datatype Health = Sound | Spoiled

  datatype Guard = Guard(token: Token, gate: Option<CallId>, calls: map<CallId, Stage>, health: Health)

  const Fresh := Guard(Armed, None, map[], Sound)

  datatype GuardEvent =
    | Queue(id: CallId)
    | Leave(id: CallId)                    // dropped, or saw the token, while waiting for the gate
    | TakeGate(id: CallId)
    | CheckToken(id: CallId)
    | CheckClosed(id: CallId, closed: bool)
    | Succeed(id: CallId)
    | Fail(id: CallId)                     // an error, a dropped future, or the token seen in the select
    | Poison(id: CallId)
    | Release(id: CallId)
    | Cancel

  predicate Is(g: Guard, id: CallId, stage: Stage) {
    id in g.calls && g.calls[id] == stage
  }

  predicate Possible(g: Guard, e: GuardEvent) {
    match e
    case Queue(id) => id !in g.calls
    case Leave(id) => Is(g, id, Queued)
    case TakeGate(id) => Is(g, id, Queued) && g.gate.None?
    case CheckToken(id) => Is(g, id, LoadToken)
    case CheckClosed(id, _) => Is(g, id, LoadClosed)
    case Succeed(id) => Is(g, id, Guarded)
    case Fail(id) => Is(g, id, Guarded)
    case Poison(id) => Is(g, id, Poisoning)
    case Release(id) => Is(g, id, Releasing)
    case Cancel => true
  }

  function Put(g: Guard, id: CallId, stage: Stage): Guard {
    g.(calls := g.calls[id := stage])
  }

  /** Return from the call and release the gate. */
  function Exit(g: Guard, id: CallId, verdict: Verdict): Guard {
    g.(calls := g.calls[id := Gone(verdict)], gate := None)
  }

  function GuardStep(g: Guard, e: GuardEvent): Guard {
    if !Possible(g, e) then g else
    match e
    case Queue(id) => Put(g, id, Queued)
    case Leave(id) => Put(g, id, Gone(Refused))
    case TakeGate(id) => g.(calls := g.calls[id := LoadToken], gate := Some(id))
    case CheckToken(id) => if g.token == Cancelled then Exit(g, id, Refused) else Put(g, id, LoadClosed)
    case CheckClosed(id, closed) => if closed then Exit(g, id, Refused) else Put(g, id, Guarded)
    case Succeed(id) => Exit(g, id, Done)
    case Fail(id) => g.(calls := g.calls[id := Poisoning], health := Spoiled)
    case Poison(id) => g.(calls := g.calls[id := Releasing], token := Cancelled)
    case Release(id) => Exit(g, id, Failed)
    case Cancel => g.(token := Cancelled)
  }

  predicate UnderGate(stage: Stage) {
    !stage.Queued? && !stage.Gone?
  }

  /** The stages of a call whose guard went off. */
  predicate WentOff(stage: Stage) {
    stage.Poisoning? || stage.Releasing? || stage == Gone(Failed)
  }

  predicate GuardInv(g: Guard) {
    && (forall id :: id in g.calls ==> (UnderGate(g.calls[id]) <==> g.gate == Some(id)))
    && (g.gate.Some? ==> g.gate.value in g.calls)
    && (g.health == Spoiled ==> g.token == Cancelled || (g.gate.Some? && g.calls[g.gate.value] == Poisoning))
    && (forall id :: id in g.calls && (g.calls[id].LoadClosed? || g.calls[id].Guarded?) ==> g.health == Sound)
    && (forall id :: id in g.calls && WentOff(g.calls[id]) ==> g.health == Spoiled)
  }

  /** The invariant survives every event. Releasing the gate before the guard goes off, or checking the
      token before taking the gate, would break it. */
  lemma GuardStepInv(g: Guard, e: GuardEvent)
    requires GuardInv(g)
    ensures GuardInv(GuardStep(g, e))
    ensures g.health == Spoiled ==> GuardStep(g, e).health == Spoiled
    ensures g.token == Cancelled ==> GuardStep(g, e).token == Cancelled
  {
  }

  function GuardRun(es: seq<GuardEvent>): Guard {
    if es == [] then Fresh else GuardStep(GuardRun(es[..|es| - 1]), es[|es| - 1])
  }

  lemma {:induction false} GuardRunInv(es: seq<GuardEvent>)
    ensures GuardInv(GuardRun(es))
  {
    if es != [] {
      GuardRunInv(es[..|es| - 1]);
      GuardStepInv(GuardRun(es[..|es| - 1]), es[|es| - 1]);
    }
  }

  /**
   Poison order. Once some guarded call has ended without success, no call is past its open check, and
   none ever gets there again: every call that is still to come is refused.
   */
  lemma {:induction false} NoGuardAfterFailure(es: seq<GuardEvent>, more: seq<GuardEvent>, id: CallId)
    requires exists failed :: failed in GuardRun(es).calls && WentOff(GuardRun(es).calls[failed])
    ensures !Is(GuardRun(es + more), id, Guarded) && !Is(GuardRun(es + more), id, LoadClosed)
    ensures GuardRun(es + more).health == Spoiled
  {
    if more == [] {
      assert es + more == es;
      GuardRunInv(es);
    } else {
      var init := more[..|more| - 1];
      NoGuardAfterFailure(es, init, id);
      assert (es + more)[..|es + more| - 1] == es + init;
      GuardRunInv(es + init);
      GuardStepInv(GuardRun(es + init), more[|more| - 1]);
    }
  }

  /** Where a call is that has not passed the open check, and never will. */
  predicate StaysOut(g: Guard, id: CallId) {
    id in g.calls ==> g.calls[id] == Queued || g.calls[id] == LoadToken || g.calls[id] == Gone(Refused)
  }

  /** Once the token is cancelled, by whomever, every call that has not yet loaded it is refused without touching
      the session. */
  lemma {:induction false} NoGuardAfterCancel(es: seq<GuardEvent>, more: seq<GuardEvent>, id: CallId)
    requires GuardRun(es).token == Cancelled && StaysOut(GuardRun(es), id)
    ensures GuardRun(es + more).token == Cancelled && StaysOut(GuardRun(es + more), id)
  {
    if more == [] {
      assert es + more == es;
    } else {
      NoGuardAfterCancel(es, more[..|more| - 1], id);
      assert (es + more)[..|es + more| - 1] == es + more[..|more| - 1];
    }
  }

  // ------------------------------------------------------------------ the object

  datatype Entrance = Waiting | TurnedAway | Entered

  /** One direction of a session: its gate and the shared token. `model` is the machine's state, which every
      method moves by its own events. */
  class DirectionGate {
    var token: Token
    var gate: Option<CallId>
    ghost var model: Guard

    ghost predicate Valid()
      reads this
    {
      model.token == token && model.gate == gate && GuardInv(model)
    }

    constructor ()
      ensures Valid() && model == Fresh
    {
      token, gate, model := Armed, None, Fresh;
    }

    /** Move the model by one event of this call, or of somebody who cancels. */
    ghost method Step(e: GuardEvent)
      requires GuardInv(model)
      modifies this`model
      ensures GuardInv(model) && model == GuardStep(old(model), e)
    {
      GuardStepInv(model, e);
      model := GuardStep(model, e);
    }

    /** Anybody cancels the session token. */
    method CancelToken()
      requires Valid()
      modifies this
      ensures Valid() && token == Cancelled && gate == old(gate) && model.calls == old(model).calls
    {
      Step(Cancel);
      token := Cancelled;
    }

    /** The biased select around the gate, then `ensure_open`; the guard exists once this says `Entered`. */
    method Enter(id: CallId, connectionClosed: bool) returns (r: Entrance)
      requires Valid() && Is(model, id, Queued)
      modifies this
      ensures Valid() && token == old(token)
      ensures r == Entered <==> old(token) == Armed && old(gate).None? && !connectionClosed
      ensures r == Entered ==> gate == Some(id) && Is(model, id, Guarded) && model.health == Sound
      ensures r == TurnedAway ==> gate == old(gate) && Is(model, id, Gone(Refused))
      ensures r == Waiting ==> gate == old(gate) && model == old(model) && old(gate).Some?
    {
      if token == Cancelled {
        Step(Leave(id));
        return TurnedAway;
      }
      if gate.Some? {
        return Waiting;
      }
      Step(TakeGate(id));
      gate := Some(id);
      Step(CheckToken(id));
      Step(CheckClosed(id, connectionClosed));
      if connectionClosed {
        gate := None;
        return TurnedAway;
      }
      return Entered;
    }

    /** The call is over. Without success its guard goes off, and only then the gate is released. */
    method Exit(id: CallId, succeeded: bool)
      requires Valid() && Is(model, id, Guarded)
      modifies this
      ensures Valid() && gate.None?
      ensures succeeded ==> token == old(token) && model.health == Sound && Is(model, id, Gone(Done))
      ensures !succeeded ==> token == Cancelled && model.health == Spoiled && Is(model, id, Gone(Failed))
    {
      if succeeded {
        Step(Succeed(id));
      } else {
        Step(Fail(id));
        Step(Poison(id));
        token := Cancelled;
        Step(Release(id));
      }
      gate := None;
    }
  }
}
