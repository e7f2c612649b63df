/**
 Who owns the raw connection of one wrapper object.

 The wrapper's slot is behind a mutex; raw operations in flight, and the tasks that their drop guards
 spawn, hold references to the connection; an upgrade or a split takes the connection out of its
 reference count, which succeeds only when the slot holds the last one.
 */
module Ownership {
  import opened Wrappers
  import opened Tasks

  datatype Slot = Plain | Upgrading | Secure | Consumed

  /** The party that can reach the raw connection; `Wrapper` includes the raw operations in flight. */
  datatype Owner = Wrapper | Handshake | Session | Halves | Nobody

  /** The future that runs the handshake. */
  datatype Upgrade = NotBegun | Running | Built | Over

  /** `strong` is the reference count of the raw connection while it is shared, and `raw` names the raw
      operations and spawned tasks that hold a reference besides the slot. */
  datatype Wrapping = Wrapping(
    slot: Slot,
    token: Token,
    upgrade: Upgrade,
    owner: Owner,
    strong: nat,
    raw: set<CallId>)

  datatype OwnerEvent =
    | StartRaw(id: CallId)                  // a raw operation, or close(), asks for the connection
    | EndRaw(id: CallId)                    // it returned successfully
    | Detach(id: CallId, task: CallId)      // it failed or was dropped: its guard spawns a closing task
    | BeginSecure
    | IntoSplit
    | HandshakeDone                         // the handshake succeeded and the session object exists
    | HandshakeFails                        // an error, or the wrapper object could not be made
    | SeeCancel                             // the biased select saw the token
    | DropFuture                            // the future was dropped at an await point
    | FinishSecure
    | Close                                 // its synchronous part; on a plain slot it is a raw operation
    | CancelToken                           // a cancelled Python future, abort, the end of the session object

  const New := Wrapping(Plain, Armed, NotBegun, Wrapper, 1, {})

  datatype Refusal = Pending | NotPlain | NoLongerActive | WasConsumed

  // ------------------------------------------------------------------ steps

  function Acquire(s: Wrapping, id: CallId): Wrapping {
    s.(raw := s.raw + {id}, strong := s.strong + 1)
  }

  function Release(s: Wrapping, id: CallId): Wrapping {
    s.(raw := s.raw - {id}, strong := if s.strong > 0 then s.strong - 1 else 0)
  }

  /** `take_plain`: unwrap the connection from its reference count, or put it back. */
  function Take(s: Wrapping, next: Slot, owner: Owner, upgrade: Upgrade): Wrapping {
    if s.slot == Plain && s.strong == 1 then s.(slot := next, owner := owner, upgrade := upgrade, strong := 0) else s
  }

  /** The handshake future ends without a session; the guard it captured cancels the token. */
  function GiveUp(s: Wrapping): Wrapping {
    s.(upgrade := Over, owner := Nobody, token := Cancelled)
  }

  function OwnerStep(s: Wrapping, e: OwnerEvent): Wrapping {
    match e
    case StartRaw(id) => if s.slot == Plain && id !in s.raw then Acquire(s, id) else s
    case EndRaw(id) => if id in s.raw then Release(s, id) else s
    case Detach(id, task) => if id in s.raw && task !in s.raw then s.(raw := s.raw - {id} + {task}) else s
    case BeginSecure => Take(s, Upgrading, Handshake, Running)
    case IntoSplit => Take(s, Consumed, Halves, s.upgrade)
    case HandshakeDone => if s.upgrade == Running then s.(upgrade := Built, owner := Session) else s
    case HandshakeFails => if s.upgrade == Running || s.upgrade == Built then GiveUp(s) else s
    case SeeCancel => if s.upgrade == Running && s.token == Cancelled then GiveUp(s) else s
    case DropFuture => if s.upgrade == Running then GiveUp(s) else s
    case FinishSecure =>
      if s.upgrade != Built then s
      else if s.slot == Upgrading && s.token == Armed then s.(slot := Secure, upgrade := Over)
      else GiveUp(s)
    case Close => if s.slot == Upgrading || s.slot == Secure then s.(token := Cancelled) else s
    case CancelToken => if s.upgrade != NotBegun then s.(token := Cancelled) else s
  }

  function OwnerRun(es: seq<OwnerEvent>): Wrapping {
    if es == [] then New else OwnerStep(OwnerRun(es[..|es| - 1]), es[|es| - 1])
  }

  // ------------------------------------------------------------------ invariant

  predicate OwnerInv(s: Wrapping) {
    && (s.slot == Plain <==> s.owner == Wrapper)
    && s.strong == (if s.slot == Plain then 1 else 0) + |s.raw|
    && (s.raw != {} ==> s.slot == Plain)
    && (s.owner == Handshake <==> s.upgrade == Running)
    && (s.owner == Halves <==> s.slot == Consumed)
    && (s.owner == Session <==> s.upgrade == Built || s.slot == Secure)
    && (s.upgrade == Running || s.upgrade == Built ==> s.slot == Upgrading)
    && (s.upgrade == NotBegun <==> s.slot == Plain || s.slot == Consumed)
    && (s.slot == Upgrading && s.upgrade == Over ==> s.token == Cancelled)
    && (s.upgrade == NotBegun ==> s.token == Armed)
  }

  lemma SetSizes(raw: set<CallId>, id: CallId, task: CallId)
    ensures id !in raw ==> |raw + {id}| == |raw| + 1
    ensures id in raw ==> |raw - {id}| == |raw| - 1
    ensures id in raw && task !in raw ==> |raw - {id} + {task}| == |raw|
    ensures |raw| == 0 <==> raw == {}
  {
  }

  lemma OwnerStepInv(s: Wrapping, e: OwnerEvent)
    requires OwnerInv(s)
    ensures OwnerInv(OwnerStep(s, e))
  {
    if e.StartRaw? || e.EndRaw? || e.Detach? {
      ReferencesInv(s, e);
    } else if e == BeginSecure || e == IntoSplit {
      SetSizes(s.raw, 0, 0);
      TransferInv(s, e);
    } else {
      UpgradeInv(s, e);
    }
  }

  lemma ReferencesInv(s: Wrapping, e: OwnerEvent)
    requires OwnerInv(s) && (e.StartRaw? || e.EndRaw? || e.Detach?)
    ensures OwnerInv(OwnerStep(s, e))
  {
    SetSizes(s.raw, e.id, if e.Detach? then e.task else e.id);
  }

  lemma TransferInv(s: Wrapping, e: OwnerEvent)
    requires OwnerInv(s) && (e == BeginSecure || e == IntoSplit) && (|s.raw| == 0 <==> s.raw == {})
    ensures OwnerInv(OwnerStep(s, e))
  {
  }

  lemma UpgradeInv(s: Wrapping, e: OwnerEvent)
    requires OwnerInv(s) && !e.StartRaw? && !e.EndRaw? && !e.Detach? && e != BeginSecure && e != IntoSplit
    ensures OwnerInv(OwnerStep(s, e))
  {
  }

  lemma {:induction false} OwnerRunInv(es: seq<OwnerEvent>)
    ensures OwnerInv(OwnerRun(es))
  {
    if es != [] {
      OwnerRunInv(es[..|es| - 1]);
      OwnerStepInv(OwnerRun(es[..|es| - 1]), es[|es| - 1]);
    }
  }

  // ------------------------------------------------------------------ theorems

  /** The order of the slot's states. */
  function Rank(slot: Slot): nat {
    match slot
    case Plain => 0
    case Upgrading => 1
    case Secure => 2
    case Consumed => 2
  }

  /** What can become of a wrapper: the slot never goes back, a transferred connection is never raw again,
      a cancelled token stays cancelled, and a cancelled upgrade never becomes a secure one. */
  predicate Progressed(s: Wrapping, t: Wrapping) {
    && Rank(s.slot) <= Rank(t.slot)
    && (Rank(s.slot) == Rank(t.slot) ==> t.slot == s.slot)
    && (s.slot != Plain ==> t.raw == {} && t.slot != Plain)
    && (s.slot == Upgrading ==> t.slot != Consumed)
    && (s.token == Cancelled ==> t.token == Cancelled)
    && (s.slot == Upgrading && s.token == Cancelled ==> t.slot == Upgrading)
    && (s.owner == Nobody ==> t.owner == Nobody)
  }

  lemma StepProgresses(s: Wrapping, e: OwnerEvent)
    requires OwnerInv(s)
    ensures Progressed(s, OwnerStep(s, e))
  {
  }

  lemma {:induction false} RunProgresses(es: seq<OwnerEvent>, more: seq<OwnerEvent>)
    ensures Progressed(OwnerRun(es), OwnerRun(es + more))
  {
    if more == [] {
      assert es + more == es;
      OwnerRunInv(es);
    } else {
      var init := more[..|more| - 1];
      RunProgresses(es, init);
      assert (es + more)[..|es + more| - 1] == es + init;
      OwnerRunInv(es + init);
      OwnerRunInv(es);
      StepProgresses(OwnerRun(es + init), more[|more| - 1]);
    }
  }

  /**
   Linear ownership. In every run the raw connection belongs to exactly one party, and the slot and the
   handshake future say which: the wrapper with its raw operations, the handshake, the secure session, the
   split halves, or nobody any more. Raw operations are in flight only while the slot is plain, and the
   reference count is the slot's reference plus theirs.
   */
  lemma LinearOwnership(es: seq<OwnerEvent>)
    ensures var s := OwnerRun(es);
      && s.owner == (match s.slot
                     case Plain => Wrapper
                     case Consumed => Halves
                     case Secure => Session
                     case Upgrading => if s.upgrade == Running then Handshake
                                       else if s.upgrade == Built then Session else Nobody)
      && (s.raw != {} ==> s.slot == Plain && s.strong > 1)
      && (s.slot == Plain ==> s.strong == 1 + |s.raw|)
  {
    OwnerRunInv(es);
    SetSizes(OwnerRun(es).raw, 0, 0);
  }

  /** Exactly at a transfer the connection leaves the wrapper: no raw operation is in flight at that moment,
      and none starts later. The transfer is refused exactly when one is in flight or the slot is not plain. */
  lemma TransferIsExclusive(es: seq<OwnerEvent>, e: OwnerEvent, more: seq<OwnerEvent>)
    requires e == BeginSecure || e == IntoSplit
    ensures var s, t := OwnerRun(es), OwnerRun(es + [e]);
      && (t != s <==> s.slot == Plain && s.raw == {})
      && (t != s ==> t.slot != Plain && OwnerRun(es + [e] + more).raw == {} && OwnerRun(es + [e] + more).slot != Plain)
  {
    assert (es + [e])[..|es|] == es;
    OwnerRunInv(es);
    SetSizes(OwnerRun(es).raw, 0, 0);
    RunProgresses(es + [e], more);
  }

  /** A `close()` that finds an upgrade in progress prevents it from ever becoming secure, and ends with nobody
      or the unfinished handshake owning the connection. */
  lemma ClosePreventsSecure(es: seq<OwnerEvent>, more: seq<OwnerEvent>)
    requires OwnerRun(es).slot == Upgrading
    ensures var t := OwnerRun(es + [Close] + more);
      t.slot == Upgrading && t.token == Cancelled && t.owner != Wrapper && t.owner != Halves
  {
    assert (es + [Close])[..|es|] == es;
    RunProgresses(es + [Close], more);
    OwnerRunInv(es + [Close] + more);
  }

  /** The events that end an upgrade without a session, each in the situation in which it can happen. */
  predicate GivesUp(s: Wrapping, e: OwnerEvent) {
    match e
    case DropFuture => s.upgrade == Running
    case HandshakeFails => s.upgrade == Running || s.upgrade == Built
    case SeeCancel => s.upgrade == Running && s.token == Cancelled
    case FinishSecure => s.upgrade == Built && s.token == Cancelled
    case _ => false
  }

  /**
   No session out of a given-up upgrade. When the handshake future is dropped, fails, or sees the cancelled
   token, or finds it cancelled when it is done, the connection belongs to nobody from then on, the token is
   cancelled, and the wrapper never becomes secure, whatever follows.
   */
  lemma GivenUpForGood(es: seq<OwnerEvent>, e: OwnerEvent, more: seq<OwnerEvent>)
    requires GivesUp(OwnerRun(es), e)
    ensures var t := OwnerRun(es + [e] + more); t.slot == Upgrading && t.token == Cancelled && t.owner == Nobody
  {
    OwnerRunInv(es);
    assert (es + [e])[..|es|] == es;
    RunProgresses(es + [e], more);
    OwnerRunInv(es + [e] + more);
  }

  /** And only so: whoever loses the connection to nobody has given up an upgrade. */
  lemma GivenUpExactly(es: seq<OwnerEvent>, e: OwnerEvent)
    requires OwnerRun(es).owner != Nobody
    ensures OwnerRun(es + [e]).owner == Nobody <==> GivesUp(OwnerRun(es), e)
  {
    OwnerRunInv(es);
    assert (es + [e])[..|es|] == es;
  }

  /** A wrapper becomes secure in one way: the finished handshake is installed while its token is armed. */
  lemma SecureExactly(es: seq<OwnerEvent>, e: OwnerEvent)
    requires OwnerRun(es).slot != Secure
    ensures OwnerRun(es + [e]).slot == Secure
            <==> e == FinishSecure && OwnerRun(es).upgrade == Built && OwnerRun(es).token == Armed
  {
    OwnerRunInv(es);
    assert (es + [e])[..|es|] == es;
  }

  /** The token is cancelled by a close of an upgrading or secure wrapper, by its session, or by giving up. */
  lemma CancelledExactly(es: seq<OwnerEvent>, e: OwnerEvent)
    requires OwnerRun(es).token == Armed
    ensures var s := OwnerRun(es);
      OwnerRun(es + [e]).token == Cancelled
      <==> ((e == Close || e == CancelToken) && (s.slot == Upgrading || s.slot == Secure)) || GivesUp(s, e)
  {
    OwnerRunInv(es);
    assert (es + [e])[..|es|] == es;
  }

  /** The undisturbed upgrade, from any plain wrapper without raw operations. */
  lemma UpgradeCompletes(es: seq<OwnerEvent>)
    requires OwnerRun(es).slot == Plain && OwnerRun(es).raw == {}
    ensures var t := OwnerRun(es + [BeginSecure] + [HandshakeDone] + [FinishSecure]);
      t.slot == Secure && t.owner == Session && t.token == Armed
  {
    hide OwnerRun;
    OwnerRunInv(es);
    UpgradeSteps(OwnerRun(es));
    OwnerRunSnoc(es, BeginSecure);
    OwnerRunSnoc(es + [BeginSecure], HandshakeDone);
    OwnerRunSnoc(es + [BeginSecure] + [HandshakeDone], FinishSecure);
  }

  lemma UpgradeSteps(s: Wrapping)
    requires OwnerInv(s) && s.slot == Plain && s.raw == {}
    ensures var t := OwnerStep(OwnerStep(OwnerStep(s, BeginSecure), HandshakeDone), FinishSecure);
      t.slot == Secure && t.owner == Session && t.token == Armed
  {
    SetSizes(s.raw, 0, 0);
  }

  lemma OwnerRunSnoc(es: seq<OwnerEvent>, e: OwnerEvent)
    ensures OwnerRun(es + [e]) == OwnerStep(OwnerRun(es), e)
  {
    assert (es + [e])[..|es|] == es;
  }

  /** A raw operation gives its reference back when it returns, or hands it to the task that its guard spawns. */
  lemma RawEnds(es: seq<OwnerEvent>, id: CallId, task: CallId)
    requires id in OwnerRun(es).raw
    ensures OwnerRun(es + [EndRaw(id)]).raw == OwnerRun(es).raw - {id}
    ensures task !in OwnerRun(es).raw ==> OwnerRun(es + [Detach(id, task)]).raw == OwnerRun(es).raw - {id} + {task}
    ensures OwnerRun(es + [EndRaw(id)]).slot == OwnerRun(es + [Detach(id, task)]).slot == OwnerRun(es).slot
  {
    OwnerRunInv(es);
    assert (es + [EndRaw(id)])[..|es|] == es && (es + [Detach(id, task)])[..|es|] == es;
  }

  lemma TransferSteps(s: Wrapping)
    requires OwnerInv(s) && s.slot == Plain && s.raw == {}
    ensures OwnerStep(s, BeginSecure).slot == Upgrading && OwnerStep(s, IntoSplit).slot == Consumed
  {
    SetSizes(s.raw, 0, 0);
  }

  /** So a plain wrapper can always be transferred once its raw operations have returned. */
  lemma {:induction false} PlainIsTransferable(es: seq<OwnerEvent>) returns (more: seq<OwnerEvent>)
    requires OwnerRun(es).slot == Plain
    ensures forall i :: 0 <= i < |more| ==> more[i].EndRaw?
    ensures OwnerRun(es + more + [BeginSecure]).slot == Upgrading && OwnerRun(es + more + [IntoSplit]).slot == Consumed
    decreases |OwnerRun(es).raw|
  {
    hide OwnerRun, OwnerStep;
    var s := OwnerRun(es);
    if s.raw == {} {
      more := [];
      assert es + more == es;
      OwnerRunInv(es);
      TransferSteps(s);
      OwnerRunSnoc(es, BeginSecure);
      OwnerRunSnoc(es, IntoSplit);
    } else {
      var id :| id in s.raw;
      RawEnds(es, id, id);
      SetSizes(s.raw, id, id);
      var rest := PlainIsTransferable(es + [EndRaw(id)]);
      more := [EndRaw(id)] + rest;
      assert es + more == es + [EndRaw(id)] + rest;
    }
  }

  // ------------------------------------------------------------------ the object

  /** The wrapper object. `model` is the machine's state; its methods move it by their own events. */
  class WrapperObject {
    var slot: Slot
    var token: Token
    var strong: nat
    ghost var model: Wrapping

    ghost predicate Valid()
      reads this
    {
      model.slot == slot && model.token == token && model.strong == strong && OwnerInv(model)
    }

    constructor ()
      ensures Valid() && model == New
    {
      slot, token, strong, model := Plain, Armed, 1, New;
    }

    /** The raw connection for one more operation. */
    method PlainConnection(id: CallId) returns (r: Result<(), Refusal>)
      requires Valid() && id !in model.raw
      modifies this
      ensures Valid() && model == OwnerStep(old(model), StartRaw(id))
      ensures r.Ok? <==> old(slot) == Plain
      ensures r.Ok? ==> id in model.raw && strong == old(strong) + 1
      ensures r.Err? ==> model == old(model)
      ensures r == Err(WasConsumed) <==> old(slot) == Consumed
    {
      ghost var before := model;
      OwnerStepInv(before, StartRaw(id));
      model := OwnerStep(model, StartRaw(id));
      match slot
      case Plain =>
        strong := strong + 1;
        return Ok(());
      case Secure => return Err(NotPlain);
      case Upgrading => return Err(NotPlain);
      case Consumed => return Err(WasConsumed);
    }

    /** Replace the slot, and put it back unless it held the last reference to a plain connection. */
    method TakePlain(next: Slot) returns (r: Result<(), Refusal>)
      requires Valid() && (next == Upgrading || next == Consumed)
      modifies this
      ensures Valid()
      ensures model == OwnerStep(old(model), if next == Upgrading then BeginSecure else IntoSplit)
      ensures r.Ok? <==> old(slot) == Plain && old(model).raw == {}
      ensures r.Ok? ==> slot == next && model.owner != Wrapper
      ensures r.Err? ==> slot == old(slot) && model == old(model)
      ensures r == Err(Pending) <==> old(slot) == Plain && old(model).raw != {}
    {
      ghost var e := if next == Upgrading then BeginSecure else IntoSplit;
      OwnerStepInv(model, e);
      SetSizes(model.raw, 0, 0);
      model := OwnerStep(model, e);
      var previous := slot;
      slot := Consumed;
      match previous
      case Plain =>
        if strong == 1 {
          slot, strong := next, 0;
          return Ok(());
        }
        slot := Plain;
        return Err(Pending);
      case _ =>
        slot := previous;
        return Err(NotPlain);
    }

    /** Install the session, unless the upgrade has been cancelled meanwhile. */
    method FinishSecure() returns (r: Result<(), Refusal>)
      requires Valid() && model.upgrade == Built
      modifies this
      ensures Valid() && model == OwnerStep(old(model), OwnerEvent.FinishSecure)
      ensures r.Ok? <==> old(token) == Armed
      ensures r.Ok? ==> slot == Secure && model.owner == Session
      ensures r.Err? ==> slot == Upgrading && token == Cancelled && model.owner == Nobody
    {
      OwnerStepInv(model, OwnerEvent.FinishSecure);
      model := OwnerStep(model, OwnerEvent.FinishSecure);
      if slot == Upgrading && token == Armed {
        slot := Secure;
        return Ok(());
      }
      token := Cancelled;
      return Err(NoLongerActive);
    }

    /** The synchronous part of `close()`. */
    method Close() returns (r: Result<(), Refusal>)
      requires Valid()
      modifies this
      ensures Valid() && model == OwnerStep(old(model), OwnerEvent.Close)
      ensures r.Err? <==> old(slot) == Consumed
      ensures slot == old(slot)
      ensures slot == Upgrading || slot == Secure ==> token == Cancelled
      ensures slot == Plain || slot == Consumed ==> model == old(model)
    {
      OwnerStepInv(model, OwnerEvent.Close);
      model := OwnerStep(model, OwnerEvent.Close);
      match slot {
        case Upgrading => token := Cancelled;
        case Plain =>
        case Secure => token := Cancelled;
        case Consumed => return Err(WasConsumed);
      }
      return Ok(());
    }
  }
}
