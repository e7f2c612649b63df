/**
 From the handshake to the bytes. A session of the network is used by a receiver on the transport: whenever
 the receiver opens a frame, the cipher knows what had been sealed by that moment of one network run, by
 anybody, the attacker included. Nothing else is assumed of the oracle, and nothing at all of the bytes that
 arrive. `ReceivesFromPartner` joins the matching handshake with prefix delivery.
 */
module SecureChannel {
  import opened ByteStrings
  import opened Wrappers
  import opened Protocol
  import opened SecureRecords
  import opened Handshake
  import R = Receiver

  function NetAt(w: World, net: seq<NetEvent>, k: nat): Net
    requires k <= |net|
  {
    NetRun(w, net[..k])
  }

  lemma {:induction false} NetGrows(w: World, net: seq<NetEvent>, j: nat, k: nat)
    requires Valid(w) && j <= k <= |net|
    ensures Grows(NetAt(w, net, j), NetAt(w, net, k)) && NetInv(w, NetAt(w, net, k))
  {
    hide NetStep, NetInv, Grows;
    NetRunInv(w, net[..k]);
    if j == k {
      GrowsRefl(NetAt(w, net, j));
    } else {
      NetGrows(w, net, j, k - 1);
      assert net[..k][..k - 1] == net[..k - 1];
      InvIsShaped(w, NetAt(w, net, k - 1));
      StepKeeps(w, NetAt(w, net, k - 1), net[k - 1]);
      GrowsTransitive(NetAt(w, net, j), NetAt(w, net, k - 1), NetAt(w, net, k));
    }
  }

  lemma InvIsShaped(w: World, n: Net)
    requires NetInv(w, n)
    ensures Shaped(w, n)
  {
  }

  lemma GrowsRefl(n: Net)
    ensures Grows(n, n)
  {
  }

  lemma GrowsTransitive(n: Net, t: Net, u: Net)
    requires Grows(n, t) && Grows(t, u)
    ensures Grows(n, u)
  {
  }

  /** Session `x` pins an honest identity and has its parties. */
  predicate Trusted(w: World, n: Net, x: SessionId) {
    x in w.setups && x in n.sessions && w.setups[x].pinned in w.honest && n.sessions[x].parties.Some?
  }

  function LaneFor(w: World, n: Net, x: SessionId): Lane
    requires Trusted(w, n, x)
  {
    ReceiveLane(w, w.setups[x].role, n.sessions[x].parties.value)
  }

  /** Receives whose cipher is that of the network at moments `at[0] <= at[1] <= ...`, from `from` on. */
  ghost predicate Fed(w: World, net: seq<NetEvent>, from: nat, es: seq<R.ReceiveEvent>, at: seq<nat>) {
    && |at| == |es|
    && (forall i :: 0 <= i < |at| ==> from <= at[i] <= |net|)
    && (forall i, j :: 0 <= i < j < |at| ==> at[i] <= at[j])
    && (forall i :: 0 <= i < |es| && es[i].Collect? ==> es[i].oracle == NetAt(w, net, at[i]).oracle)
  }

  lemma TrustedStays(w: World, n: Net, t: Net, x: SessionId)
    requires Trusted(w, n, x) && Grows(n, t)
    ensures Trusted(w, t, x) && LaneFor(w, t, x) == LaneFor(w, n, x)
  {
  }

  /** Nobody else is a partner of `x`. */
  ghost predicate OnlyPartner(w: World, n: Net, x: SessionId, y: SessionId) {
    forall z :: Partners(w, n, x, z) ==> z == y
  }

  /** What partner `y` had sealed when the network was `n`. */
  function SealedSoFar(w: World, n: Net, x: SessionId, y: SessionId): seq<Bytes> {
    if Partners(w, n, x, y) then n.sessions[y].sent else []
  }

  /** If nobody but `y` can be the partner, the lane carries what `y` sealed, and nothing before. */
  lemma LaneCarries(w: World, n: Net, x: SessionId, y: SessionId)
    requires Valid(w) && NetInv(w, n) && Trusted(w, n, x)
    requires OnlyPartner(w, n, x, y)
    ensures Honest(n.oracle, LaneFor(w, n, x), SealedSoFar(w, n, x, y))
  {
    hide Partners;
    assert Trusts(w, n, x);
    TrustedIsPrivate(w, n, x);
    if Partners(w, n, x, y) {
      PartnerIsHonest(w, n, x, y);
    } else {
      forall q, k: nat | q in n.oracle && k < U64_LIMIT && OpensAt(q, LaneFor(w, n, x), k) ensures false {
        var id, i := EntryOfPartner(w, n, x, q, k);
      }
    }
  }

  /** Whoever is the partner at one moment is the partner at every later one. */
  lemma SamePartner(w: World, n: Net, t: Net, x: SessionId, y: SessionId)
    requires Valid(w) && Grows(n, t) && NetInv(w, t)
    requires OnlyPartner(w, t, x, y)
    ensures OnlyPartner(w, n, x, y)
    ensures SealedSoFar(w, n, x, y) <= SealedSoFar(w, t, x, y)
  {
    hide NetInv, Valid;
    forall z | Partners(w, n, x, z) ensures z == y && Partners(w, t, x, y) {
      PartnersStay(w, n, t, x, z);
    }
    if Partners(w, n, x, y) {
      PartnersStay(w, n, t, x, y);
    }
  }

  lemma DeliveredFromPartner(w: World, net: seq<NetEvent>, from: nat, x: SessionId, y: SessionId,
                             start: R.Inbox, es: seq<R.ReceiveEvent>, at: seq<nat>)
    requires Valid(w) && from <= |net| && Trusted(w, NetAt(w, net, from), x)
    requires R.Fresh(start) && Fed(w, net, from, es, at) && es != []
    requires OnlyPartner(w, NetAt(w, net, at[|es| - 1]), x, y)
    ensures R.ReceiveRun(start, LaneFor(w, NetAt(w, net, from), x), es).delivered
            <= SealedSoFar(w, NetAt(w, net, at[|es| - 1]), x, y)
  {
    hide NetInv, Valid, Grows, Partners, Honest, LaneFor, Trusted, SealedSoFar, NetAt, R.Fresh;
    var lane := LaneFor(w, NetAt(w, net, from), x);
    var last := at[|es| - 1];
    NetGrows(w, net, last, last);
    var sealed := seq(|es|, i requires 0 <= i < |es| => SealedSoFar(w, NetAt(w, net, at[i]), x, y));
    forall i | 0 <= i < |es|
      ensures Honest(NetAt(w, net, at[i]).oracle, lane, sealed[i])
      ensures OnlyPartner(w, NetAt(w, net, at[i]), x, y)
    {
      NetGrows(w, net, from, at[i]);
      NetGrows(w, net, at[i], last);
      SamePartner(w, NetAt(w, net, at[i]), NetAt(w, net, last), x, y);
      TrustedStays(w, NetAt(w, net, from), NetAt(w, net, at[i]), x);
      LaneCarries(w, NetAt(w, net, at[i]), x, y);
    }
    forall i, j | 0 <= i < j < |es| ensures sealed[i] <= sealed[j] {
      NetGrows(w, net, at[i], at[j]);
      SamePartner(w, NetAt(w, net, at[i]), NetAt(w, net, at[j]), x, y);
    }
    R.DeliveredIsPrefix(start, lane, es, sealed);
  }

  /**
   The secure channel, end to end. Take a session that pins an honest identity and has its parties, in any
   network run under attack, and a receiver on the transport that uses its receive lane, with any incoming
   bytes, closes, pauses and dropped futures. If the receiver has returned anything, the session has exactly
   one partner, and everything returned so far is a prefix of what that partner had sealed by then; the
   counter is the number of plaintexts returned.
   */
  lemma ReceivesFromPartner(w: World, net: seq<NetEvent>, from: nat, x: SessionId,
                            start: R.Inbox, es: seq<R.ReceiveEvent>, at: seq<nat>)
    requires Valid(w) && from <= |net| && Trusted(w, NetAt(w, net, from), x)
    requires R.Fresh(start) && Fed(w, net, from, es, at)
    ensures var s := R.ReceiveRun(start, LaneFor(w, NetAt(w, net, from), x), es);
      && s.sequence == |s.delivered|
      && (s.delivered != [] ==> es != [] && exists y ::
            && Partners(w, NetAt(w, net, at[|es| - 1]), x, y)
            && w.setups[y].identity == w.setups[x].pinned
            && OnlyPartner(w, NetAt(w, net, at[|es| - 1]), x, y)
            && s.delivered <= NetAt(w, net, at[|es| - 1]).sessions[y].sent)
  {
    hide NetInv, Valid, Grows, Partners, LaneFor, Trusted, NetAt, R.Fresh, R.ReceiveInv;
    var lane := LaneFor(w, NetAt(w, net, from), x);
    R.CounterCountsReceives(start, lane, es);
    if es == [] {
      assert start.delivered == [] by { FreshIsEmpty(start); }
    } else {
      var last := NetAt(w, net, at[|es| - 1]);
      NetGrows(w, net, from, at[|es| - 1]);
      if y :| Partners(w, last, x, y) {
        UniquePartner(w, last, x, y);
        DeliveredFromPartner(w, net, from, x, y, start, es, at);
      } else {
        DeliveredFromPartner(w, net, from, x, 0, start, es, at);
      }
    }
  }

  lemma FreshIsEmpty(start: R.Inbox)
    requires R.Fresh(start)
    ensures start.delivered == []
  {
  }

  lemma UniquePartner(w: World, n: Net, x: SessionId, y: SessionId)
    requires Valid(w) && NetInv(w, n) && Partners(w, n, x, y)
    ensures OnlyPartner(w, n, x, y)
    ensures w.setups[y].identity == w.setups[x].pinned
  {
    assert Sane(w.setups[x], n.sessions[x]) && Sane(w.setups[y], n.sessions[y]);
    forall z | Partners(w, n, x, z) ensures z == y {
      OnePartner(w, n, x, y, z);
    }
  }
}
