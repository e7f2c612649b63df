/**
 The handshake under an active attacker.

 Any number of client and server sessions of honest endpoints run side by side; the attacker sees
 everything, delivers any bytes to anybody, signs with every identity that is not honest, and seals with
 every key whose shared secret involves an ephemeral that no honest session generated. The primitives
 are ideal: a signature verifies exactly if it was made (section 5.1 of RFC 8032), the agreed secret is the
 unordered pair of the two ephemerals (section 6.1 of RFC 7748), hashing and key derivation are injective,
 and a ciphertext opens exactly if it was sealed. Everything around them is the code's own: codecs, pinning,
 signed byte strings, the order of the checks, sequence numbers and the key-confirmation messages.
 */
module Handshake {
  import opened ByteStrings
  import opened Wrappers
  import opened Protocol
  import opened SecureRecords

  type SessionId = nat

  datatype Role = Client | Server

  /** What is fixed before a session starts: its own identity, the identity it pins, and its random values. */
  datatype Setup = Setup(role: Role, identity: Bytes, pinned: Bytes, ephemeral: Bytes, nonce: Bytes)

  /** All sessions of honest endpoints, the identities whose private keys the attacker does not have, the
      ephemerals that yield no contribution, and the nonce prefixes that key derivation outputs. */
  datatype World = World(
    setups: map<SessionId, Setup>,
    honest: set<Bytes>,
    lowOrder: set<Bytes>,
    prefixes: Key -> Bytes)

  datatype Stage = Idle | AwaitHello | SendFinished | AwaitFinished | Established | Failed

  /** `sent` and `received` are the plaintexts of the records of the two directions; their lengths are the
      two sequence counters. */
  datatype Session = Session(stage: Stage, parties: Option<Parties>, sent: seq<Bytes>, received: seq<Bytes>)

  datatype Signed = Signed(identity: Bytes, message: Bytes, signature: Bytes)

  datatype Net = Net(sessions: map<SessionId, Session>, signed: set<Signed>, oracle: Oracle)

  datatype NetEvent =
    | Start(id: SessionId, signature: Bytes)
    | Deliver(id: SessionId, frame: Bytes, signature: Bytes)    // a frame arrives; a server may sign an answer
    | Seal(id: SessionId, plain: Bytes, ciphertext: Bytes)
    | Abort(id: SessionId)
    | AttackerSigns(entry: Signed)
    | AttackerSeals(query: Query, plain: Bytes)

  // ------------------------------------------------------------------ keys

  /** X25519 as a commuting term. */
  function DiffieHellman(own: Bytes, peer: Bytes): set<Bytes> {
    {own} + {peer}
  }

  function Secret(role: Role, p: Parties): set<Bytes> {
    if role == Client then DiffieHellman(p.clientEphemeral, p.serverEphemeral)
    else DiffieHellman(p.serverEphemeral, p.clientEphemeral)
  }

  function LaneOf(w: World, secret: set<Bytes>, p: Parties, direction: byte): Lane {
    var key := Key(secret, TranscriptMessage(p), direction);
    Lane(key, w.prefixes(key), direction, TranscriptMessage(p))
  }

  function SendLane(w: World, role: Role, p: Parties): Lane {
    LaneOf(w, Secret(role, p), p, if role == Client then CLIENT_TO_SERVER else SERVER_TO_CLIENT)
  }

  function ReceiveLane(w: World, role: Role, p: Parties): Lane {
    LaneOf(w, Secret(role, p), p, if role == Client then SERVER_TO_CLIENT else CLIENT_TO_SERVER)
  }

  function Other(role: Role): Role {
    if role == Client then Server else Client
  }

  function Finished(role: Role): Bytes {
    if role == Client then CLIENT_FINISHED else SERVER_FINISHED
  }

  /** The two sides of one transcript derive mirrored lanes, and no two lanes of different transcripts,
      or of the two directions of one, share a key. */
  lemma LanesMirror(w: World, role: Role, p: Parties, other: Role, q: Parties)
    requires SizedParties(p) && SizedParties(q)
    ensures SendLane(w, role, p) == ReceiveLane(w, Other(role), p)
    ensures SendLane(w, role, p).key == ReceiveLane(w, other, q).key <==> p == q && other == Other(role)
  {
    TranscriptInjective(p, q);
    assert Secret(Client, p) == Secret(Server, p);
  }

  // ------------------------------------------------------------------ what a session does with a hello

  /** The client's checks of a server hello, in the code's order. */
  function AcceptServerHello(w: World, own: Setup, signed: set<Signed>, frame: Bytes): Option<Parties> {
    match DecodeHello(SERVER_HELLO, frame)
    case Err(_) => None
    case Ok(hello) =>
      if hello.identity != own.pinned then None
      else
        var p := Parties(own.ephemeral, own.identity, own.nonce, hello.ephemeral, hello.identity, hello.nonce);
        if Signed(hello.identity, ServerSignatureMessage(p), hello.signature) !in signed then None
        else if hello.ephemeral in w.lowOrder then None
        else Some(p)
  }

  /** The server's checks of a client hello; it answers before it looks at the agreed secret. */
  function AcceptClientHello(own: Setup, signed: set<Signed>, frame: Bytes): Option<Parties> {
    match DecodeHello(CLIENT_HELLO, frame)
    case Err(_) => None
    case Ok(hello) =>
      if hello.identity != own.pinned then None
      else if Signed(hello.identity,
                     ClientSignatureMessage(hello.ephemeral, hello.identity, hello.nonce, own.identity),
                     hello.signature) !in signed then None
      else Some(Parties(hello.ephemeral, hello.identity, hello.nonce, own.ephemeral, own.identity, own.nonce))
  }

  function OwnHello(own: Setup): Bytes {
    ClientSignatureMessage(own.ephemeral, own.identity, own.nonce, own.pinned)
  }

  // ------------------------------------------------------------------ steps

  function Put(n: Net, id: SessionId, s: Session): Net {
    n.(sessions := n.sessions[id := s])
  }

  function Sign(n: Net, entry: Signed): Net {
    n.(signed := n.signed + {entry})
  }

  function Fail(n: Net, id: SessionId): Net
    requires id in n.sessions
  {
    Put(n, id, n.sessions[id].(stage := Failed))
  }

  function ClientHears(w: World, n: Net, id: SessionId, frame: Bytes): Net
    requires id in n.sessions && id in w.setups
  {
    match AcceptServerHello(w, w.setups[id], n.signed, frame)
    case None => Fail(n, id)
    case Some(p) => Put(n, id, n.sessions[id].(stage := AwaitFinished, parties := Some(p)))
  }

  function ServerHears(w: World, n: Net, id: SessionId, frame: Bytes, signature: Bytes): Net
    requires id in n.sessions && id in w.setups
  {
    var own := w.setups[id];
    match AcceptClientHello(own, n.signed, frame)
    case None => Fail(n, id)
    case Some(p) =>
      var answered := Sign(n, Signed(own.identity, ServerSignatureMessage(p), signature));
      Put(answered, id, n.sessions[id].(stage := if p.clientEphemeral in w.lowOrder then Failed else SendFinished,
                                        parties := Some(p)))
  }

  /** A record has been opened; during the handshake it must be the peer's confirmation. */
  function AfterOpening(role: Role, s: Session, plain: Bytes): Session {
    s.(received := s.received + [plain],
       stage := if s.stage == Established then Established
                else if plain != Finished(Other(role)) then Failed
                else if role == Client then SendFinished else Established)
  }

  function AfterSealing(role: Role, s: Session, plain: Bytes): Session {
    s.(sent := s.sent + [plain],
       stage := if s.stage == Established || role == Client then Established else AwaitFinished)
  }

  /** Open a record at the next sequence number. */
  function Opened(w: World, n: Net, id: SessionId, frame: Bytes): Net
    requires id in n.sessions && id in w.setups && n.sessions[id].parties.Some?
  {
    var s, role := n.sessions[id], w.setups[id].role;
    match Open(n.oracle, ReceiveLane(w, role, s.parties.value), |s.received|, frame)
    case Err(_) => if s.stage == Established then n else Fail(n, id)
    case Ok(plain) =>
      Put(n, id, AfterOpening(role, s, plain))
  }

  /** The next record of a session under its send key. */
  function NextQuery(w: World, n: Net, id: SessionId, ciphertext: Bytes): Query
    requires id in n.sessions && id in w.setups && n.sessions[id].parties.Some?
  {
    var s := n.sessions[id];
    QueryFor(SendLane(w, w.setups[id].role, s.parties.value), ToBigEndian(|s.sent|, SEQUENCE_SIZE), ciphertext)
  }

  function Sealing(w: World, n: Net, id: SessionId, plain: Bytes, ciphertext: Bytes): Net
    requires id in n.sessions && id in w.setups && n.sessions[id].parties.Some?
  {
    var s := n.sessions[id];
    Net(n.sessions[id := AfterSealing(w.setups[id].role, s, plain)],
        n.signed,
        n.oracle[NextQuery(w, n, id, ciphertext) := plain])
  }

  /** The attacker knows a traffic key exactly if the secret involves an ephemeral of no honest session. */
  predicate Private(w: World, secret: set<Bytes>) {
    forall e :: e in secret ==> exists id :: id in w.setups && w.setups[id].ephemeral == e
  }

  predicate Opens(s: Session) {
    s.stage == AwaitFinished || s.stage == Established
  }

  predicate Possible(w: World, n: Net, e: NetEvent) {
    match e
    case Start(id, _) => id in n.sessions && id in w.setups && n.sessions[id].stage == Idle
    case Deliver(id, _, _) =>
      && id in n.sessions && id in w.setups
      && (n.sessions[id].stage == AwaitHello || (Opens(n.sessions[id]) && n.sessions[id].parties.Some?))
    case Seal(id, plain, ciphertext) =>
      && id in n.sessions && id in w.setups && n.sessions[id].parties.Some?
      && |n.sessions[id].sent| + 1 < U64_LIMIT
      && (n.sessions[id].stage == Established
          || (n.sessions[id].stage == SendFinished && plain == Finished(w.setups[id].role)))
      && (NextQuery(w, n, id, ciphertext) in n.oracle ==> n.oracle[NextQuery(w, n, id, ciphertext)] == plain)
    case Abort(id) => id in n.sessions
    case AttackerSigns(entry) => entry.identity !in w.honest
    case AttackerSeals(query, plain) =>
      !Private(w, query.key.secret) && (query in n.oracle ==> n.oracle[query] == plain)
  }

  function NetStep(w: World, n: Net, e: NetEvent): Net {
    if !Possible(w, n, e) then n else
    match e
    case Start(id, signature) =>
      var started := Put(n, id, n.sessions[id].(stage := AwaitHello));
      if w.setups[id].role == Server then started
      else Sign(started, Signed(w.setups[id].identity, OwnHello(w.setups[id]), signature))
    case Deliver(id, frame, signature) =>
      if n.sessions[id].stage != AwaitHello then Opened(w, n, id, frame)
      else if w.setups[id].role == Client then ClientHears(w, n, id, frame)
      else ServerHears(w, n, id, frame, signature)
    case Seal(id, plain, ciphertext) => Sealing(w, n, id, plain, ciphertext)
    case Abort(id) => Fail(n, id)
    case AttackerSigns(entry) => Sign(n, entry)
    case AttackerSeals(query, plain) => n.(oracle := n.oracle[query := plain])
  }

  function StartNet(w: World): Net {
    Net(map id | id in w.setups :: Session(Idle, None, [], []), {}, map[])
  }

  function NetRun(w: World, es: seq<NetEvent>): Net {
    if es == [] then StartNet(w) else NetStep(w, NetRun(w, es[..|es| - 1]), es[|es| - 1])
  }

  /** Honest sessions use honest identities, and no two share an ephemeral. */
  predicate Valid(w: World) {
    && (forall id :: id in w.setups ==>
          var own := w.setups[id];
          && |own.identity| == |own.pinned| == |own.ephemeral| == |own.nonce| == KEY_SIZE
          && own.identity in w.honest && own.ephemeral !in w.lowOrder)
    && (forall i, j :: i in w.setups && j in w.setups && w.setups[i].ephemeral == w.setups[j].ephemeral ==> i == j)
  }

  // ------------------------------------------------------------------ invariant

  /** The session's own values and the identity it pins are where they belong in its parties. */
  predicate Owns(own: Setup, p: Parties) {
    && SizedParties(p)
    && (if own.role == Client
        then own.ephemeral == p.clientEphemeral && own.identity == p.clientIdentity && own.nonce == p.clientNonce
             && own.pinned == p.serverIdentity
        else own.ephemeral == p.serverEphemeral && own.identity == p.serverIdentity && own.nonce == p.serverNonce
             && own.pinned == p.clientIdentity)
  }

  predicate Keyed(s: Session) {
    s.stage == SendFinished || s.stage == AwaitFinished || s.stage == Established
  }

  /** How far each side has come in the exchange of confirmations. */
  predicate InOrder(role: Role, s: Session) {
    && (s.sent != [] ==> s.sent[0] == Finished(role))
    && (s.stage == Idle || s.stage == AwaitHello ==> s.parties.None?)
    && (if role == Client then
          && (s.stage == AwaitFinished ==> s.sent == [] && s.received == [])
          && (s.stage == SendFinished ==> s.sent == [] && s.received != [])
          && (s.stage == SendFinished || s.sent != [] ==> s.received != [] && s.received[0] == SERVER_FINISHED)
          && (s.stage == Established ==> s.sent != [])
        else
          && (s.stage == SendFinished ==> s.sent == [] && s.received == [])
          && (s.stage == AwaitFinished ==> s.sent != [] && s.received == [])
          && (s.received != [] ==> s.sent != [])
          && (s.stage == Established ==> s.received != [] && s.received[0] == CLIENT_FINISHED))
  }

  predicate Sane(own: Setup, s: Session) {
    && (s.parties.Some? ==> Owns(own, s.parties.value))
    && (Keyed(s) ==> s.parties.Some?)
    && (s.parties.None? ==> s.sent == [] && s.received == [])
    && |s.sent| < U64_LIMIT && |s.received| < U64_LIMIT
    && InOrder(own.role, s)
  }

  predicate Shaped(w: World, n: Net) {
    n.sessions.Keys == w.setups.Keys && forall id :: id in n.sessions ==> Sane(w.setups[id], n.sessions[id])
  }

  /** Session `id` made this signature. */
  predicate Made(w: World, n: Net, entry: Signed, id: SessionId) {
    && id in w.setups && id in n.sessions && entry.identity == w.setups[id].identity
    && (if w.setups[id].role == Client then entry.message == OwnHello(w.setups[id])
        else n.sessions[id].parties.Some? && entry.message == ServerSignatureMessage(n.sessions[id].parties.value))
  }

  ghost predicate SignaturesInv(w: World, n: Net) {
    forall entry :: entry in n.signed && entry.identity in w.honest ==> exists id :: Made(w, n, entry, id)
  }

  /** The entry is record `k` of session `id`. */
  predicate SealedBy(w: World, n: Net, q: Query, id: SessionId, k: nat) {
    && q in n.oracle && id in w.setups && id in n.sessions && n.sessions[id].parties.Some?
    && k < |n.sessions[id].sent| < U64_LIMIT
    && OpensAt(q, SendLane(w, w.setups[id].role, n.sessions[id].parties.value), k)
    && n.oracle[q] == n.sessions[id].sent[k]
  }

  ghost predicate RecordsInv(w: World, n: Net) {
    forall q :: q in n.oracle && Private(w, q.key.secret) ==> exists id, k :: SealedBy(w, n, q, id, k)
  }

  /** Two sessions of opposite roles with the same six values. */
  predicate Partners(w: World, n: Net, x: SessionId, y: SessionId) {
    && x in w.setups && y in w.setups && x in n.sessions && y in n.sessions
    && w.setups[y].role == Other(w.setups[x].role)
    && n.sessions[x].parties.Some? && n.sessions[y].parties == n.sessions[x].parties
  }

  /** A client session that offered the client side of these parties. */
  predicate Offered(w: World, n: Net, c: SessionId, p: Parties) {
    c in w.setups && c in n.sessions && w.setups[c].role == Client && OwnHello(w.setups[c])
      == ClientSignatureMessage(p.clientEphemeral, p.clientIdentity, p.clientNonce, p.serverIdentity)
  }

  /** What a session with an honest pinned peer knows once it has its parties. */
  ghost predicate Trusts(w: World, n: Net, x: SessionId)
    requires x in w.setups && x in n.sessions
  {
    n.sessions[x].parties.Some? && w.setups[x].pinned in w.honest ==>
      if w.setups[x].role == Client then exists y :: Partners(w, n, x, y)
      else exists c :: Offered(w, n, c, n.sessions[x].parties.value)
  }

  /** What a session whose key the attacker does not know has received so far. */
  ghost predicate Delivered(w: World, n: Net, x: SessionId)
    requires x in w.setups && x in n.sessions
  {
    var s := n.sessions[x];
    s.parties.Some? && Private(w, Secret(w.setups[x].role, s.parties.value)) && s.received != [] ==>
      exists y :: Partners(w, n, x, y) && s.received <= n.sessions[y].sent
  }

  ghost predicate NetInv(w: World, n: Net) {
    && Shaped(w, n)
    && SignaturesInv(w, n)
    && RecordsInv(w, n)
    && (forall x :: x in n.sessions ==> Trusts(w, n, x))
    && (forall x :: x in n.sessions ==> Delivered(w, n, x))
  }

  /** A session keeps its parties and extends its records. */
  predicate Extends(s: Session, t: Session) {
    && (s.parties.Some? ==> t.parties == s.parties)
    && s.sent <= t.sent && s.received <= t.received
  }

  /** Sessions extend; signatures and sealed records stay. */
  predicate Grows(n: Net, t: Net) {
    && t.sessions.Keys == n.sessions.Keys
    && (forall x :: x in n.sessions ==> Extends(n.sessions[x], t.sessions[x]))
    && n.signed <= t.signed
    && (forall q :: q in n.oracle ==> q in t.oracle && t.oracle[q] == n.oracle[q])
  }

  /** One session has moved, and what it signed and sealed has been added. */
  predicate Moves(w: World, n: Net, t: Net, id: SessionId) {
    && id in w.setups && id in n.sessions && t.sessions.Keys == n.sessions.Keys
    && (forall x :: x in n.sessions && x != id ==> t.sessions[x] == n.sessions[x])
    && Extends(n.sessions[id], t.sessions[id])
    && Sane(w.setups[id], t.sessions[id])
  }

  lemma MovesKeeps(w: World, n: Net, t: Net, id: SessionId)
    requires Shaped(w, n) && Moves(w, n, t, id)
    requires n.signed <= t.signed
    requires forall q :: q in n.oracle ==> q in t.oracle && t.oracle[q] == n.oracle[q]
    ensures Shaped(w, t) && Grows(n, t)
  {
  }

  // What each session step means for that session alone.

  lemma FailSane(own: Setup, s: Session)
    requires Sane(own, s) && s.parties.Some?
    ensures Sane(own, s.(stage := Failed))
  {
  }

  lemma ServerHelloSane(w: World, own: Setup, signed: set<Signed>, frame: Bytes, s: Session, p: Parties)
    requires Sane(own, s) && s.stage == AwaitHello && own.role == Client
    requires |own.identity| == |own.pinned| == |own.ephemeral| == |own.nonce| == KEY_SIZE
    requires AcceptServerHello(w, own, signed, frame) == Some(p)
    ensures Sane(own, s.(stage := AwaitFinished, parties := Some(p)))
    ensures own.pinned == p.serverIdentity
  {
    HelloCanonical(SERVER_HELLO, SERVER_HELLO, frame);
  }

  lemma ClientHelloSane(own: Setup, signed: set<Signed>, frame: Bytes, s: Session, p: Parties, stage: Stage)
    requires Sane(own, s) && s.stage == AwaitHello && own.role == Server
    requires |own.identity| == |own.pinned| == |own.ephemeral| == |own.nonce| == KEY_SIZE
    requires AcceptClientHello(own, signed, frame) == Some(p) && (stage == Failed || stage == SendFinished)
    ensures Sane(own, s.(stage := stage, parties := Some(p)))
  {
    HelloCanonical(CLIENT_HELLO, CLIENT_HELLO, frame);
  }

  lemma OpenedSane(own: Setup, s: Session, plain: Bytes)
    requires Sane(own, s) && Opens(s) && |s.received| + 1 < U64_LIMIT
    ensures Sane(own, AfterOpening(own.role, s, plain)) && Extends(s, AfterOpening(own.role, s, plain))
  {
  }

  lemma SealedSane(own: Setup, s: Session, plain: Bytes)
    requires Sane(own, s) && s.parties.Some? && |s.sent| + 1 < U64_LIMIT
    requires s.stage == Established || (s.stage == SendFinished && plain == Finished(own.role))
    ensures Sane(own, AfterSealing(own.role, s, plain)) && Extends(s, AfterSealing(own.role, s, plain))
  {
  }

  lemma HelloState(own: Setup, s: Session)
    requires Sane(own, s) && s.stage == AwaitHello
    ensures Sane(own, s.(stage := Failed)) && s.parties.None?
  {
  }

  lemma ClientMoves(w: World, n: Net, id: SessionId, frame: Bytes)
    requires Valid(w) && Shaped(w, n) && id in n.sessions && n.sessions[id].stage == AwaitHello
    requires w.setups[id].role == Client
    ensures Moves(w, n, ClientHears(w, n, id, frame), id)
  {
    var p := AcceptServerHello(w, w.setups[id], n.signed, frame);
    if p.Some? {
      ServerHelloSane(w, w.setups[id], n.signed, frame, n.sessions[id], p.value);
    }
  }

  lemma ServerAnswers(w: World, n: Net, id: SessionId, frame: Bytes, p: Parties, stage: Stage)
    requires Valid(w) && Shaped(w, n) && id in n.sessions && n.sessions[id].stage == AwaitHello
    requires w.setups[id].role == Server && AcceptClientHello(w.setups[id], n.signed, frame) == Some(p)
    requires stage == Failed || stage == SendFinished
    ensures var after := n.sessions[id].(stage := stage, parties := Some(p));
      Sane(w.setups[id], after) && Extends(n.sessions[id], after)
  {
    HelloState(w.setups[id], n.sessions[id]);
    ClientHelloSane(w.setups[id], n.signed, frame, n.sessions[id], p, stage);
  }

  lemma ServerMoves(w: World, n: Net, id: SessionId, frame: Bytes, signature: Bytes)
    requires Valid(w) && Shaped(w, n) && id in n.sessions && n.sessions[id].stage == AwaitHello
    requires w.setups[id].role == Server
    ensures Moves(w, n, ServerHears(w, n, id, frame, signature), id)
  {
    var p := AcceptClientHello(w.setups[id], n.signed, frame);
    HelloState(w.setups[id], n.sessions[id]);
    if p.Some? {
      var stage := if p.value.clientEphemeral in w.lowOrder then Failed else SendFinished;
      ServerAnswers(w, n, id, frame, p.value, stage);
    }
  }

  lemma RecordMoves(w: World, n: Net, id: SessionId, frame: Bytes)
    requires Shaped(w, n) && id in n.sessions && Opens(n.sessions[id]) && n.sessions[id].parties.Some?
    ensures Moves(w, n, Opened(w, n, id, frame), id)
  {
    var own, s := w.setups[id], n.sessions[id];
    var r := Open(n.oracle, ReceiveLane(w, own.role, s.parties.value), |s.received|, frame);
    if r.Ok? {
      OpenedSane(own, s, r.value);
    } else {
      FailSane(own, s);
    }
  }

  lemma SealMoves(w: World, n: Net, id: SessionId, plain: Bytes, ciphertext: Bytes)
    requires Shaped(w, n) && Possible(w, n, Seal(id, plain, ciphertext))
    ensures Moves(w, n, Sealing(w, n, id, plain, ciphertext), id)
  {
    SealedSane(w.setups[id], n.sessions[id], plain);
  }

  predicate Keeps(w: World, n: Net, t: Net) {
    Shaped(w, t) && Grows(n, t)
  }

  lemma DeliverKeeps(w: World, n: Net, id: SessionId, frame: Bytes, signature: Bytes)
    requires Valid(w) && Shaped(w, n) && Possible(w, n, Deliver(id, frame, signature))
    ensures Keeps(w, n, NetStep(w, n, Deliver(id, frame, signature)))
  {
    if n.sessions[id].stage != AwaitHello {
      RecordMoves(w, n, id, frame);
      MovesKeeps(w, n, Opened(w, n, id, frame), id);
    } else if w.setups[id].role == Client {
      ClientMoves(w, n, id, frame);
      MovesKeeps(w, n, ClientHears(w, n, id, frame), id);
    } else {
      ServerMoves(w, n, id, frame, signature);
      MovesKeeps(w, n, ServerHears(w, n, id, frame, signature), id);
    }
  }

  lemma SealKeeps(w: World, n: Net, id: SessionId, plain: Bytes, ciphertext: Bytes)
    requires Shaped(w, n) && Possible(w, n, Seal(id, plain, ciphertext))
    ensures Keeps(w, n, Sealing(w, n, id, plain, ciphertext))
  {
    SealMoves(w, n, id, plain, ciphertext);
    MovesKeeps(w, n, Sealing(w, n, id, plain, ciphertext), id);
  }

  lemma StartKeeps(w: World, n: Net, id: SessionId, signature: Bytes)
    requires Shaped(w, n) && Possible(w, n, Start(id, signature))
    ensures Keeps(w, n, NetStep(w, n, Start(id, signature)))
  {
    assert Sane(w.setups[id], n.sessions[id]);
    MovesKeeps(w, n, NetStep(w, n, Start(id, signature)), id);
  }

  lemma AbortKeeps(w: World, n: Net, id: SessionId)
    requires Shaped(w, n) && id in n.sessions
    ensures Keeps(w, n, Fail(n, id))
  {
    assert Sane(w.setups[id], n.sessions[id]);
    MovesKeeps(w, n, Fail(n, id), id);
  }

  /** Every event keeps the shape of all sessions and only extends what happened. */
  lemma StepKeeps(w: World, n: Net, e: NetEvent)
    requires Valid(w) && Shaped(w, n)
    ensures Keeps(w, n, NetStep(w, n, e))
  {
    if Possible(w, n, e) {
      match e
      case Deliver(id, frame, signature) => DeliverKeeps(w, n, id, frame, signature);
      case Seal(id, plain, ciphertext) => SealKeeps(w, n, id, plain, ciphertext);
      case Start(id, signature) => StartKeeps(w, n, id, signature);
      case Abort(id) => AbortKeeps(w, n, id);
      case _ =>
    }
  }

  // Signatures.

  lemma MadeStays(w: World, n: Net, t: Net, entry: Signed, id: SessionId)
    requires Grows(n, t) && Made(w, n, entry, id)
    ensures Made(w, t, entry, id)
  {
  }

  lemma SignaturesStay(w: World, n: Net, t: Net, extra: Signed, who: SessionId)
    requires SignaturesInv(w, n) && Grows(n, t) && t.signed <= n.signed + {extra}
    requires extra.identity in w.honest ==> Made(w, t, extra, who)
    ensures SignaturesInv(w, t)
  {
    forall entry | entry in t.signed && entry.identity in w.honest ensures exists id :: Made(w, t, entry, id) {
      if entry in n.signed {
        var id :| Made(w, n, entry, id);
        MadeStays(w, n, t, entry, id);
      }
    }
  }

  lemma StepSignatures(w: World, n: Net, e: NetEvent)
    requires SignaturesInv(w, n) && Grows(n, NetStep(w, n, e)) && Possible(w, n, e)
    ensures SignaturesInv(w, NetStep(w, n, e))
  {
    var t := NetStep(w, n, e);
    match e
    case Start(id, signature) =>
      if w.setups[id].role == Client {
        SignaturesStay(w, n, t, Signed(w.setups[id].identity, OwnHello(w.setups[id]), signature), id);
      } else {
        SameSignatures(w, n, t);
      }
    case Deliver(id, frame, signature) => DeliverSignatures(w, n, id, frame, signature);
    case AttackerSigns(entry) => SignaturesStay(w, n, t, entry, 0);
    case Seal(id, _, _) => SameSignatures(w, n, t);
    case Abort(id) => SameSignatures(w, n, t);
    case AttackerSeals(_, _) => SameSignatures(w, n, t);
  }

  lemma SameSignatures(w: World, n: Net, t: Net)
    requires SignaturesInv(w, n) && Grows(n, t) && t.signed == n.signed
    ensures SignaturesInv(w, t)
  {
    forall entry | entry in t.signed && entry.identity in w.honest ensures exists id :: Made(w, t, entry, id) {
      var id :| Made(w, n, entry, id);
      MadeStays(w, n, t, entry, id);
    }
  }

  lemma DeliverSignatures(w: World, n: Net, id: SessionId, frame: Bytes, signature: Bytes)
    requires SignaturesInv(w, n) && Possible(w, n, Deliver(id, frame, signature))
    requires Grows(n, NetStep(w, n, Deliver(id, frame, signature)))
    ensures SignaturesInv(w, NetStep(w, n, Deliver(id, frame, signature)))
  {
    var t := NetStep(w, n, Deliver(id, frame, signature));
    var p := AcceptClientHello(w.setups[id], n.signed, frame);
    if n.sessions[id].stage == AwaitHello && w.setups[id].role == Server && p.Some? {
      SignaturesStay(w, n, t, Signed(w.setups[id].identity, ServerSignatureMessage(p.value), signature), id);
    } else {
      SameSignatures(w, n, t);
    }
  }

  // Records.

  lemma SealedByStays(w: World, n: Net, t: Net, q: Query, id: SessionId, k: nat)
    requires Grows(n, t) && Shaped(w, t) && SealedBy(w, n, q, id, k)
    ensures SealedBy(w, t, q, id, k)
  {
  }

  lemma RecordsStay(w: World, n: Net, t: Net, extra: Query, who: SessionId, k: nat)
    requires RecordsInv(w, n) && Grows(n, t) && Shaped(w, t) && t.oracle.Keys <= n.oracle.Keys + {extra}
    requires Private(w, extra.key.secret) ==> SealedBy(w, t, extra, who, k)
    ensures RecordsInv(w, t)
  {
    forall q | q in t.oracle && Private(w, q.key.secret) ensures exists id, i :: SealedBy(w, t, q, id, i) {
      if q in n.oracle {
        var id, i :| SealedBy(w, n, q, id, i);
        SealedByStays(w, n, t, q, id, i);
      }
    }
  }

  lemma SameRecords(w: World, n: Net, t: Net)
    requires RecordsInv(w, n) && Grows(n, t) && Shaped(w, t) && t.oracle == n.oracle
    ensures RecordsInv(w, t)
  {
    forall q | q in t.oracle && Private(w, q.key.secret) ensures exists id, i :: SealedBy(w, t, q, id, i) {
      var id, i :| SealedBy(w, n, q, id, i);
      SealedByStays(w, n, t, q, id, i);
    }
  }

  lemma SealRecords(w: World, n: Net, id: SessionId, plain: Bytes, ciphertext: Bytes)
    requires RecordsInv(w, n) && Possible(w, n, Seal(id, plain, ciphertext))
    requires Keeps(w, n, Sealing(w, n, id, plain, ciphertext))
    ensures RecordsInv(w, Sealing(w, n, id, plain, ciphertext))
  {
    var t, q := Sealing(w, n, id, plain, ciphertext), NextQuery(w, n, id, ciphertext);
    assert SealedBy(w, t, q, id, |n.sessions[id].sent|);
    RecordsStay(w, n, t, q, id, |n.sessions[id].sent|);
  }

  lemma SealsNothing(w: World, n: Net, e: NetEvent)
    requires !e.Seal? && !e.AttackerSeals?
    ensures NetStep(w, n, e).oracle == n.oracle
  {
  }

  lemma StepRecords(w: World, n: Net, e: NetEvent)
    requires RecordsInv(w, n) && Keeps(w, n, NetStep(w, n, e)) && Possible(w, n, e)
    ensures RecordsInv(w, NetStep(w, n, e))
  {
    if e.Seal? {
      SealRecords(w, n, e.id, e.plain, e.ciphertext);
    } else if e.AttackerSeals? {
      RecordsStay(w, n, NetStep(w, n, e), e.query, 0, 0);
    } else {
      SealsNothing(w, n, e);
      SameRecords(w, n, NetStep(w, n, e));
    }
  }

  /** Opening a record under a key that the attacker does not know: it is the next record of the one session
      with the same six values on the other side. */
  lemma OpenedByPartner(w: World, n: Net, x: SessionId, frame: Bytes) returns (y: SessionId)
    requires Shaped(w, n) && RecordsInv(w, n) && x in n.sessions && n.sessions[x].parties.Some?
    requires Private(w, Secret(w.setups[x].role, n.sessions[x].parties.value))
    requires Open(n.oracle, ReceiveLane(w, w.setups[x].role, n.sessions[x].parties.value),
                  |n.sessions[x].received|, frame).Ok?
    ensures Partners(w, n, x, y) && |n.sessions[x].received| < |n.sessions[y].sent|
    ensures Open(n.oracle, ReceiveLane(w, w.setups[x].role, n.sessions[x].parties.value),
                 |n.sessions[x].received|, frame).value == n.sessions[y].sent[|n.sessions[x].received|]
  {
    var role, p := w.setups[x].role, n.sessions[x].parties.value;
    var lane, sequence := ReceiveLane(w, role, p), frame[1..HEADER_SIZE];
    var q := QueryFor(lane, sequence, frame[HEADER_SIZE..]);
    var id, k :| SealedBy(w, n, q, id, k);
    LanesMirror(w, w.setups[id].role, n.sessions[id].parties.value, role, p);
    SameRecordNumber(lane, sequence, k, |n.sessions[x].received|);
    y := id;
  }

  lemma SameRecordNumber(lane: Lane, sequence: Bytes, k: nat, expected: nat)
    requires k < U64_LIMIT && |sequence| == SEQUENCE_SIZE && FromBigEndian(sequence) == expected
    requires MakeAad(lane.direction, sequence, lane.transcript)
             == MakeAad(lane.direction, ToBigEndian(k, SEQUENCE_SIZE), lane.transcript)
    ensures k == expected
  {
    AadInjective(lane.direction, sequence, lane.transcript, lane.direction, ToBigEndian(k, SEQUENCE_SIZE), lane.transcript);
    SequenceBytes(k);
  }

  lemma OnePartner(w: World, n: Net, x: SessionId, y: SessionId, z: SessionId)
    requires Valid(w) && Shaped(w, n) && Partners(w, n, x, y) && Partners(w, n, x, z)
    ensures y == z
  {
    assert Owns(w.setups[y], n.sessions[x].parties.value) && Owns(w.setups[z], n.sessions[x].parties.value);
  }

  // Trust and delivery.

  lemma PartnersStay(w: World, n: Net, t: Net, x: SessionId, y: SessionId)
    requires Grows(n, t) && Partners(w, n, x, y)
    ensures Partners(w, t, x, y) && n.sessions[y].sent <= t.sessions[y].sent
  {
  }

  lemma TrustsStays(w: World, n: Net, t: Net, x: SessionId)
    requires Grows(n, t) && x in w.setups && x in n.sessions && Trusts(w, n, x)
    requires t.sessions[x].parties == n.sessions[x].parties
    ensures Trusts(w, t, x)
  {
    if n.sessions[x].parties.Some? && w.setups[x].pinned in w.honest {
      if w.setups[x].role == Client {
        var y :| Partners(w, n, x, y);
        PartnersStay(w, n, t, x, y);
      } else {
        var c :| Offered(w, n, c, n.sessions[x].parties.value);
        assert Offered(w, t, c, t.sessions[x].parties.value);
      }
    }
  }

  lemma DeliveredStays(w: World, n: Net, t: Net, x: SessionId)
    requires Grows(n, t) && x in w.setups && x in n.sessions && Delivered(w, n, x)
    requires t.sessions[x].received == n.sessions[x].received
    requires t.sessions[x].parties == n.sessions[x].parties || t.sessions[x].received == []
    ensures Delivered(w, t, x)
  {
    if t.sessions[x].received != [] && n.sessions[x].parties.Some?
       && Private(w, Secret(w.setups[x].role, n.sessions[x].parties.value)) {
      var y :| Partners(w, n, x, y) && n.sessions[x].received <= n.sessions[y].sent;
      PartnersStay(w, n, t, x, y);
    }
  }

  /** A client that accepts the hello of an honest pinned server: that server session has the same six values. */
  lemma ClientFindsServer(w: World, n: Net, x: SessionId, frame: Bytes) returns (y: SessionId)
    requires Valid(w) && Shaped(w, n) && SignaturesInv(w, n) && x in n.sessions && w.setups[x].role == Client
    requires AcceptServerHello(w, w.setups[x], n.signed, frame).Some? && w.setups[x].pinned in w.honest
    ensures y in n.sessions && w.setups[y].role == Server
    ensures n.sessions[y].parties == AcceptServerHello(w, w.setups[x], n.signed, frame)
  {
    var own, p := w.setups[x], AcceptServerHello(w, w.setups[x], n.signed, frame).value;
    HelloCanonical(SERVER_HELLO, SERVER_HELLO, frame);
    var hello := DecodeHello(SERVER_HELLO, frame).value;
    var entry := Signed(hello.identity, ServerSignatureMessage(p), hello.signature);
    assert entry in n.signed;
    y :| Made(w, n, entry, y);
    OnlyServersSign(w, n, entry, y, p);
  }

  lemma OnlyServersSign(w: World, n: Net, entry: Signed, y: SessionId, p: Parties)
    requires Valid(w) && Shaped(w, n) && Made(w, n, entry, y) && entry.message == ServerSignatureMessage(p)
    requires SizedParties(p)
    ensures w.setups[y].role == Server && n.sessions[y].parties == Some(p)
  {
    var maker := w.setups[y];
    if maker.role == Client {
      DomainsSeparated(maker.ephemeral, maker.identity, maker.nonce, maker.pinned, p, p);
      assert false;
    } else {
      assert Sane(maker, n.sessions[y]);
      TranscriptInjective(p, n.sessions[y].parties.value);
    }
  }

  /** A server that accepts the hello of an honest pinned client: that client session offered it. */
  lemma ServerFindsClient(w: World, n: Net, x: SessionId, frame: Bytes) returns (c: SessionId)
    requires SignaturesInv(w, n) && x in n.sessions && x in w.setups
    requires AcceptClientHello(w.setups[x], n.signed, frame).Some? && w.setups[x].pinned in w.honest
    ensures Offered(w, n, c, AcceptClientHello(w.setups[x], n.signed, frame).value)
  {
    var own, p := w.setups[x], AcceptClientHello(w.setups[x], n.signed, frame).value;
    var hello := DecodeHello(CLIENT_HELLO, frame).value;
    var message := ClientSignatureMessage(hello.ephemeral, hello.identity, hello.nonce, own.identity);
    var entry := Signed(hello.identity, message, hello.signature);
    assert entry in n.signed;
    c :| Made(w, n, entry, c);
    if w.setups[c].role == Server {
      var q := n.sessions[c].parties.value;
      DomainsSeparated(hello.ephemeral, hello.identity, hello.nonce, own.identity, q, q);
      assert false;
    }
  }

  // Assembly.

  /** Nothing about this session's knowledge has changed. */
  predicate Unmoved(n: Net, t: Net, x: SessionId) {
    && x in n.sessions && x in t.sessions
    && t.sessions[x].parties == n.sessions[x].parties && t.sessions[x].received == n.sessions[x].received
  }

  ghost predicate Knows(w: World, n: Net, x: SessionId)
    requires x in w.setups && x in n.sessions
  {
    Trusts(w, n, x) && Delivered(w, n, x)
  }

  lemma UnmovedKnows(w: World, n: Net, t: Net, x: SessionId)
    requires Grows(n, t) && x in w.setups && Unmoved(n, t, x) && Knows(w, n, x)
    ensures Knows(w, t, x)
  {
    TrustsStays(w, n, t, x);
    DeliveredStays(w, n, t, x);
  }

  lemma ClientHearsKnows(w: World, n: Net, id: SessionId, frame: Bytes)
    requires Valid(w) && Shaped(w, n) && SignaturesInv(w, n) && id in n.sessions && w.setups[id].role == Client
    requires n.sessions[id].stage == AwaitHello && Knows(w, n, id) && Keeps(w, n, ClientHears(w, n, id, frame))
    ensures Knows(w, ClientHears(w, n, id, frame), id)
  {
    var t := ClientHears(w, n, id, frame);
    assert Sane(w.setups[id], n.sessions[id]);
    if AcceptServerHello(w, w.setups[id], n.signed, frame).Some? && w.setups[id].pinned in w.honest {
      var y := ClientFindsServer(w, n, id, frame);
      assert Partners(w, t, id, y);
    }
  }

  lemma ServerHearsKnows(w: World, n: Net, id: SessionId, frame: Bytes, signature: Bytes)
    requires Valid(w) && Shaped(w, n) && SignaturesInv(w, n) && id in n.sessions && w.setups[id].role == Server
    requires n.sessions[id].stage == AwaitHello && Knows(w, n, id)
    requires Keeps(w, n, ServerHears(w, n, id, frame, signature))
    ensures Knows(w, ServerHears(w, n, id, frame, signature), id)
  {
    var t := ServerHears(w, n, id, frame, signature);
    assert Sane(w.setups[id], n.sessions[id]);
    if AcceptClientHello(w.setups[id], n.signed, frame).Some? && w.setups[id].pinned in w.honest {
      var c := ServerFindsClient(w, n, id, frame);
      assert Offered(w, t, c, t.sessions[id].parties.value);
    }
  }

  lemma OneMore(received: seq<Bytes>, sent: seq<Bytes>, plain: Bytes)
    requires received <= sent && |received| < |sent| && plain == sent[|received|]
    ensures received + [plain] <= sent
  {
  }

  lemma DeliveredFrom(w: World, n: Net, x: SessionId, y: SessionId)
    requires Valid(w) && Shaped(w, n) && Partners(w, n, x, y) && Delivered(w, n, x)
    requires Private(w, Secret(w.setups[x].role, n.sessions[x].parties.value))
    ensures n.sessions[x].received <= n.sessions[y].sent
  {
    if n.sessions[x].received != [] {
      var z :| Partners(w, n, x, z) && n.sessions[x].received <= n.sessions[z].sent;
      OnePartner(w, n, x, y, z);
    }
  }

  lemma OpenedDelivered(w: World, n: Net, id: SessionId, frame: Bytes)
    requires Valid(w) && Shaped(w, n) && RecordsInv(w, n) && id in n.sessions && n.sessions[id].parties.Some?
    requires Delivered(w, n, id) && Grows(n, Opened(w, n, id, frame))
    ensures Delivered(w, Opened(w, n, id, frame), id)
  {
    hide Open, ReceiveLane, RecordsInv;
    var t, role, s := Opened(w, n, id, frame), w.setups[id].role, n.sessions[id];
    var r := Open(n.oracle, ReceiveLane(w, role, s.parties.value), |s.received|, frame);
    if r.Err? {
      DeliveredStays(w, n, t, id);
    } else if Private(w, Secret(role, s.parties.value)) {
      var y := OpenedByPartner(w, n, id, frame);
      DeliveredFrom(w, n, id, y);
      OneMore(s.received, n.sessions[y].sent, r.value);
      PartnersStay(w, n, t, id, y);
    }
  }

  lemma OpenedKnows(w: World, n: Net, id: SessionId, frame: Bytes)
    requires Valid(w) && Shaped(w, n) && RecordsInv(w, n) && id in n.sessions && n.sessions[id].parties.Some?
    requires Knows(w, n, id) && Grows(n, Opened(w, n, id, frame))
    ensures Knows(w, Opened(w, n, id, frame), id)
  {
    TrustsStays(w, n, Opened(w, n, id, frame), id);
    OpenedDelivered(w, n, id, frame);
  }

  lemma DeliverKnows(w: World, n: Net, e: NetEvent)
    requires Valid(w) && Shaped(w, n) && SignaturesInv(w, n) && RecordsInv(w, n)
    requires e.Deliver? && Possible(w, n, e) && Keeps(w, n, NetStep(w, n, e)) && Knows(w, n, e.id)
    ensures Knows(w, NetStep(w, n, e), e.id)
  {
    if n.sessions[e.id].stage != AwaitHello {
      OpenedKnows(w, n, e.id, e.frame);
    } else if w.setups[e.id].role == Client {
      ClientHearsKnows(w, n, e.id, e.frame);
    } else {
      ServerHearsKnows(w, n, e.id, e.frame, e.signature);
    }
  }

  lemma OthersUnmoved(w: World, n: Net, e: NetEvent, x: SessionId)
    requires x in n.sessions && (e.Deliver? ==> e.id != x)
    ensures Unmoved(n, NetStep(w, n, e), x)
  {
  }

  /** The invariant survives every event. */
  lemma NetStepInv(w: World, n: Net, e: NetEvent)
    requires Valid(w) && NetInv(w, n)
    ensures NetInv(w, NetStep(w, n, e))
  {
    var t := NetStep(w, n, e);
    if Possible(w, n, e) {
      StepKeeps(w, n, e);
      StepSignatures(w, n, e);
      StepRecords(w, n, e);
      forall x | x in t.sessions ensures Knows(w, t, x) {
        assert Knows(w, n, x);
        if e.Deliver? && e.id == x {
          DeliverKnows(w, n, e);
        } else {
          OthersUnmoved(w, n, e, x);
          UnmovedKnows(w, n, t, x);
        }
      }
    }
  }

  lemma {:induction false} NetRunInv(w: World, es: seq<NetEvent>)
    requires Valid(w)
    ensures NetInv(w, NetRun(w, es))
  {
    if es != [] {
      NetRunInv(w, es[..|es| - 1]);
      NetStepInv(w, NetRun(w, es[..|es| - 1]), es[|es| - 1]);
    }
  }

  // ------------------------------------------------------------------ theorems

  lemma PrivatePair(w: World, i: SessionId, j: SessionId)
    requires i in w.setups && j in w.setups
    ensures Private(w, DiffieHellman(w.setups[i].ephemeral, w.setups[j].ephemeral))
  {
  }

  /** With an honest pinned peer, the attacker does not know the agreed secret. */
  lemma TrustedIsPrivate(w: World, n: Net, x: SessionId)
    requires Shaped(w, n) && x in n.sessions && Trusts(w, n, x) && n.sessions[x].parties.Some?
    requires w.setups[x].pinned in w.honest && Valid(w)
    ensures Private(w, Secret(w.setups[x].role, n.sessions[x].parties.value))
  {
    if w.setups[x].role == Client {
      var y :| Partners(w, n, x, y);
      assert Sane(w.setups[x], n.sessions[x]) && Sane(w.setups[y], n.sessions[y]);
      PrivatePair(w, x, y);
    } else {
      var c :| Offered(w, n, c, n.sessions[x].parties.value);
      assert Sane(w.setups[x], n.sessions[x]);
      OfferedFields(w, n, c, n.sessions[x].parties.value);
      PrivatePair(w, x, c);
    }
  }

  lemma OfferedFields(w: World, n: Net, c: SessionId, p: Parties)
    requires Valid(w) && Offered(w, n, c, p) && SizedParties(p)
    ensures w.setups[c].ephemeral == p.clientEphemeral && w.setups[c].identity == p.clientIdentity
    ensures w.setups[c].nonce == p.clientNonce && w.setups[c].pinned == p.serverIdentity
  {
    var hello := w.setups[c];
    ClientSignatureInjective(hello.ephemeral, hello.identity, hello.nonce, hello.pinned,
                             p.clientEphemeral, p.clientIdentity, p.clientNonce, p.serverIdentity);
  }

  /**
   Matching handshakes, client side. A client session that has accepted the confirmation of an honest
   pinned server has exactly one partner: a server session of that identity with the same two identities,
   ephemerals and nonces, hence with mirrored keys, which has sent SERVER_FINISHED.
   */
  lemma ClientMatches(w: World, es: seq<NetEvent>, x: SessionId) returns (y: SessionId)
    requires Valid(w) && x in w.setups && x in NetRun(w, es).sessions
    requires w.setups[x].role == Client && w.setups[x].pinned in w.honest
    requires NetRun(w, es).sessions[x].stage == Established
    ensures var n := NetRun(w, es);
      && Partners(w, n, x, y) && w.setups[y].identity == w.setups[x].pinned
      && (forall z :: Partners(w, n, x, z) ==> z == y)
      && n.sessions[y].sent != [] && n.sessions[y].sent[0] == SERVER_FINISHED
      && n.sessions[x].received <= n.sessions[y].sent
      && SendLane(w, Client, n.sessions[x].parties.value) == ReceiveLane(w, Server, n.sessions[y].parties.value)
      && ReceiveLane(w, Client, n.sessions[x].parties.value) == SendLane(w, Server, n.sessions[y].parties.value)
  {
    NetRunInv(w, es);
    y := ConfirmedPartner(w, NetRun(w, es), x);
    LanesMirror(w, Client, NetRun(w, es).sessions[x].parties.value, Client, NetRun(w, es).sessions[x].parties.value);
    LanesMirror(w, Server, NetRun(w, es).sessions[x].parties.value, Server, NetRun(w, es).sessions[x].parties.value);
  }

  lemma ConfirmedPartner(w: World, n: Net, x: SessionId) returns (y: SessionId)
    requires Valid(w) && NetInv(w, n) && x in n.sessions && w.setups[x].pinned in w.honest
    requires n.sessions[x].parties.Some? && n.sessions[x].received != []
    ensures Partners(w, n, x, y) && n.sessions[x].received <= n.sessions[y].sent
    ensures forall z :: Partners(w, n, x, z) ==> z == y
    ensures w.setups[y].identity == w.setups[x].pinned
  {
    TrustedIsPrivate(w, n, x);
    assert Delivered(w, n, x);
    y :| Partners(w, n, x, y) && n.sessions[x].received <= n.sessions[y].sent;
    assert Owns(w.setups[x], n.sessions[x].parties.value) && Owns(w.setups[y], n.sessions[x].parties.value);
    forall z | Partners(w, n, x, z) ensures z == y {
      OnePartner(w, n, x, y, z);
    }
  }

  /**
   Matching handshakes, server side. A server session that is established with an honest pinned client has
   exactly one partner: a client session of that identity with the same six values and mirrored keys, which
   has accepted SERVER_FINISHED and then sent CLIENT_FINISHED.
   */
  lemma ServerMatches(w: World, es: seq<NetEvent>, x: SessionId) returns (y: SessionId)
    requires Valid(w) && x in w.setups && x in NetRun(w, es).sessions
    requires w.setups[x].role == Server && w.setups[x].pinned in w.honest
    requires NetRun(w, es).sessions[x].stage == Established
    ensures var n := NetRun(w, es);
      && Partners(w, n, x, y) && w.setups[y].identity == w.setups[x].pinned
      && (forall z :: Partners(w, n, x, z) ==> z == y)
      && n.sessions[y].received != [] && n.sessions[y].received[0] == SERVER_FINISHED
      && n.sessions[y].sent != [] && n.sessions[y].sent[0] == CLIENT_FINISHED
      && n.sessions[x].received <= n.sessions[y].sent
      && SendLane(w, Server, n.sessions[x].parties.value) == ReceiveLane(w, Client, n.sessions[y].parties.value)
      && ReceiveLane(w, Server, n.sessions[x].parties.value) == SendLane(w, Client, n.sessions[y].parties.value)
  {
    NetRunInv(w, es);
    y := ConfirmedPartner(w, NetRun(w, es), x);
    assert Sane(w.setups[y], NetRun(w, es).sessions[y]);
    LanesMirror(w, Client, NetRun(w, es).sessions[x].parties.value, Client, NetRun(w, es).sessions[x].parties.value);
    LanesMirror(w, Server, NetRun(w, es).sessions[x].parties.value, Server, NetRun(w, es).sessions[x].parties.value);
  }

  /**
   What the record layer assumes of its cipher holds in every run of the network: everything that opens in
   the receive direction of a session with an honest pinned peer was sealed by its one partner as the record
   of that number, or nothing opens at all.
   */
  lemma LaneIsHonest(w: World, es: seq<NetEvent>, x: SessionId)
    requires Valid(w) && x in w.setups && x in NetRun(w, es).sessions && w.setups[x].pinned in w.honest
    requires NetRun(w, es).sessions[x].parties.Some?
    ensures var n := NetRun(w, es); var lane := ReceiveLane(w, w.setups[x].role, n.sessions[x].parties.value);
      if exists y :: Partners(w, n, x, y) then exists y :: Partners(w, n, x, y) && Honest(n.oracle, lane, n.sessions[y].sent)
      else Honest(n.oracle, lane, [])
  {
    var n := NetRun(w, es);
    NetRunInv(w, es);
    TrustedIsPrivate(w, n, x);
    var lane := ReceiveLane(w, w.setups[x].role, n.sessions[x].parties.value);
    if y :| Partners(w, n, x, y) {
      PartnerIsHonest(w, n, x, y);
    } else {
      forall q, k: nat | q in n.oracle && k < U64_LIMIT && OpensAt(q, lane, k) ensures false {
        var id, i := EntryOfPartner(w, n, x, q, k);
      }
    }
  }

  lemma EntryOfPartner(w: World, n: Net, x: SessionId, q: Query, k: nat) returns (y: SessionId, i: nat)
    requires NetInv(w, n) && x in n.sessions && n.sessions[x].parties.Some? && k < U64_LIMIT && q in n.oracle
    requires Private(w, Secret(w.setups[x].role, n.sessions[x].parties.value))
    requires OpensAt(q, ReceiveLane(w, w.setups[x].role, n.sessions[x].parties.value), k)
    ensures Partners(w, n, x, y) && i == k < |n.sessions[y].sent| && n.oracle[q] == n.sessions[y].sent[k]
  {
    var role, p := w.setups[x].role, n.sessions[x].parties.value;
    y, i :| SealedBy(w, n, q, y, i);
    LanesMirror(w, w.setups[y].role, n.sessions[y].parties.value, role, p);
    SameSequence(ReceiveLane(w, role, p), ReceiveLane(w, role, p), k, i);
  }

  lemma PartnerIsHonest(w: World, n: Net, x: SessionId, y: SessionId)
    requires Valid(w) && NetInv(w, n) && x in n.sessions && n.sessions[x].parties.Some? && Partners(w, n, x, y)
    requires Private(w, Secret(w.setups[x].role, n.sessions[x].parties.value))
    ensures Honest(n.oracle, ReceiveLane(w, w.setups[x].role, n.sessions[x].parties.value), n.sessions[y].sent)
  {
    var lane := ReceiveLane(w, w.setups[x].role, n.sessions[x].parties.value);
    forall q, k: nat | q in n.oracle && k < U64_LIMIT && OpensAt(q, lane, k)
      ensures k < |n.sessions[y].sent| && n.oracle[q] == n.sessions[y].sent[k]
    {
      var z, i := EntryOfPartner(w, n, x, q, k);
      OnePartner(w, n, x, y, z);
    }
  }

  // ------------------------------------------------------------------ refusals

  /** The ephemeral that a session got from its peer. */
  function PeerEphemeral(own: Setup, p: Parties): Bytes {
    if own.role == Client then p.serverEphemeral else p.clientEphemeral
  }

  predicate Contributed(w: World, n: Net, x: SessionId) {
    x in w.setups && x in n.sessions && Keyed(n.sessions[x]) && n.sessions[x].parties.Some? ==>
      PeerEphemeral(w.setups[x], n.sessions[x].parties.value) !in w.lowOrder
  }

  lemma DeliverContributed(w: World, n: Net, e: NetEvent)
    requires e.Deliver? && Possible(w, n, e) && Contributed(w, n, e.id)
    ensures Contributed(w, NetStep(w, n, e), e.id)
  {
    hide Open;
  }

  lemma StepContributed(w: World, n: Net, e: NetEvent, x: SessionId)
    requires Contributed(w, n, x)
    ensures Contributed(w, NetStep(w, n, e), x)
  {
    hide Opened, ClientHears, ServerHears;
    if Possible(w, n, e) {
      if e.Deliver? {
        if e.id == x {
          DeliverContributed(w, n, e);
        } else {
          DeliverMovesOne(w, n, e, x);
        }
      }
    }
  }

  lemma DeliverMovesOne(w: World, n: Net, e: NetEvent, x: SessionId)
    requires e.Deliver? && Possible(w, n, e) && e.id != x
    ensures var t := NetStep(w, n, e); (x in t.sessions <==> x in n.sessions) && (x in n.sessions ==> t.sessions[x] == n.sessions[x])
  {
  }

  /** No session that has keys, on either side, got them from a low-order ephemeral of its peer. */
  lemma LowOrderIsRefused(w: World, es: seq<NetEvent>, x: SessionId)
    requires x in w.setups && x in NetRun(w, es).sessions && Keyed(NetRun(w, es).sessions[x])
    requires NetRun(w, es).sessions[x].parties.Some?
    ensures PeerEphemeral(w.setups[x], NetRun(w, es).sessions[x].parties.value) !in w.lowOrder
  {
    ContributedRun(w, es, x);
  }

  lemma {:induction false} ContributedRun(w: World, es: seq<NetEvent>, x: SessionId)
    ensures Contributed(w, NetRun(w, es), x)
  {
    hide NetStep, Contributed;
    if es == [] {
      assert Contributed(w, StartNet(w), x) by { StartContributed(w, x); }
    } else {
      ContributedRun(w, es[..|es| - 1], x);
      StepContributed(w, NetRun(w, es[..|es| - 1]), es[|es| - 1], x);
    }
  }

  lemma StartContributed(w: World, x: SessionId)
    ensures Contributed(w, StartNet(w), x)
  {
  }

  predicate HasFailed(n: Net, x: SessionId) {
    x in n.sessions && n.sessions[x].stage == Failed
  }

  lemma FailedStep(w: World, n: Net, e: NetEvent, x: SessionId)
    requires HasFailed(n, x)
    ensures HasFailed(NetStep(w, n, e), x) && NetStep(w, n, e).sessions[x].sent == n.sessions[x].sent
    ensures NetStep(w, n, e).sessions[x].received == n.sessions[x].received
  {
    hide Opened, ClientHears, ServerHears;
    if Possible(w, n, e) && e.Deliver? {
      DeliverMovesOne(w, n, e, x);
    }
  }

  lemma NetRunSnoc(w: World, es: seq<NetEvent>, e: NetEvent)
    ensures NetRun(w, es + [e]) == NetStep(w, NetRun(w, es), e)
  {
    assert (es + [e])[..|es|] == es;
  }

  lemma {:induction false} FailedStays(w: World, es: seq<NetEvent>, more: seq<NetEvent>, x: SessionId)
    requires HasFailed(NetRun(w, es), x)
    ensures var n, t := NetRun(w, es), NetRun(w, es + more);
      HasFailed(t, x) && t.sessions[x].sent == n.sessions[x].sent && t.sessions[x].received == n.sessions[x].received
  {
    hide NetStep;
    if more == [] {
      assert es + more == es;
    } else {
      FailedStays(w, es, more[..|more| - 1], x);
      assert (es + more)[..|es + more| - 1] == es + more[..|more| - 1];
      FailedStep(w, NetRun(w, es + more[..|more| - 1]), more[|more| - 1], x);
    }
  }

  /** What the arrival of this frame would mean for a session in its handshake: a hello that is not accepted, or a
      record that does not open as the peer's confirmation. */
  predicate Unacceptable(w: World, n: Net, x: SessionId, frame: Bytes)
    requires x in w.setups && x in n.sessions
  {
    var s, own := n.sessions[x], w.setups[x];
    if s.stage == AwaitHello then
      if own.role == Client then AcceptServerHello(w, own, n.signed, frame).None?
      else match AcceptClientHello(own, n.signed, frame)
           case None => true
           case Some(p) => p.clientEphemeral in w.lowOrder
    else
      && s.stage == AwaitFinished && s.parties.Some?
      && (match Open(n.oracle, ReceiveLane(w, own.role, s.parties.value), |s.received|, frame)
          case Err(_) => true
          case Ok(plain) => plain != (if own.role == Client then SERVER_FINISHED else CLIENT_FINISHED))
  }

  lemma RefusalFails(w: World, n: Net, x: SessionId, frame: Bytes, signature: Bytes)
    requires x in w.setups && x in n.sessions && Unacceptable(w, n, x, frame)
    ensures HasFailed(NetStep(w, n, Deliver(x, frame, signature)), x)
  {
    hide Open, AcceptServerHello, AcceptClientHello;
  }

  /**
   A refused handshake is over. A frame that is not an acceptable hello, or does not open as the peer's
   confirmation, ends the handshake of whoever receives it, and so does giving up: the session seals and opens
   nothing more, and never becomes established.
   */
  lemma RefusedForGood(w: World, es: seq<NetEvent>, x: SessionId, e: NetEvent, more: seq<NetEvent>)
    requires x in w.setups && x in NetRun(w, es).sessions
    requires e == Abort(x) || (e.Deliver? && e.id == x && Unacceptable(w, NetRun(w, es), x, e.frame))
    ensures var n, t := NetRun(w, es + [e]), NetRun(w, es + [e] + more);
      HasFailed(t, x) && t.sessions[x].sent == n.sessions[x].sent && t.sessions[x].received == n.sessions[x].received
  {
    hide NetRun, NetStep, Unacceptable;
    NetRunSnoc(w, es, e);
    if e.Deliver? {
      RefusalFails(w, NetRun(w, es), x, e.frame, e.signature);
    } else {
      AbortFails(w, NetRun(w, es), x);
    }
    FailedStays(w, es + [e], more, x);
  }

  lemma AbortFails(w: World, n: Net, x: SessionId)
    requires x in n.sessions
    ensures HasFailed(NetStep(w, n, Abort(x)), x)
  {
  }

  /** An established session survives whatever does not open: the frame changes nothing. */
  lemma EstablishedSurvives(w: World, es: seq<NetEvent>, x: SessionId, frame: Bytes, signature: Bytes)
    requires x in w.setups && x in NetRun(w, es).sessions
    requires var n := NetRun(w, es);
      && n.sessions[x].stage == Established && n.sessions[x].parties.Some?
      && Open(n.oracle, ReceiveLane(w, w.setups[x].role, n.sessions[x].parties.value), |n.sessions[x].received|, frame).Err?
    ensures NetRun(w, es + [Deliver(x, frame, signature)]) == NetRun(w, es)
  {
    hide Open;
    NetRunSnoc(w, es, Deliver(x, frame, signature));
  }

  // ------------------------------------------------------------------ what can happen

  /**
   The attacker is free. It signs anything with any identity that is not honest, puts any record under any key
   whose secret involves an ephemeral of no honest session, and any frame may arrive at any session that waits
   for one.
   */
  lemma AttackerIsFree(w: World, es: seq<NetEvent>, entry: Signed, query: Query, plain: Bytes, x: SessionId,
                       frame: Bytes, signature: Bytes)
    ensures entry.identity !in w.honest ==> entry in NetRun(w, es + [AttackerSigns(entry)]).signed
    ensures !Private(w, query.key.secret) && query !in NetRun(w, es).oracle ==>
      query in NetRun(w, es + [AttackerSeals(query, plain)]).oracle
      && NetRun(w, es + [AttackerSeals(query, plain)]).oracle[query] == plain
    ensures x in w.setups && x in NetRun(w, es).sessions && NetRun(w, es).sessions[x].stage == AwaitHello ==>
      Possible(w, NetRun(w, es), Deliver(x, frame, signature))
  {
    hide Private;
    NetRunSnoc(w, es, AttackerSigns(entry));
    NetRunSnoc(w, es, AttackerSeals(query, plain));
  }

  lemma SealedOpens(w: World, n: Net, x: SessionId, y: SessionId, plain: Bytes, ciphertext: Bytes, signature: Bytes)
    requires Valid(w) && Shaped(w, n) && Partners(w, n, x, y)
    requires n.sessions[x].stage == Established && n.sessions[y].stage == Established
    requires |n.sessions[x].received| == |n.sessions[y].sent| && |n.sessions[y].sent| + 1 < U64_LIMIT
    requires |ciphertext| >= TAG_SIZE && NextQuery(w, n, y, ciphertext) !in n.oracle
    ensures var t := NetStep(w, n, Seal(y, plain, ciphertext));
      var u := NetStep(w, t, Deliver(x, Body(|n.sessions[y].sent|, ciphertext), signature));
      && y in u.sessions && u.sessions[y].sent == n.sessions[y].sent + [plain]
      && x in u.sessions && u.sessions[x].received == n.sessions[x].received + [plain]
      && u.sessions[x].stage == Established
  {
    hide NetStep, Open, Body, NextQuery, ReceiveLane, Shaped;
    var k := |n.sessions[y].sent|;
    SealStep(w, n, x, y, plain, ciphertext);
    var t := NetStep(w, n, Seal(y, plain, ciphertext));
    OpenSealed(t.oracle, ReceiveLane(w, w.setups[x].role, n.sessions[x].parties.value), k, k, plain, ciphertext);
    OpenStep(w, t, x, y, Body(k, ciphertext), plain, signature);
  }

  lemma SealStep(w: World, n: Net, x: SessionId, y: SessionId, plain: Bytes, ciphertext: Bytes)
    requires Shaped(w, n) && Partners(w, n, x, y) && n.sessions[y].stage == Established
    requires |n.sessions[y].sent| + 1 < U64_LIMIT && NextQuery(w, n, y, ciphertext) !in n.oracle
    ensures var t := NetStep(w, n, Seal(y, plain, ciphertext));
      var query := QueryFor(ReceiveLane(w, w.setups[x].role, n.sessions[x].parties.value),
                            ToBigEndian(|n.sessions[y].sent|, SEQUENCE_SIZE), ciphertext);
      && query in t.oracle && t.oracle[query] == plain && x != y
      && x in t.sessions && t.sessions[x] == n.sessions[x]
      && y in t.sessions && t.sessions[y].sent == n.sessions[y].sent + [plain]
  {
    var p := n.sessions[x].parties.value;
    LanesMirror(w, w.setups[y].role, p, w.setups[x].role, p);
  }

  lemma OpenStep(w: World, n: Net, x: SessionId, y: SessionId, frame: Bytes, plain: Bytes, signature: Bytes)
    requires x in w.setups && x in n.sessions && n.sessions[x].stage == Established && n.sessions[x].parties.Some?
    requires x != y && y in n.sessions
    requires Open(n.oracle, ReceiveLane(w, w.setups[x].role, n.sessions[x].parties.value), |n.sessions[x].received|, frame)
             == Ok(plain)
    ensures var u := NetStep(w, n, Deliver(x, frame, signature));
      && x in u.sessions && u.sessions[x].received == n.sessions[x].received + [plain]
      && u.sessions[x].stage == Established && y in u.sessions && u.sessions[y] == n.sessions[y]
  {
    hide Open;
  }

  /** Two established partners exchange records: what one seals next, the other opens next, and stays
      established. */
  lemma RecordsGetThrough(w: World, es: seq<NetEvent>, x: SessionId, y: SessionId, plain: Bytes, ciphertext: Bytes,
                          signature: Bytes)
    requires Valid(w) && Partners(w, NetRun(w, es), x, y)
    requires var n := NetRun(w, es);
      && n.sessions[x].stage == Established && n.sessions[y].stage == Established
      && |n.sessions[x].received| == |n.sessions[y].sent| && |n.sessions[y].sent| + 1 < U64_LIMIT
      && |ciphertext| >= TAG_SIZE && NextQuery(w, n, y, ciphertext) !in n.oracle
    ensures var n := NetRun(w, es);
      var frame := Body(|n.sessions[y].sent|, ciphertext);
      var u := NetRun(w, es + [Seal(y, plain, ciphertext)] + [Deliver(x, frame, signature)]);
      && y in u.sessions && u.sessions[y].sent == n.sessions[y].sent + [plain]
      && x in u.sessions && u.sessions[x].received == n.sessions[x].received + [plain]
      && u.sessions[x].stage == Established
  {
    hide NetRun, NetStep, NextQuery, NetInv;
    NetRunInv(w, es);
    var n := NetRun(w, es);
    assert Shaped(w, n) by { InvShaped(w, n); }
    SealedOpens(w, n, x, y, plain, ciphertext, signature);
    NetRunSnoc(w, es, Seal(y, plain, ciphertext));
    NetRunSnoc(w, es + [Seal(y, plain, ciphertext)], Deliver(x, Body(|n.sessions[y].sent|, ciphertext), signature));
  }

  lemma InvShaped(w: World, n: Net)
    requires NetInv(w, n)
    ensures Shaped(w, n)
  {
  }
}
