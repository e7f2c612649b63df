/**
 The honest handshake over two bounded pipes. Each endpoint runs its own program: write a frame, read a
 four-byte length and then a body, check what arrived, answer. Every write puts any part of the rest that
 fits on the pipe, every read takes any part of what is there, and the two endpoints interleave freely.
 Capacity one is enough.
 */
module HandshakeProgress {
  import opened ByteStrings
  import opened Wrappers
  import opened Protocol
  import opened Framing
  import opened SecureRecords
  import opened Handshake

  const CLIENT: SessionId := 0
  const SERVER: SessionId := 1

  /** The random and cryptographic outputs of the run, and the capacity of each pipe. */
  datatype Plan = Plan(
    w: World,
    clientSignature: Bytes,
    serverSignature: Bytes,
    clientSealed: Bytes,
    serverSealed: Bytes,
    capacity: nat)

  /** Two endpoints that pin each other. */
  predicate Paired(plan: Plan) {
    && Valid(plan.w) && plan.w.setups.Keys == {CLIENT, SERVER}
    && plan.w.setups[CLIENT].role == Client && plan.w.setups[SERVER].role == Server
    && plan.w.setups[CLIENT].pinned == plan.w.setups[SERVER].identity
    && plan.w.setups[SERVER].pinned == plan.w.setups[CLIENT].identity
    && |plan.clientSignature| == SIGNATURE_SIZE && |plan.serverSignature| == SIGNATURE_SIZE
    && |plan.clientSealed| == |CLIENT_FINISHED| + TAG_SIZE && |plan.serverSealed| == |SERVER_FINISHED| + TAG_SIZE
    && plan.capacity > 0
  }

  /** What an endpoint is waiting for. */
  datatype Io =
    | Writing(rest: Bytes)
    | ReadingLength(buffer: Bytes)
    | ReadingBody(size: nat, buffer: Bytes)
    | Done
    | Dead

  datatype Exchange = Exchange(net: Net, client: Io, server: Io, up: Bytes, down: Bytes)

  /** One write or read by an endpoint that moves `count` bytes. */
  datatype Move = Move(id: SessionId, count: nat)

  // ------------------------------------------------------------------ the frames

  function HelloOf(own: Setup, signature: Bytes): Hello {
    Hello(own.ephemeral, own.identity, own.nonce, signature)
  }

  function ClientHello(plan: Plan): Bytes
    requires Paired(plan)
  {
    EncodeHello(CLIENT_HELLO, HelloOf(plan.w.setups[CLIENT], plan.clientSignature))
  }

  function ServerHello(plan: Plan): Bytes
    requires Paired(plan)
  {
    EncodeHello(SERVER_HELLO, HelloOf(plan.w.setups[SERVER], plan.serverSignature))
  }

  // ------------------------------------------------------------------ the endpoints' programs

  /** The confirmation is sealed and its frame submitted. */
  function Confirm(plan: Plan, net: Net, id: SessionId): (Net, Io) {
    var plain, ciphertext := if id == CLIENT then CLIENT_FINISHED else SERVER_FINISHED,
                             if id == CLIENT then plan.clientSealed else plan.serverSealed;
    (NetStep(plan.w, net, Seal(id, plain, ciphertext)), Writing(EncodeFrame(Body(0, ciphertext))))
  }

  /** What follows a complete write. */
  function AfterWrite(plan: Plan, net: Net, id: SessionId): (Net, Io)
    requires id in net.sessions
  {
    match net.sessions[id].stage
    case AwaitHello => (net, ReadingLength([]))
    case SendFinished => Confirm(plan, net, id)
    case AwaitFinished => (net, ReadingLength([]))
    case Established => (net, Done)
    case _ => (net, Dead)
  }

  /** What follows a complete frame. */
  function AfterFrame(plan: Plan, net: Net, id: SessionId, frame: Bytes): (Net, Io)
    requires Paired(plan)
  {
    var next := NetStep(plan.w, net, Deliver(id, frame, plan.serverSignature));
    if id !in next.sessions then (next, Dead)
    else
      match next.sessions[id].stage
      case AwaitFinished => (next, ReadingLength([]))
      case SendFinished =>
        if id == CLIENT then Confirm(plan, next, id) else (next, Writing(EncodeFrame(ServerHello(plan))))
      case Established => (next, Done)
      case _ => (next, Dead)
  }

  function AfterRead(plan: Plan, net: Net, id: SessionId, io: Io, chunk: Bytes): (Net, Io)
    requires Paired(plan)
  {
    match io
    case ReadingLength(buffer) =>
      if |buffer + chunk| < FRAME_LENGTH_SIZE then (net, ReadingLength(buffer + chunk))
      else
        var size := FromBigEndian(buffer + chunk);
        if size == 0 || size > MAX_FRAME_SIZE then (net, Dead) else (net, ReadingBody(size, []))
    case ReadingBody(size, buffer) =>
      if |buffer + chunk| < size then (net, ReadingBody(size, buffer + chunk))
      else AfterFrame(plan, net, id, buffer + chunk)
    case _ => (net, io)
  }

  function Wanted(io: Io): int {
    match io
    case ReadingLength(buffer) => FRAME_LENGTH_SIZE - |buffer|
    case ReadingBody(size, buffer) => size - |buffer|
    case _ => 0
  }

  /** What follows a write of `count` bytes. */
  function Written(plan: Plan, net: Net, id: SessionId, rest: Bytes, count: nat): (Net, Io)
    requires id in net.sessions && count <= |rest|
  {
    if count == |rest| then AfterWrite(plan, net, id) else (net, Writing(rest[count..]))
  }

  /** The new net, the new point of the endpoint, and the new contents of its two pipes. */
  function EndpointMove(plan: Plan, net: Net, id: SessionId, io: Io, count: nat, into: Bytes, from: Bytes)
    : (Net, Io, Bytes, Bytes)
    requires Paired(plan) && id in net.sessions
  {
    if io.Writing? && 0 < count <= |io.rest| && |into| + count <= plan.capacity then
      var after := Written(plan, net, id, io.rest, count);
      (after.0, after.1, into + io.rest[..count], from)
    else if 0 < count <= Wanted(io) && count <= |from| then
      var after := AfterRead(plan, net, id, io, from[..count]);
      (after.0, after.1, into, from[count..])
    else (net, io, into, from)
  }

  function ExchangeStep(plan: Plan, x: Exchange, m: Move): Exchange
    requires Paired(plan)
  {
    if m.id == CLIENT && CLIENT in x.net.sessions then
      var r := EndpointMove(plan, x.net, CLIENT, x.client, m.count, x.up, x.down);
      Exchange(r.0, r.1, x.server, r.2, r.3)
    else if m.id == SERVER && SERVER in x.net.sessions then
      var r := EndpointMove(plan, x.net, SERVER, x.server, m.count, x.down, x.up);
      Exchange(r.0, x.client, r.1, r.3, r.2)
    else x
  }

  function StartExchange(plan: Plan): Exchange
    requires Paired(plan)
  {
    var started := NetStep(plan.w, StartNet(plan.w), Start(CLIENT, plan.clientSignature));
    Exchange(NetStep(plan.w, started, Start(SERVER, [])), Writing(EncodeFrame(ClientHello(plan))), ReadingLength([]), [], [])
  }

  function ExchangeRun(plan: Plan, ms: seq<Move>): Exchange
    requires Paired(plan)
  {
    if ms == [] then StartExchange(plan)
    else ExchangeStep(plan, ExchangeRun(plan, ms[..|ms| - 1]), ms[|ms| - 1])
  }

  // ------------------------------------------------------------------ the net at each stage

  function TheParties(plan: Plan): Parties
    requires Paired(plan)
  {
    var c, s := plan.w.setups[CLIENT], plan.w.setups[SERVER];
    Parties(c.ephemeral, c.identity, c.nonce, s.ephemeral, s.identity, s.nonce)
  }

  function ClientAt(plan: Plan, stage: Stage): Session
    requires Paired(plan)
  {
    match stage
    case AwaitFinished => Session(AwaitFinished, Some(TheParties(plan)), [], [])
    case SendFinished => Session(SendFinished, Some(TheParties(plan)), [], [SERVER_FINISHED])
    case Established => Session(Established, Some(TheParties(plan)), [CLIENT_FINISHED], [SERVER_FINISHED])
    case _ => Session(AwaitHello, None, [], [])
  }

  function ServerAt(plan: Plan, stage: Stage): Session
    requires Paired(plan)
  {
    match stage
    case SendFinished => Session(SendFinished, Some(TheParties(plan)), [], [])
    case AwaitFinished => Session(AwaitFinished, Some(TheParties(plan)), [SERVER_FINISHED], [])
    case Established => Session(Established, Some(TheParties(plan)), [SERVER_FINISHED], [CLIENT_FINISHED])
    case _ => Session(AwaitHello, None, [], [])
  }

  function ClientSigned(plan: Plan): Signed
    requires Paired(plan)
  {
    Signed(plan.w.setups[CLIENT].identity, OwnHello(plan.w.setups[CLIENT]), plan.clientSignature)
  }

  function ServerSigned(plan: Plan): Signed
    requires Paired(plan)
  {
    Signed(plan.w.setups[SERVER].identity, ServerSignatureMessage(TheParties(plan)), plan.serverSignature)
  }

  function ClientQuery(plan: Plan): Query
    requires Paired(plan)
  {
    QueryFor(SendLane(plan.w, Client, TheParties(plan)), ToBigEndian(0, SEQUENCE_SIZE), plan.clientSealed)
  }

  function ServerQuery(plan: Plan): Query
    requires Paired(plan)
  {
    QueryFor(SendLane(plan.w, Server, TheParties(plan)), ToBigEndian(0, SEQUENCE_SIZE), plan.serverSealed)
  }

  function NetAt(plan: Plan, client: Stage, server: Stage): Net
    requires Paired(plan)
  {
    Net(map[CLIENT := ClientAt(plan, client), SERVER := ServerAt(plan, server)],
        {ClientSigned(plan)} + (if server == AwaitHello then {} else {ServerSigned(plan)}),
        OracleAt(plan, client, server))
  }

  function OracleAt(plan: Plan, client: Stage, server: Stage): Oracle
    requires Paired(plan)
  {
    var confirmed :=
      if server == AwaitFinished || server == Established then map[ServerQuery(plan) := SERVER_FINISHED] else map[];
    if client == Established then confirmed[ClientQuery(plan) := CLIENT_FINISHED] else confirmed
  }

  lemma QueriesDiffer(plan: Plan)
    requires Paired(plan)
    ensures ClientQuery(plan) != ServerQuery(plan)
  {
  }

  lemma Begins(plan: Plan)
    requires Paired(plan)
    ensures StartExchange(plan).net == NetAt(plan, AwaitHello, AwaitHello)
  {
    var started := NetStep(plan.w, StartNet(plan.w), Start(CLIENT, plan.clientSignature));
    assert started.sessions[SERVER].stage == Idle;
  }

  /** The server accepts the client's hello. */
  lemma ServerAccepts(plan: Plan)
    requires Paired(plan)
    ensures NetStep(plan.w, NetAt(plan, AwaitHello, AwaitHello), Deliver(SERVER, ClientHello(plan), plan.serverSignature))
            == NetAt(plan, AwaitHello, SendFinished)
  {
    HelloRoundTrip(CLIENT_HELLO, HelloOf(plan.w.setups[CLIENT], plan.clientSignature));
    assert AcceptClientHello(plan.w.setups[SERVER], NetAt(plan, AwaitHello, AwaitHello).signed, ClientHello(plan))
           == Some(TheParties(plan));
  }

  /** The client accepts the server's hello. */
  lemma ClientAccepts(plan: Plan, server: Stage)
    requires Paired(plan) && (server == SendFinished || server == AwaitFinished)
    ensures NetStep(plan.w, NetAt(plan, AwaitHello, server), Deliver(CLIENT, ServerHello(plan), plan.serverSignature))
            == NetAt(plan, AwaitFinished, server)
  {
    HelloRoundTrip(SERVER_HELLO, HelloOf(plan.w.setups[SERVER], plan.serverSignature));
    assert AcceptServerHello(plan.w, plan.w.setups[CLIENT], NetAt(plan, AwaitHello, server).signed, ServerHello(plan))
           == Some(TheParties(plan));
  }

  lemma ServerConfirms(plan: Plan, client: Stage)
    requires Paired(plan) && (client == AwaitHello || client == AwaitFinished)
    ensures NetStep(plan.w, NetAt(plan, client, SendFinished), Seal(SERVER, SERVER_FINISHED, plan.serverSealed))
            == NetAt(plan, client, AwaitFinished)
  {
    var n := NetAt(plan, client, SendFinished);
    assert NextQuery(plan.w, n, SERVER, plan.serverSealed) == ServerQuery(plan);
    assert n.sessions[SERVER].sent + [SERVER_FINISHED] == [SERVER_FINISHED];
    assert Sealing(plan.w, n, SERVER, SERVER_FINISHED, plan.serverSealed).sessions
           == NetAt(plan, client, AwaitFinished).sessions;
  }

  lemma ClientHearsConfirmation(plan: Plan)
    requires Paired(plan)
    ensures NetStep(plan.w, NetAt(plan, AwaitFinished, AwaitFinished),
                    Deliver(CLIENT, Body(0, plan.serverSealed), plan.serverSignature))
            == NetAt(plan, SendFinished, AwaitFinished)
  {
    var n, p := NetAt(plan, AwaitFinished, AwaitFinished), TheParties(plan);
    LanesMirror(plan.w, Server, p, Client, p);
    OpenSealed(n.oracle, ReceiveLane(plan.w, Client, p), 0, 0, SERVER_FINISHED, plan.serverSealed);
    assert n.sessions[CLIENT].received + [SERVER_FINISHED] == [SERVER_FINISHED];
    assert Opened(plan.w, n, CLIENT, Body(0, plan.serverSealed)).sessions
           == NetAt(plan, SendFinished, AwaitFinished).sessions;
  }

  lemma ClientConfirms(plan: Plan)
    requires Paired(plan)
    ensures NetStep(plan.w, NetAt(plan, SendFinished, AwaitFinished), Seal(CLIENT, CLIENT_FINISHED, plan.clientSealed))
            == NetAt(plan, Established, AwaitFinished)
  {
    QueriesDiffer(plan);
    var n := NetAt(plan, SendFinished, AwaitFinished);
    assert NextQuery(plan.w, n, CLIENT, plan.clientSealed) == ClientQuery(plan);
    assert n.sessions[CLIENT].sent + [CLIENT_FINISHED] == [CLIENT_FINISHED];
    assert Sealing(plan.w, n, CLIENT, CLIENT_FINISHED, plan.clientSealed).sessions
           == NetAt(plan, Established, AwaitFinished).sessions;
  }

  lemma ServerHearsConfirmation(plan: Plan)
    requires Paired(plan)
    ensures NetStep(plan.w, NetAt(plan, Established, AwaitFinished),
                    Deliver(SERVER, Body(0, plan.clientSealed), plan.serverSignature))
            == NetAt(plan, Established, Established)
  {
    var n, p := NetAt(plan, Established, AwaitFinished), TheParties(plan);
    LanesMirror(plan.w, Client, p, Server, p);
    QueriesDiffer(plan);
    OpenSealed(n.oracle, ReceiveLane(plan.w, Server, p), 0, 0, CLIENT_FINISHED, plan.clientSealed);
    assert n.sessions[SERVER].received + [CLIENT_FINISHED] == [CLIENT_FINISHED];
    assert Opened(plan.w, n, SERVER, Body(0, plan.clientSealed)).sessions
           == NetAt(plan, Established, Established).sessions;
  }

  // ------------------------------------------------------------------ the run as four counters

  const FIRST: nat := FRAME_LENGTH_SIZE + HELLO_SIZE
  const TOTAL: nat := FIRST + FRAME_LENGTH_SIZE + HEADER_SIZE + 49

  /** Everything the client writes, everything the server writes, and the four frame bodies in them. */
  datatype Wire = Wire(up: Bytes, down: Bytes, clientHello: Bytes, serverHello: Bytes,
                       clientConfirmation: Bytes, serverConfirmation: Bytes)

  /** A stream of a hello frame and a confirmation frame, whose length prefixes read back. */
  predicate TwoFrames(stream: Bytes, hello: Bytes, confirmation: Bytes) {
    && |stream| == TOTAL && |hello| == HELLO_SIZE && |confirmation| == TOTAL - FIRST - 4
    && stream[4..FIRST] == hello && stream[FIRST + 4..TOTAL] == confirmation
    && FromBigEndian(stream[0..4]) == HELLO_SIZE && FromBigEndian(stream[FIRST..FIRST + 4]) == |confirmation|
  }

  predicate Laid(wire: Wire) {
    && TwoFrames(wire.up, wire.clientHello, wire.clientConfirmation)
    && TwoFrames(wire.down, wire.serverHello, wire.serverConfirmation)
  }

  lemma StreamShape(stream: Bytes, hello: Bytes, confirmation: Bytes)
    requires |hello| == HELLO_SIZE && |confirmation| == TOTAL - FIRST - 4
    requires stream == EncodeFrame(hello) + EncodeFrame(confirmation)
    ensures TwoFrames(stream, hello, confirmation)
    ensures stream[..FIRST] == EncodeFrame(hello) && stream[FIRST..] == EncodeFrame(confirmation)
  {
    LengthRoundTrip(HELLO_SIZE);
    LengthRoundTrip(|confirmation|);
    assert stream[0..4] == ToBigEndian(HELLO_SIZE, 4);
    assert stream[FIRST..FIRST + 4] == ToBigEndian(|confirmation|, 4);
  }

  function WireOf(plan: Plan): (wire: Wire)
    requires Paired(plan)
    ensures Laid(wire)
  {
    var ch, sh, cf, sf := ClientHello(plan), ServerHello(plan), Body(0, plan.clientSealed), Body(0, plan.serverSealed);
    var up, down := EncodeFrame(ch) + EncodeFrame(cf), EncodeFrame(sh) + EncodeFrame(sf);
    StreamShape(up, ch, cf);
    StreamShape(down, sh, sf);
    Wire(up, down, ch, sh, cf, sf)
  }

  /** How many bytes each side has written and read. */
  datatype Count = Count(upWritten: nat, upRead: nat, downWritten: nat, downRead: nat)

  predicate Fits(capacity: nat, c: Count) {
    && c.upRead <= c.upWritten <= TOTAL && c.upWritten - c.upRead <= capacity
    && c.downRead <= c.downWritten <= TOTAL && c.downWritten - c.downRead <= capacity
    && (c.upWritten > FIRST ==> c.downRead == TOTAL)
    && (c.downWritten > 0 ==> c.upRead >= FIRST)
  }

  /** A reader that has taken `position` bytes off a stream of two frames. */
  function ReaderAt(stream: Bytes, position: nat): Io
    requires |stream| == TOTAL && position < TOTAL
  {
    var start, size := if position < FIRST then 0 else FIRST, if position < FIRST then HELLO_SIZE else TOTAL - FIRST - 4;
    if position < start + FRAME_LENGTH_SIZE then ReadingLength(stream[start..position])
    else ReadingBody(size, stream[start + FRAME_LENGTH_SIZE..position])
  }

  function FrameEnd(position: nat): nat {
    if position < FIRST then FIRST else TOTAL
  }

  function WriterAt(stream: Bytes, position: nat): Io
    requires |stream| == TOTAL && position < TOTAL
  {
    Writing(stream[position..FrameEnd(position)])
  }

  function ClientIo(wire: Wire, c: Count): Io
    requires Laid(wire)
  {
    if c.upWritten < FIRST then WriterAt(wire.up, c.upWritten)
    else if c.downRead < TOTAL then ReaderAt(wire.down, c.downRead)
    else if c.upWritten < TOTAL then WriterAt(wire.up, c.upWritten)
    else Done
  }

  function ServerIo(wire: Wire, c: Count): Io
    requires Laid(wire)
  {
    if c.upRead < FIRST then ReaderAt(wire.up, c.upRead)
    else if c.downWritten < TOTAL then WriterAt(wire.down, c.downWritten)
    else if c.upRead < TOTAL then ReaderAt(wire.up, c.upRead)
    else Done
  }

  function ClientStage(c: Count): Stage {
    if c.downRead < FIRST then AwaitHello else if c.downRead < TOTAL then AwaitFinished else Established
  }

  function ServerStage(c: Count): Stage {
    if c.upRead < FIRST then AwaitHello
    else if c.downWritten < FIRST then SendFinished
    else if c.upRead < TOTAL then AwaitFinished
    else Established
  }

  /** The exchange is where the four counters say. */
  predicate Seen(plan: Plan, wire: Wire, c: Count, x: Exchange) {
    && Paired(plan) && Laid(wire) && Fits(plan.capacity, c)
    && x.net == NetAt(plan, ClientStage(c), ServerStage(c))
    && x.client == ClientIo(wire, c) && x.server == ServerIo(wire, c)
    && x.up == wire.up[c.upRead..c.upWritten] && x.down == wire.down[c.downRead..c.downWritten]
  }

  /** One read inside a stream of two frames: the reader moves on, or it has a complete frame. */
  lemma ReaderMoves(plan: Plan, net: Net, id: SessionId, stream: Bytes, hello: Bytes, confirmation: Bytes,
                    position: nat, count: nat)
    requires Paired(plan) && TwoFrames(stream, hello, confirmation)
    requires position < TOTAL && 0 < count <= Wanted(ReaderAt(stream, position))
    ensures position + count <= FrameEnd(position)
    ensures AfterRead(plan, net, id, ReaderAt(stream, position), stream[position..position + count])
      == if position + count == FIRST then AfterFrame(plan, net, id, hello)
         else if position + count == TOTAL then AfterFrame(plan, net, id, confirmation)
         else (net, ReaderAt(stream, position + count))
  {
    var start := if position < FIRST then 0 else FIRST;
    if position < start + 4 {
      assert stream[start..position] + stream[position..position + count] == stream[start..position + count];
      assert stream[start + 4..start + 4] == [];
    } else {
      assert stream[start + 4..position] + stream[position..position + count] == stream[start + 4..position + count];
    }
  }

  /** Bytes leave the writer's rest and join the pipe; bytes leave the pipe. */
  lemma PipeSlices(stream: Bytes, read: nat, written: nat, end: nat, count: nat)
    requires read <= written <= end <= |stream|
    ensures written + count <= end ==>
      && stream[read..written] + stream[written..end][..count] == stream[read..written + count]
      && stream[written..end][count..] == stream[written + count..end]
    ensures read + count <= written ==>
      && stream[read..written][..count] == stream[read..read + count]
      && stream[read..written][count..] == stream[read + count..written]
  {
  }

  /** The programs at the ends of frames: what each endpoint does next, and where its bytes are on the wire. */
  predicate Programs(plan: Plan, wire: Wire)
    requires Paired(plan) && Laid(wire)
  {
    && AfterFrame(plan, NetAt(plan, AwaitHello, AwaitHello), SERVER, wire.clientHello)
       == (NetAt(plan, AwaitHello, SendFinished), Writing(wire.down[..FIRST]))
    && AfterFrame(plan, NetAt(plan, AwaitHello, AwaitFinished), CLIENT, wire.serverHello)
       == (NetAt(plan, AwaitFinished, AwaitFinished), ReadingLength([]))
    && AfterFrame(plan, NetAt(plan, AwaitFinished, AwaitFinished), CLIENT, wire.serverConfirmation)
       == (NetAt(plan, Established, AwaitFinished), Writing(wire.up[FIRST..]))
    && AfterFrame(plan, NetAt(plan, Established, AwaitFinished), SERVER, wire.clientConfirmation)
       == (NetAt(plan, Established, Established), Done)
    && AfterWrite(plan, NetAt(plan, AwaitHello, SendFinished), SERVER)
       == (NetAt(plan, AwaitHello, AwaitFinished), Writing(wire.down[FIRST..]))
  }

  lemma Stages(plan: Plan, client: Stage, server: Stage)
    requires Paired(plan)
    requires client == AwaitHello || client == AwaitFinished || client == SendFinished || client == Established
    requires server == AwaitHello || server == AwaitFinished || server == SendFinished || server == Established
    ensures var n := NetAt(plan, client, server);
      && CLIENT in n.sessions && n.sessions[CLIENT].stage == client
      && SERVER in n.sessions && n.sessions[SERVER].stage == server
  {
  }

  lemma ProgramsRun(plan: Plan)
    requires Paired(plan)
    ensures Programs(plan, WireOf(plan))
  {
    hide NetAt, NetStep;
    var wire := WireOf(plan);
    StreamShape(wire.up, wire.clientHello, wire.clientConfirmation);
    StreamShape(wire.down, wire.serverHello, wire.serverConfirmation);
    Stages(plan, AwaitHello, SendFinished);
    Stages(plan, AwaitFinished, AwaitFinished);
    Stages(plan, SendFinished, AwaitFinished);
    Stages(plan, Established, Established);
    ServerAccepts(plan);
    ClientAccepts(plan, AwaitFinished);
    ClientHearsConfirmation(plan);
    ClientConfirms(plan);
    ServerHearsConfirmation(plan);
    ServerConfirms(plan, AwaitHello);
  }

  function Plus(c: Count, upWritten: nat, upRead: nat, downWritten: nat, downRead: nat): Count {
    Count(c.upWritten + upWritten, c.upRead + upRead, c.downWritten + downWritten, c.downRead + downRead)
  }

  /** The client writes: its program and its point move on together. */
  lemma ClientWritten(plan: Plan, wire: Wire, c: Count, net: Net, count: nat)
    requires Paired(plan) && Laid(wire) && Fits(plan.capacity, c) && ClientIo(wire, c).Writing?
    requires net == NetAt(plan, ClientStage(c), ServerStage(c))
    requires 0 < count <= |ClientIo(wire, c).rest| && c.upWritten - c.upRead + count <= plan.capacity
    ensures Fits(plan.capacity, Plus(c, count, 0, 0, 0))
    ensures Written(plan, net, CLIENT, ClientIo(wire, c).rest, count) == (net, ClientIo(wire, Plus(c, count, 0, 0, 0)))
  {
    PipeSlices(wire.up, c.upRead, c.upWritten, FrameEnd(c.upWritten), count);
    assert wire.down[0..0] == [];
  }

  lemma ServerWritten(plan: Plan, wire: Wire, c: Count, net: Net, count: nat)
    requires Paired(plan) && Laid(wire) && Fits(plan.capacity, c) && ServerIo(wire, c).Writing?
    requires Programs(plan, wire) && net == NetAt(plan, ClientStage(c), ServerStage(c))
    requires 0 < count <= |ServerIo(wire, c).rest| && c.downWritten - c.downRead + count <= plan.capacity
    ensures Fits(plan.capacity, Plus(c, 0, 0, count, 0))
    ensures var d := Plus(c, 0, 0, count, 0);
      Written(plan, net, SERVER, ServerIo(wire, c).rest, count)
      == (NetAt(plan, ClientStage(d), ServerStage(d)), ServerIo(wire, d))
  {
    hide NetAt, Confirm, AfterFrame;
    Stages(plan, ClientStage(c), ServerStage(c));
    assert wire.down[FIRST..] == wire.down[FIRST..TOTAL];
    PipeSlices(wire.down, c.downRead, c.downWritten, FrameEnd(c.downWritten), count);
    assert wire.up[FIRST..FIRST] == [];
  }

  lemma ClientHasRead(plan: Plan, wire: Wire, c: Count, net: Net, count: nat)
    requires Paired(plan) && Laid(wire) && Fits(plan.capacity, c) && !ClientIo(wire, c).Writing?
    requires Programs(plan, wire) && net == NetAt(plan, ClientStage(c), ServerStage(c))
    requires 0 < count <= Wanted(ClientIo(wire, c)) && count <= c.downWritten - c.downRead
    ensures Fits(plan.capacity, Plus(c, 0, 0, 0, count))
    ensures var d := Plus(c, 0, 0, 0, count);
      AfterRead(plan, net, CLIENT, ClientIo(wire, c), wire.down[c.downRead..c.downRead + count])
      == (NetAt(plan, ClientStage(d), ServerStage(d)), ClientIo(wire, d))
  {
    hide NetAt, AfterFrame;
    ReaderMoves(plan, net, CLIENT, wire.down, wire.serverHello, wire.serverConfirmation, c.downRead, count);
    assert wire.down[FIRST..FIRST] == [] && wire.up[FIRST..] == wire.up[FIRST..TOTAL];
  }

  lemma ServerHasRead(plan: Plan, wire: Wire, c: Count, net: Net, count: nat)
    requires Paired(plan) && Laid(wire) && Fits(plan.capacity, c) && !ServerIo(wire, c).Writing?
    requires Programs(plan, wire) && net == NetAt(plan, ClientStage(c), ServerStage(c))
    requires 0 < count <= Wanted(ServerIo(wire, c)) && count <= c.upWritten - c.upRead
    ensures Fits(plan.capacity, Plus(c, 0, count, 0, 0))
    ensures var d := Plus(c, 0, count, 0, 0);
      AfterRead(plan, net, SERVER, ServerIo(wire, c), wire.up[c.upRead..c.upRead + count])
      == (NetAt(plan, ClientStage(d), ServerStage(d)), ServerIo(wire, d))
  {
    hide NetAt, AfterFrame;
    ReaderMoves(plan, net, SERVER, wire.up, wire.clientHello, wire.clientConfirmation, c.upRead, count);
    assert wire.down[0..FIRST] == wire.down[..FIRST];
  }

  /** A move that transfers bytes is a step of one counter; every other move changes nothing. */
  function Next(plan: Plan, wire: Wire, c: Count, m: Move): Count
    requires Paired(plan) && Laid(wire)
  {
    if m.id == CLIENT then
      if ClientIo(wire, c).Writing? then
        if 0 < m.count <= |ClientIo(wire, c).rest| && c.upWritten - c.upRead + m.count <= plan.capacity
        then Plus(c, m.count, 0, 0, 0) else c
      else if 0 < m.count <= Wanted(ClientIo(wire, c)) && m.count <= c.downWritten - c.downRead
      then Plus(c, 0, 0, 0, m.count) else c
    else if m.id == SERVER then
      if ServerIo(wire, c).Writing? then
        if 0 < m.count <= |ServerIo(wire, c).rest| && c.downWritten - c.downRead + m.count <= plan.capacity
        then Plus(c, 0, 0, m.count, 0) else c
      else if 0 < m.count <= Wanted(ServerIo(wire, c)) && m.count <= c.upWritten - c.upRead
      then Plus(c, 0, m.count, 0, 0) else c
    else c
  }

  lemma ClientMoveWrites(plan: Plan, wire: Wire, c: Count, x: Exchange, count: nat)
    requires Seen(plan, wire, c, x) && x.client.Writing?
    requires 0 < count <= |x.client.rest| && c.upWritten - c.upRead + count <= plan.capacity
    ensures Seen(plan, wire, Plus(c, count, 0, 0, 0), ExchangeStep(plan, x, Move(CLIENT, count)))
  {
    hide NetAt, AfterFrame, AfterWrite, Confirm, Written, AfterRead;
    Stages(plan, ClientStage(c), ServerStage(c));
    ClientWritten(plan, wire, c, x.net, count);
    PipeSlices(wire.up, c.upRead, c.upWritten, FrameEnd(c.upWritten), count);
  }

  lemma ClientMoveReads(plan: Plan, wire: Wire, c: Count, x: Exchange, count: nat)
    requires Seen(plan, wire, c, x) && Programs(plan, wire) && !x.client.Writing?
    requires 0 < count <= Wanted(x.client) && count <= c.downWritten - c.downRead
    ensures Seen(plan, wire, Plus(c, 0, 0, 0, count), ExchangeStep(plan, x, Move(CLIENT, count)))
  {
    hide NetAt, AfterFrame, AfterWrite, Confirm, Written, AfterRead;
    Stages(plan, ClientStage(c), ServerStage(c));
    ClientHasRead(plan, wire, c, x.net, count);
    PipeSlices(wire.down, c.downRead, c.downWritten, TOTAL, count);
  }

  lemma ServerMoveWrites(plan: Plan, wire: Wire, c: Count, x: Exchange, count: nat)
    requires Seen(plan, wire, c, x) && Programs(plan, wire) && x.server.Writing?
    requires 0 < count <= |x.server.rest| && c.downWritten - c.downRead + count <= plan.capacity
    ensures Seen(plan, wire, Plus(c, 0, 0, count, 0), ExchangeStep(plan, x, Move(SERVER, count)))
  {
    hide NetAt, AfterFrame, AfterWrite, Confirm, Written, AfterRead;
    Stages(plan, ClientStage(c), ServerStage(c));
    ServerWritten(plan, wire, c, x.net, count);
    PipeSlices(wire.down, c.downRead, c.downWritten, FrameEnd(c.downWritten), count);
  }

  lemma ServerMoveReads(plan: Plan, wire: Wire, c: Count, x: Exchange, count: nat)
    requires Seen(plan, wire, c, x) && Programs(plan, wire) && !x.server.Writing?
    requires 0 < count <= Wanted(x.server) && count <= c.upWritten - c.upRead
    ensures Seen(plan, wire, Plus(c, 0, count, 0, 0), ExchangeStep(plan, x, Move(SERVER, count)))
  {
    hide NetAt, AfterFrame, AfterWrite, Confirm, Written, AfterRead;
    Stages(plan, ClientStage(c), ServerStage(c));
    ServerHasRead(plan, wire, c, x.net, count);
    PipeSlices(wire.up, c.upRead, c.upWritten, TOTAL, count);
  }

  lemma MoveIsSeen(plan: Plan, wire: Wire, c: Count, x: Exchange, m: Move)
    requires Seen(plan, wire, c, x) && Programs(plan, wire)
    ensures Seen(plan, wire, Next(plan, wire, c, m), ExchangeStep(plan, x, m))
  {
    hide NetAt, AfterFrame, AfterWrite, Confirm, Written, AfterRead, ReaderAt, WriterAt;
    if Next(plan, wire, c, m) == c {
    } else if m.id == CLIENT {
      if x.client.Writing? {
        ClientMoveWrites(plan, wire, c, x, m.count);
      } else {
        ClientMoveReads(plan, wire, c, x, m.count);
      }
    } else {
      if x.server.Writing? {
        ServerMoveWrites(plan, wire, c, x, m.count);
      } else {
        ServerMoveReads(plan, wire, c, x, m.count);
      }
    }
  }

  function CountOf(plan: Plan, ms: seq<Move>): Count
    requires Paired(plan)
  {
    if ms == [] then Count(0, 0, 0, 0) else Next(plan, WireOf(plan), CountOf(plan, ms[..|ms| - 1]), ms[|ms| - 1])
  }

  lemma StartsAtZero(plan: Plan)
    requires Paired(plan)
    ensures Seen(plan, WireOf(plan), Count(0, 0, 0, 0), StartExchange(plan))
  {
    Begins(plan);
    var wire := WireOf(plan);
    StreamShape(wire.up, wire.clientHello, wire.clientConfirmation);
    assert wire.up[0..FIRST] == wire.up[..FIRST];
  }

  lemma {:induction false} RunIsSeen(plan: Plan, ms: seq<Move>)
    requires Paired(plan)
    ensures Seen(plan, WireOf(plan), CountOf(plan, ms), ExchangeRun(plan, ms))
  {
    hide NetAt, WireOf, Programs, ExchangeStep, StartExchange;
    if ms == [] {
      StartsAtZero(plan);
    } else {
      RunIsSeen(plan, ms[..|ms| - 1]);
      ProgramsRun(plan);
      MoveIsSeen(plan, WireOf(plan), CountOf(plan, ms[..|ms| - 1]), ExchangeRun(plan, ms[..|ms| - 1]), ms[|ms| - 1]);
    }
  }

  // ------------------------------------------------------------------ theorems

  function Remaining(c: Count): int {
    4 * TOTAL - c.upWritten - c.upRead - c.downWritten - c.downRead
  }

  /** Somebody can move a byte as long as not every byte has been moved. */
  lemma NeverStuck(plan: Plan, wire: Wire, c: Count)
    requires Paired(plan) && Laid(wire) && Fits(plan.capacity, c) && Remaining(c) > 0
    ensures exists m :: Next(plan, wire, c, m) != c
  {
    var byClient, byServer := Next(plan, wire, c, Move(CLIENT, 1)), Next(plan, wire, c, Move(SERVER, 1));
    assert byClient != c || byServer != c;
  }

  lemma EveryMoveCounts(plan: Plan, wire: Wire, c: Count, m: Move)
    requires Paired(plan) && Laid(wire) && Fits(plan.capacity, c)
    ensures Next(plan, wire, c, m) == c || 0 <= Remaining(Next(plan, wire, c, m)) < Remaining(c)
  {
  }

  predicate Completed(x: Exchange) {
    x.client == Done && x.server == Done
  }

  /** A measure of an exchange that starts at `4 * TOTAL`. */
  function BytesToMove(plan: Plan, ms: seq<Move>): int
    requires Paired(plan)
  {
    Remaining(CountOf(plan, ms))
  }

  /**
   The honest handshake never deadlocks and always terminates. After any moves, either it is complete, or
   some move transfers a byte; every move either changes nothing or strictly decreases a measure that
   starts at four times the 228 bytes of each direction and never becomes negative. This holds for every
   interleaving, every chunking and every pipe capacity from one byte up.
   */
  lemma HandshakeProgresses(plan: Plan, ms: seq<Move>)
    requires Paired(plan)
    ensures BytesToMove(plan, []) == 4 * 228 && BytesToMove(plan, ms) >= 0
    ensures Completed(ExchangeRun(plan, ms)) <==> BytesToMove(plan, ms) == 0
    ensures !Completed(ExchangeRun(plan, ms)) ==> exists m :: BytesToMove(plan, ms + [m]) < BytesToMove(plan, ms)
    ensures forall m :: BytesToMove(plan, ms + [m]) < BytesToMove(plan, ms)
                        || ExchangeRun(plan, ms + [m]) == ExchangeRun(plan, ms)
  {
    hide NetAt, WireOf, ExchangeStep, StartExchange;
    RunIsSeen(plan, ms);
    var wire, c := WireOf(plan), CountOf(plan, ms);
    forall m ensures CountOf(plan, ms + [m]) == Next(plan, wire, c, m) {
      assert (ms + [m])[..|ms|] == ms;
    }
    if Remaining(c) > 0 {
      NeverStuck(plan, wire, c);
      var m :| Next(plan, wire, c, m) != c;
      EveryMoveCounts(plan, wire, c, m);
      assert BytesToMove(plan, ms + [m]) < BytesToMove(plan, ms);
    }
    forall m ensures BytesToMove(plan, ms + [m]) < BytesToMove(plan, ms)
                     || ExchangeRun(plan, ms + [m]) == ExchangeRun(plan, ms)
    {
      EveryMoveCounts(plan, wire, c, m);
      RunIsSeen(plan, ms + [m]);
      SeenTwice(plan, wire, c, ExchangeRun(plan, ms), ExchangeRun(plan, ms + [m]));
    }
  }

  lemma SeenTwice(plan: Plan, wire: Wire, c: Count, x: Exchange, y: Exchange)
    requires Seen(plan, wire, c, x)
    ensures Seen(plan, wire, c, y) ==> y == x
  {
  }

  /**
   A complete handshake is a mirrored one: both sessions are established with the same parties, each side's
   send lane (key, nonce prefix, direction) is the other's receive lane, and all four counters are at one.
   */
  lemma CompletedIsMirrored(plan: Plan, ms: seq<Move>)
    requires Paired(plan) && Completed(ExchangeRun(plan, ms))
    ensures var n, p := ExchangeRun(plan, ms).net, TheParties(plan);
      && n.sessions.Keys == {CLIENT, SERVER}
      && n.sessions[CLIENT] == Session(Established, Some(p), [CLIENT_FINISHED], [SERVER_FINISHED])
      && n.sessions[SERVER] == Session(Established, Some(p), [SERVER_FINISHED], [CLIENT_FINISHED])
      && SendLane(plan.w, Client, p) == ReceiveLane(plan.w, Server, p)
      && SendLane(plan.w, Server, p) == ReceiveLane(plan.w, Client, p)
  {
    RunIsSeen(plan, ms);
    LanesMirror(plan.w, Client, TheParties(plan), Client, TheParties(plan));
    LanesMirror(plan.w, Server, TheParties(plan), Server, TheParties(plan));
  }
}
