/**
 The byte layouts of protocol version 2: hello messages, the three signed or hashed byte strings,
 associated data, nonces, and the split of the derived key block.
 */
module Protocol {
  import opened ByteStrings
  import opened Wrappers

  const KEY_SIZE: nat := 32
  const NONCE_SIZE: nat := 12
  const TAG_SIZE: nat := 16
  const SIGNATURE_SIZE: nat := 64
  const SEQUENCE_SIZE: nat := 8
  const NONCE_PREFIX_SIZE: nat := NONCE_SIZE - SEQUENCE_SIZE
  const HEADER_SIZE: nat := 1 + SEQUENCE_SIZE
  const MIN_ENCRYPTED_SIZE: nat := HEADER_SIZE + TAG_SIZE
  const HELLO_HEADER_SIZE: nat := 2
  const HELLO_SIZE: nat := HELLO_HEADER_SIZE + 3 * KEY_SIZE + SIGNATURE_SIZE
  const KEY_BLOCK_SIZE: nat := 2 * KEY_SIZE + 2 * NONCE_PREFIX_SIZE
  const U64_LIMIT: nat := 0x1_0000_0000_0000_0000
  const USIZE_LIMIT: nat := 0x1_0000_0000_0000_0000

  const VERSION: byte := 2
  const CLIENT_HELLO: byte := 1
  const SERVER_HELLO: byte := 2
  const CLIENT_TO_SERVER: byte := 1
  const SERVER_TO_CLIENT: byte := 2

  /** "TNE2" */
  const MAGIC: Bytes := [84, 78, 69, 50]
  /** "/client-auth/" */
  const CLIENT_AUTH: Bytes := [47, 99, 108, 105, 101, 110, 116, 45, 97, 117, 116, 104, 47]
  /** "/server-auth/" */
  const SERVER_AUTH: Bytes := [47, 115, 101, 114, 118, 101, 114, 45, 97, 117, 116, 104, 47]
  /** "/transcript/" */
  const TRANSCRIPT: Bytes := [47, 116, 114, 97, 110, 115, 99, 114, 105, 112, 116, 47]

  /** "taunicorn-e2ee-v2/client-finished" */
  const CLIENT_FINISHED: Bytes := [
    116, 97, 117, 110, 105, 99, 111, 114, 110, 45, 101, 50, 101, 101, 45, 118, 50, 47,
    99, 108, 105, 101, 110, 116, 45, 102, 105, 110, 105, 115, 104, 101, 100]
  /** "taunicorn-e2ee-v2/server-finished" */
  const SERVER_FINISHED: Bytes := [
    116, 97, 117, 110, 105, 99, 111, 114, 110, 45, 101, 50, 101, 101, 45, 118, 50, 47,
    115, 101, 114, 118, 101, 114, 45, 102, 105, 110, 105, 115, 104, 101, 100]

  // ------------------------------------------------------------------ hello messages

  datatype Hello = Hello(ephemeral: Bytes, identity: Bytes, nonce: Bytes, signature: Bytes)

  /** The fixed-size arrays of the hello structures. */
  predicate Sized(hello: Hello) {
    && |hello.ephemeral| == KEY_SIZE && |hello.identity| == KEY_SIZE && |hello.nonce| == KEY_SIZE
    && |hello.signature| == SIGNATURE_SIZE
  }

  datatype HelloError = WrongSize | WrongType | WrongVersion | OffsetOverflow | FieldOutOfFrame

  function EncodeHello(kind: byte, hello: Hello): Bytes {
    [kind, VERSION] + hello.identity + hello.ephemeral + hello.nonce + hello.signature
  }

  /** The strings that a hello decoder of the given kind accepts. */
  predicate IsHello(kind: byte, data: Bytes) {
    |data| == HELLO_SIZE && data[0] == kind && data[1] == VERSION
  }

  function DecodeHello(kind: byte, data: Bytes): Result<Hello, HelloError> {
    if |data| != HELLO_SIZE then Err(WrongSize)
    else if data[0] != kind then Err(WrongType)
    else if data[1] != VERSION then Err(WrongVersion)
    else Ok(Hello(data[34..66], data[2..34], data[66..98], data[98..162]))
  }

  /** Encoding then decoding gives the hello back. */
  lemma HelloRoundTrip(kind: byte, hello: Hello)
    requires Sized(hello)
    ensures IsHello(kind, EncodeHello(kind, hello))
    ensures DecodeHello(kind, EncodeHello(kind, hello)) == Ok(hello)
  {
    var data := EncodeHello(kind, hello);
    assert data[2..34] == hello.identity && data[34..66] == hello.ephemeral;
    assert data[66..98] == hello.nonce && data[98..162] == hello.signature;
  }

  /** A decoder accepts exactly the strings of its kind, each of which is the encoding of what it
      decodes to; in particular no string is accepted by the decoders of two kinds. */
  lemma HelloCanonical(kind: byte, other: byte, data: Bytes)
    ensures DecodeHello(kind, data).Ok? <==> IsHello(kind, data)
    ensures IsHello(kind, data) ==>
      Sized(DecodeHello(kind, data).value) && EncodeHello(kind, DecodeHello(kind, data).value) == data
    ensures DecodeHello(kind, data).Ok? && DecodeHello(other, data).Ok? ==> kind == other
  {
    if IsHello(kind, data) {
      assert data == data[..2] + data[2..34] + data[34..66] + data[66..98] + data[98..162];
      assert data[..2] == [kind, VERSION];
    }
  }

  /** Read `size` bytes at a caller-owned offset and advance it; on failure the offset stays. */
  method TakeArray(data: Bytes, offset: nat, size: nat) returns (r: Result<Bytes, HelloError>, next: nat)
    ensures r.Ok? <==> offset + size < USIZE_LIMIT && offset + size <= |data|
    ensures r.Ok? ==> next == offset + size && r.value == data[offset..next]
    ensures r.Err? ==> next == offset
    ensures offset + size >= USIZE_LIMIT ==> r == Err(OffsetOverflow)
  {
    next := offset;
    if offset + size >= USIZE_LIMIT {
      return Err(OffsetOverflow), next;
    }
    var end := offset + size;
    if end > |data| {
      return Err(FieldOutOfFrame), next;
    }
    r := Ok(data[offset..end]);
    next := end;
  }

  /** The two hello decoders: header checks, then four fields taken one after the other. */
  method ParseHello(kind: byte, data: Bytes) returns (r: Result<Hello, HelloError>)
    ensures r == DecodeHello(kind, data)
  {
    if |data| != HELLO_SIZE {
      return Err(WrongSize);
    }
    if data[0] != kind {
      return Err(WrongType);
    }
    if data[1] != VERSION {
      return Err(WrongVersion);
    }
    var offset := HELLO_HEADER_SIZE;
    var identity, ephemeral, nonce, signature;
    identity, offset := TakeArray(data, offset, KEY_SIZE);
    ephemeral, offset := TakeArray(data, offset, KEY_SIZE);
    nonce, offset := TakeArray(data, offset, KEY_SIZE);
    signature, offset := TakeArray(data, offset, SIGNATURE_SIZE);
    assert offset == HELLO_SIZE;
    return Ok(Hello(ephemeral.value, identity.value, nonce.value, signature.value));
  }

  /** The two hello encoders append field after field to an output buffer. */
  method BuildHello(kind: byte, hello: Hello) returns (output: Bytes)
    requires Sized(hello)
    ensures |output| == HELLO_SIZE && DecodeHello(kind, output) == Ok(hello)
  {
    output := [];
    output := output + [kind];
    output := output + [VERSION];
    output := output + hello.identity;
    output := output + hello.ephemeral;
    output := output + hello.nonce;
    output := output + hello.signature;
    assert output == EncodeHello(kind, hello);
    HelloRoundTrip(kind, hello);
  }

  // ------------------------------------------------------------------ signed and hashed strings

  /** Everything that one handshake binds together, from the point of view of one side. */
  datatype Parties = Parties(
    clientEphemeral: Bytes,
    clientIdentity: Bytes,
    clientNonce: Bytes,
    serverEphemeral: Bytes,
    serverIdentity: Bytes,
    serverNonce: Bytes)

  predicate SizedParties(p: Parties) {
    && |p.clientEphemeral| == KEY_SIZE && |p.clientIdentity| == KEY_SIZE && |p.clientNonce| == KEY_SIZE
    && |p.serverEphemeral| == KEY_SIZE && |p.serverIdentity| == KEY_SIZE && |p.serverNonce| == KEY_SIZE
  }

  function ClientSignatureMessage(clientEphemeral: Bytes, clientIdentity: Bytes, clientNonce: Bytes,
                                  serverIdentity: Bytes): Bytes {
    MAGIC + CLIENT_AUTH + [VERSION] + clientIdentity + serverIdentity + clientEphemeral + clientNonce
  }

  function ServerSignatureMessage(p: Parties): Bytes {
    MAGIC + SERVER_AUTH + [VERSION] + Fields(p)
  }

  /** The input of the transcript hash. */
  function TranscriptMessage(p: Parties): Bytes {
    MAGIC + TRANSCRIPT + [VERSION] + Fields(p)
  }

  function Fields(p: Parties): Bytes {
    p.clientIdentity + p.serverIdentity + p.clientEphemeral + p.serverEphemeral + p.clientNonce + p.serverNonce
  }

  predicate HoldsFields(data: Bytes, p: Parties) {
    && |data| == 192
    && data[..32] == p.clientIdentity && data[32..64] == p.serverIdentity
    && data[64..96] == p.clientEphemeral && data[96..128] == p.serverEphemeral
    && data[128..160] == p.clientNonce && data[160..] == p.serverNonce
  }

  lemma FieldsLayout(p: Parties)
    requires SizedParties(p)
    ensures HoldsFields(Fields(p), p)
  {
  }

  lemma FieldsInjective(p: Parties, q: Parties)
    requires SizedParties(p) && SizedParties(q) && Fields(p) == Fields(q)
    ensures p == q
  {
    hide Fields;
    FieldsLayout(p);
    FieldsLayout(q);
  }

  lemma ClientSignatureInjective(e: Bytes, i: Bytes, n: Bytes, s: Bytes, e': Bytes, i': Bytes, n': Bytes, s': Bytes)
    requires |e| == |i| == |n| == |s| == KEY_SIZE && |e'| == |i'| == |n'| == |s'| == KEY_SIZE
    requires ClientSignatureMessage(e, i, n, s) == ClientSignatureMessage(e', i', n', s')
    ensures e == e' && i == i' && n == n' && s == s'
  {
    var a, b := ClientSignatureMessage(e, i, n, s), ClientSignatureMessage(e', i', n', s');
    assert a[18..50] == i && b[18..50] == i';
    assert a[50..82] == s && b[50..82] == s';
    assert a[82..114] == e && b[82..114] == e';
    assert a[114..146] == n && b[114..146] == n';
  }

  /** The server signature and the transcript bind all six values, and the two say the same thing. */
  lemma TranscriptInjective(p: Parties, q: Parties)
    requires SizedParties(p) && SizedParties(q)
    ensures ServerSignatureMessage(p) == ServerSignatureMessage(q) <==> p == q
    ensures TranscriptMessage(p) == TranscriptMessage(q) <==> p == q
  {
    if ServerSignatureMessage(p) == ServerSignatureMessage(q) {
      assert ServerSignatureMessage(p)[18..] == Fields(p) && ServerSignatureMessage(q)[18..] == Fields(q);
      FieldsInjective(p, q);
    }
    if TranscriptMessage(p) == TranscriptMessage(q) {
      assert TranscriptMessage(p)[17..] == Fields(p) && TranscriptMessage(q)[17..] == Fields(q);
      FieldsInjective(p, q);
    }
  }

  /** The three kinds differ at their sixth byte, so none is even a prefix of another. */
  lemma DomainsSeparated(e: Bytes, i: Bytes, n: Bytes, s: Bytes, p: Parties, q: Parties)
    ensures var a, b, c := ClientSignatureMessage(e, i, n, s), ServerSignatureMessage(p), TranscriptMessage(q);
      && |a| > 5 && |b| > 5 && |c| > 5
      && a[5] != b[5] && b[5] != c[5] && a[5] != c[5]
      && a != b && b != c && a != c
  {
    assert ClientSignatureMessage(e, i, n, s)[5] == 99;
    assert ServerSignatureMessage(p)[5] == 115;
    assert TranscriptMessage(q)[5] == 116;
  }

  // ------------------------------------------------------------------ associated data and nonces

  function MakeAad(direction: byte, sequence: Bytes, transcript: Bytes): Bytes {
    MAGIC + [VERSION, direction] + sequence + transcript
  }

  function MakeNonce(prefix: Bytes, sequence: Bytes): Bytes {
    prefix + sequence
  }

  lemma AadInjective(d: byte, s: Bytes, t: Bytes, d': byte, s': Bytes, t': Bytes)
    requires |s| == |s'| == SEQUENCE_SIZE
    ensures MakeAad(d, s, t) == MakeAad(d', s', t') <==> d == d' && s == s' && t == t'
  {
    var a, b := MakeAad(d, s, t), MakeAad(d', s', t');
    if a == b {
      assert a[5] == d && b[5] == d';
      assert a[6..14] == s && b[6..14] == s';
      assert a[14..] == t && b[14..] == t';
    }
  }

  /** Under one directional prefix two messages share a nonce exactly when they share a sequence. */
  lemma NonceUnique(prefix: Bytes, n: nat, m: nat)
    requires n < U64_LIMIT && m < U64_LIMIT
    ensures MakeNonce(prefix, ToBigEndian(n, 8)) == MakeNonce(prefix, ToBigEndian(m, 8)) <==> n == m
  {
    var a, b := MakeNonce(prefix, ToBigEndian(n, 8)), MakeNonce(prefix, ToBigEndian(m, 8));
    assert a[|prefix|..] == ToBigEndian(n, 8) && b[|prefix|..] == ToBigEndian(m, 8);
    Pow256At();
    BigEndianRoundTrip(n, 8);
    BigEndianRoundTrip(m, 8);
  }

  /** The nonce of record `n`: twelve bytes, first the prefix of the direction and then the number. */
  lemma NonceLayout(prefix: Bytes, n: nat)
    requires |prefix| == NONCE_PREFIX_SIZE && n < U64_LIMIT
    ensures var nonce := MakeNonce(prefix, ToBigEndian(n, SEQUENCE_SIZE));
      |nonce| == 12 && nonce[..4] == prefix && FromBigEndian(nonce[4..]) == n
  {
    var nonce := MakeNonce(prefix, ToBigEndian(n, SEQUENCE_SIZE));
    assert nonce[4..] == ToBigEndian(n, 8);
    Pow256At();
    BigEndianRoundTrip(n, 8);
  }

  /** Where the associated data of record `n` holds what. */
  lemma AadLayout(direction: byte, n: nat, transcript: Bytes)
    requires n < U64_LIMIT
    ensures var aad := MakeAad(direction, ToBigEndian(n, SEQUENCE_SIZE), transcript);
      && |aad| == 14 + |transcript| && aad[..4] == MAGIC && aad[4] == VERSION && aad[5] == direction
      && FromBigEndian(aad[6..14]) == n && aad[14..] == transcript
  {
    var aad := MakeAad(direction, ToBigEndian(n, SEQUENCE_SIZE), transcript);
    assert aad[6..14] == ToBigEndian(n, 8);
    Pow256At();
    BigEndianRoundTrip(n, 8);
  }

  /** Where the client's signed string and the six-field strings hold what. */
  lemma SignedLayout(p: Parties)
    requires SizedParties(p)
    ensures var a := ClientSignatureMessage(p.clientEphemeral, p.clientIdentity, p.clientNonce, p.serverIdentity);
      && |a| == 146 && a[..4] == MAGIC && a[4..17] == CLIENT_AUTH && a[17] == VERSION
      && a[18..50] == p.clientIdentity && a[50..82] == p.serverIdentity
      && a[82..114] == p.clientEphemeral && a[114..] == p.clientNonce
    ensures var b := ServerSignatureMessage(p);
      |b| == 210 && b[..4] == MAGIC && b[4..17] == SERVER_AUTH && b[17] == VERSION && HoldsFields(b[18..], p)
    ensures var c := TranscriptMessage(p);
      |c| == 209 && c[..4] == MAGIC && c[4..16] == TRANSCRIPT && c[16] == VERSION && HoldsFields(c[17..], p)
  {
    hide Fields;
    FieldsLayout(p);
    assert ServerSignatureMessage(p)[18..] == Fields(p);
    assert TranscriptMessage(p)[17..] == Fields(p);
  }

  /** Where a hello holds what. */
  lemma HelloLayout(kind: byte, hello: Hello)
    requires Sized(hello)
    ensures var data := EncodeHello(kind, hello);
      && |data| == 162 && data[0] == kind && data[1] == VERSION
      && data[2..34] == hello.identity && data[34..66] == hello.ephemeral
      && data[66..98] == hello.nonce && data[98..] == hello.signature
  {
    HelloRoundTrip(kind, hello);
    var data := EncodeHello(kind, hello);
    assert data[98..162] == data[98..];
  }

  // ------------------------------------------------------------------ the derived key block

  datatype KeyMaterial = KeyMaterial(
    clientToServerKey: Bytes,
    serverToClientKey: Bytes,
    clientToServerPrefix: Bytes,
    serverToClientPrefix: Bytes)

  /** Cut the expanded key block into two keys and two nonce prefixes without gap or overlap. */
  method SplitKeyBlock(block: Bytes) returns (r: Result<KeyMaterial, HelloError>)
    requires |block| == KEY_BLOCK_SIZE
    ensures r.Ok?
    ensures |r.value.clientToServerKey| == |r.value.serverToClientKey| == KEY_SIZE
    ensures |r.value.clientToServerPrefix| == |r.value.serverToClientPrefix| == NONCE_PREFIX_SIZE
    ensures r.value.clientToServerKey + r.value.serverToClientKey
            + r.value.clientToServerPrefix + r.value.serverToClientPrefix == block
  {
    var offset := 0;
    var c2s, s2c, c2sPrefix, s2cPrefix;
    c2s, offset := TakeArray(block, offset, KEY_SIZE);
    s2c, offset := TakeArray(block, offset, KEY_SIZE);
    c2sPrefix, offset := TakeArray(block, offset, NONCE_PREFIX_SIZE);
    s2cPrefix, offset := TakeArray(block, offset, NONCE_PREFIX_SIZE);
    assert offset == KEY_BLOCK_SIZE;
    return Ok(KeyMaterial(c2s.value, s2c.value, c2sPrefix.value, s2cPrefix.value));
  }
}
