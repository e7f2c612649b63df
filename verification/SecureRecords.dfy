/**
 Encrypted records: what a frame body looks like, when a receiver accepts one, and why a receiver
 that accepts only the exact next sequence delivers a prefix of what the peer sealed, on any wire.
 */
module SecureRecords {
  import opened ByteStrings
  import opened Wrappers
  import opened Protocol
  import Framing

  /** A traffic key as a term: the part of the HKDF output (section 2.3 of RFC 5869, idealised as injective)
      that belongs to one direction. The secret is the pair of ephemeral public keys, without order. */
  datatype Key = Key(secret: set<Bytes>, transcript: Bytes, part: byte)

  /** The constants of one traffic direction of one session. */
  datatype Lane = Lane(key: Key, prefix: Bytes, direction: byte, transcript: Bytes)

  /** What the authenticated cipher is asked to open. */
  datatype Query = Query(key: Key, nonce: Bytes, aad: Bytes, ciphertext: Bytes)

  /**
   The ideal authenticated cipher (section 2.8 of RFC 8439): a query opens exactly when its ciphertext was
   sealed under the same key, nonce and associated data and has been handed to the wire.
   */
  type Oracle = map<Query, Bytes>

  const MAX_PLAINTEXT_SIZE: nat := 64 * 1024 * 1024 - 25

  function Body(sequence: nat, ciphertext: Bytes): Bytes {
    [VERSION] + ToBigEndian(sequence, SEQUENCE_SIZE) + ciphertext
  }

  function QueryFor(lane: Lane, sequence: Bytes, ciphertext: Bytes): Query {
    Query(lane.key, MakeNonce(lane.prefix, sequence), MakeAad(lane.direction, sequence, lane.transcript), ciphertext)
  }

  datatype OpenError = TooShort | BadVersion | BadSequence(received: nat) | BadTag | ReceiveExhausted

  /** Every check of `receive` between reading a frame and returning its plaintext. */
  function Open(oracle: Oracle, lane: Lane, expected: nat, frame: Bytes): (r: Result<Bytes, OpenError>) {
    if |frame| < MIN_ENCRYPTED_SIZE then Err(TooShort)
    else if frame[0] != VERSION then Err(BadVersion)
    else
      var sequence := frame[1..HEADER_SIZE];
      if FromBigEndian(sequence) != expected then Err(BadSequence(FromBigEndian(sequence)))
      else
        var query := QueryFor(lane, sequence, frame[HEADER_SIZE..]);
        if query !in oracle then Err(BadTag)
        else if expected + 1 >= U64_LIMIT then Err(ReceiveExhausted)
        else Ok(oracle[query])
  }

  /** The binding's plaintext bound is exactly the core's frame-size check. */
  lemma PlaintextBound(plaintext: Bytes, sequence: nat, ciphertext: Bytes)
    requires |ciphertext| == |plaintext| + TAG_SIZE
    ensures |plaintext| <= MAX_PLAINTEXT_SIZE <==> Framing.Framable(Body(sequence, ciphertext))
    ensures |Body(sequence, ciphertext)| >= MIN_ENCRYPTED_SIZE
  {
  }

  lemma SequenceBytes(n: nat)
    requires n < U64_LIMIT
    ensures FromBigEndian(ToBigEndian(n, SEQUENCE_SIZE)) == n
  {
    Pow256At();
    BigEndianRoundTrip(n, SEQUENCE_SIZE);
  }

  /** Opening the body of a sealed record succeeds with its plaintext exactly at its own sequence; the
      receiver's exhaustion is reached only by the sequence number that no sender uses. */
  lemma OpenSealed(oracle: Oracle, lane: Lane, expected: nat, sequence: nat, plain: Bytes, ciphertext: Bytes)
    requires sequence < U64_LIMIT && |ciphertext| >= TAG_SIZE
    requires var q := QueryFor(lane, ToBigEndian(sequence, SEQUENCE_SIZE), ciphertext); q in oracle && oracle[q] == plain
    ensures Open(oracle, lane, expected, Body(sequence, ciphertext)) ==
      if expected != sequence then Err(BadSequence(sequence))
      else if sequence == U64_LIMIT - 1 then Err(ReceiveExhausted)
      else Ok(plain)
  {
    var frame := Body(sequence, ciphertext);
    SequenceBytes(sequence);
    assert frame[1..HEADER_SIZE] == ToBigEndian(sequence, SEQUENCE_SIZE);
    assert frame[HEADER_SIZE..] == ciphertext;
  }

  /** Where the body of record `n` holds what. */
  lemma RecordLayout(n: nat, ciphertext: Bytes)
    requires n < U64_LIMIT
    ensures var body := Body(n, ciphertext);
      |body| == 9 + |ciphertext| && body[0] == VERSION && FromBigEndian(body[1..9]) == n && body[9..] == ciphertext
  {
    assert Body(n, ciphertext)[1..9] == ToBigEndian(n, SEQUENCE_SIZE);
    SequenceBytes(n);
  }

  // ------------------------------------------------------------------ who sealed what

  /** Everything in the oracle that could open in this lane was sealed in it as the record of that
      sequence number; entries of other keys, directions and sessions are unrestricted. */
  ghost predicate Honest(oracle: Oracle, lane: Lane, sent: seq<Bytes>) {
    forall q, n: nat :: q in oracle && n < U64_LIMIT && OpensAt(q, lane, n) ==> n < |sent| && oracle[q] == sent[n]
  }

  predicate OpensAt(q: Query, lane: Lane, n: nat) {
    && q.key == lane.key
    && q.aad == MakeAad(lane.direction, ToBigEndian(n, SEQUENCE_SIZE), lane.transcript)
  }

  datatype Sealed = Sealed(plain: Bytes, ciphertext: Bytes)

  function Plains(records: seq<Sealed>): (plains: seq<Bytes>)
    ensures |plains| == |records|
    ensures forall i :: 0 <= i < |records| ==> plains[i] == records[i].plain
  {
    seq(|records|, i requires 0 <= i < |records| => records[i].plain)
  }

  function QueryOf(lane: Lane, records: seq<Sealed>, i: nat): Query
    requires i < |records|
  {
    QueryFor(lane, ToBigEndian(i, SEQUENCE_SIZE), records[i].ciphertext)
  }

  /** The oracle entries of a lane's records, in sequence order. */
  function SealedIn(lane: Lane, records: seq<Sealed>): Oracle {
    if records == [] then map[]
    else
      var n := |records| - 1;
      SealedIn(lane, records[..n])[QueryOf(lane, records, n) := records[n].plain]
  }

  /** Every entry of a lane's oracle belongs to one of its records. */
  lemma {:induction false} EntryHasRecord(lane: Lane, records: seq<Sealed>, q: Query) returns (i: nat)
    requires q in SealedIn(lane, records)
    ensures i < |records| && q == QueryOf(lane, records, i)
  {
    var n := |records| - 1;
    if q == QueryOf(lane, records, n) {
      i := n;
    } else {
      i := EntryHasRecord(lane, records[..n], q);
    }
  }

  /** Every record of a lane opens in its oracle with its own plaintext. */
  lemma {:induction false} RecordHasEntry(lane: Lane, records: seq<Sealed>, i: nat)
    requires i < |records| <= U64_LIMIT
    ensures QueryOf(lane, records, i) in SealedIn(lane, records)
    ensures SealedIn(lane, records)[QueryOf(lane, records, i)] == records[i].plain
  {
    var n := |records| - 1;
    if i < n {
      RecordHasEntry(lane, records[..n], i);
      NonceUnique(lane.prefix, i, n);
    }
  }

  /** A lane's own records are honest beside entries that open nowhere in the lane. */
  lemma SealedIsHonest(lane: Lane, records: seq<Sealed>, foreign: Oracle)
    requires |records| <= U64_LIMIT && Honest(foreign, lane, [])
    ensures Honest(foreign + SealedIn(lane, records), lane, Plains(records))
  {
    var oracle := foreign + SealedIn(lane, records);
    forall q, n: nat | q in oracle && n < U64_LIMIT && OpensAt(q, lane, n)
      ensures n < |records| && oracle[q] == records[n].plain
    {
      if q in SealedIn(lane, records) {
        var i := EntryHasRecord(lane, records, q);
        RecordHasEntry(lane, records, i);
        SameSequence(lane, lane, i, n);
      }
    }
  }

  /** Reflection and cross-session replay: the records of a lane that differs in key, direction or
      transcript open nowhere in this one. */
  lemma OtherLaneOpensNothing(lane: Lane, other: Lane, records: seq<Sealed>)
    requires |records| <= U64_LIMIT
    requires lane.key != other.key || lane.direction != other.direction || lane.transcript != other.transcript
    ensures Honest(SealedIn(other, records), lane, [])
  {
    forall q, n: nat | q in SealedIn(other, records) && n < U64_LIMIT ensures !OpensAt(q, lane, n) {
      var i := EntryHasRecord(other, records, q);
      SameSequence(lane, other, i, n);
    }
  }

  lemma SameSequence(lane: Lane, other: Lane, i: nat, n: nat)
    requires i < U64_LIMIT && n < U64_LIMIT
    ensures MakeAad(other.direction, ToBigEndian(i, SEQUENCE_SIZE), other.transcript)
            == MakeAad(lane.direction, ToBigEndian(n, SEQUENCE_SIZE), lane.transcript)
            <==> other.direction == lane.direction && i == n && other.transcript == lane.transcript
  {
    AadInjective(other.direction, ToBigEndian(i, SEQUENCE_SIZE), other.transcript,
                 lane.direction, ToBigEndian(n, SEQUENCE_SIZE), lane.transcript);
    SequenceBytes(i);
    SequenceBytes(n);
  }

  // ------------------------------------------------------------------ any wire

  /** What a receiver has done: the next sequence it requires and what it returned. */
  datatype Progress = Progress(sequence: nat, delivered: seq<Bytes>)

  function Accept(oracle: Oracle, lane: Lane, p: Progress, frame: Bytes): Progress {
    match Open(oracle, lane, p.sequence, frame)
    case Ok(plain) => Progress(p.sequence + 1, p.delivered + [plain])
    case Err(_) => p
  }

  /** One frame read from the wire, with the oracle and the peer's records at that moment. */
  datatype Arrival = Arrival(oracle: Oracle, sent: seq<Bytes>, frame: Bytes)

  function AcceptAll(lane: Lane, arrivals: seq<Arrival>): Progress {
    if arrivals == [] then Progress(0, [])
    else
      var last := arrivals[|arrivals| - 1];
      Accept(last.oracle, lane, AcceptAll(lane, arrivals[..|arrivals| - 1]), last.frame)
  }

  lemma AcceptedIsNext(oracle: Oracle, lane: Lane, expected: nat, frame: Bytes, sent: seq<Bytes>)
    requires Honest(oracle, lane, sent) && expected < U64_LIMIT
    ensures Open(oracle, lane, expected, frame).Ok? ==>
      expected + 1 < U64_LIMIT && expected < |sent| && Open(oracle, lane, expected, frame).value == sent[expected]
  {
    if Open(oracle, lane, expected, frame).Ok? {
      var sequence := frame[1..HEADER_SIZE];
      BigEndianInverse(sequence);
      assert OpensAt(QueryFor(lane, sequence, frame[HEADER_SIZE..]), lane, expected);
    }
  }

  /**
   Prefix delivery on an arbitrary wire. The frames may be any splice, replay, reordering, reflection,
   truncation or corruption, chosen with knowledge of everything sealed so far; the receiver's
   plaintexts are at every moment a prefix of the peer's, and its counter is their number.
   */
  lemma {:induction false} PrefixDelivery(lane: Lane, arrivals: seq<Arrival>)
    requires forall i :: 0 <= i < |arrivals| ==> Honest(arrivals[i].oracle, lane, arrivals[i].sent)
    requires forall i, j :: 0 <= i < j < |arrivals| ==> arrivals[i].sent <= arrivals[j].sent
    ensures var p := AcceptAll(lane, arrivals);
      && p.sequence == |p.delivered| < U64_LIMIT
      && (arrivals != [] ==> p.delivered <= arrivals[|arrivals| - 1].sent)
      && (arrivals == [] ==> p.delivered == [])
  {
    if arrivals != [] {
      var n := |arrivals| - 1;
      PrefixDelivery(lane, arrivals[..n]);
      var p := AcceptAll(lane, arrivals[..n]);
      AcceptedIsNext(arrivals[n].oracle, lane, p.sequence, arrivals[n].frame, arrivals[n].sent);
    }
  }
}
