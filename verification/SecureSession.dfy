/**
 The secure connection object: `send` and `receive` as they are written, over the frame reader and writer.
 The two sequence counters change in place, each under its own lock, so a call here is one critical section.
 */
module SecureSession {
  import opened ByteStrings
  import opened Wrappers
  import opened Protocol
  import opened Framing
  import opened SecureRecords
  import S = Sender

  datatype SendError = SendExhausted | Frame(error: WriteError)

  datatype ReceiveError = Stream(read: ReadError) | Record(why: OpenError)

  class SecureConnection {
    const outbound: Outbound
    const inbound: Inbound
    const sendLane: Lane
    const receiveLane: Lane
    var sendSequence: nat
    var receiveSequence: nat
    ghost const base: Bytes
    ghost var records: seq<Sealed>
    ghost var delivered: seq<Bytes>

    /** Each counter is the number of successes; while the connection is open the wire is exactly the records. */
    ghost predicate Valid()
      reads this, outbound, inbound
    {
      && inbound.Valid()
      && sendSequence == |records| < U64_LIMIT && receiveSequence == |delivered| < U64_LIMIT
      && base + S.OnWire(records) <= outbound.wire
      && (!outbound.closed ==> outbound.wire == base + S.OnWire(records))
    }

    constructor (outbound: Outbound, inbound: Inbound, sendLane: Lane, receiveLane: Lane)
      requires inbound.Valid()
      ensures Valid() && this.outbound == outbound && this.inbound == inbound
      ensures this.sendLane == sendLane && this.receiveLane == receiveLane
      ensures sendSequence == 0 && receiveSequence == 0 && records == [] && delivered == []
    {
      this.outbound, this.inbound, this.sendLane, this.receiveLane := outbound, inbound, sendLane, receiveLane;
      sendSequence, receiveSequence, records, delivered := 0, 0, [], [];
      base := outbound.wire;
      new;
      assert S.Bodies([]) == [];
    }

    /**
     Encrypt under the current number, submit one frame, and advance only if the whole frame went out.
     `ciphertext` is what the cipher yields for this plaintext, key, nonce and associated data.
     */
    method Send(plaintext: Bytes, ciphertext: Bytes) returns (r: Result<(), SendError>)
      requires Valid() && |ciphertext| == |plaintext| + TAG_SIZE
      modifies this`sendSequence, this`records, outbound
      ensures Valid()
      ensures r == Err(SendExhausted) <==> old(sendSequence) == U64_LIMIT - 1
      ensures r == Err(SendError.Frame(FrameTooLong)) <==>
        old(sendSequence) < U64_LIMIT - 1 && |plaintext| > MAX_PLAINTEXT_SIZE
      ensures r != Err(SendError.Frame(EmptyFrame))
      ensures r.Ok? ==> records == old(records) + [Sealed(plaintext, ciphertext)]
      ensures r.Ok? ==> sendSequence == old(sendSequence) + 1
      ensures r.Ok? ==>
        outbound.wire == old(outbound.wire) + EncodeFrame(Body(old(sendSequence), ciphertext))
      ensures r.Err? ==> sendSequence == old(sendSequence) && records == old(records)
      ensures r.Err? ==> outbound.wire == old(outbound.wire) || outbound.closed
      ensures r.Err? && !r.error.Frame? ==> outbound.wire == old(outbound.wire)
      ensures outbound.failures == old(outbound.failures) + (if r == Err(SendError.Frame(SendFailed)) then 1 else 0)
    {
      var sequence := sendSequence;
      var next := sequence + 1;
      if next >= U64_LIMIT {
        return Err(SendExhausted);
      }
      var sequenceBytes := ToBigEndian(sequence, SEQUENCE_SIZE);
      var frame: Bytes := [];
      frame := frame + [VERSION];
      frame := frame + sequenceBytes;
      frame := frame + ciphertext;
      assert frame == Body(sequence, ciphertext);
      PlaintextBound(plaintext, sequence, ciphertext);
      S.OnWireAppend(records, Sealed(plaintext, ciphertext));
      Associative(base, S.OnWire(records), EncodeFrame(frame));
      var written := WriteFrame(outbound, frame);
      if written.Err? {
        return Err(SendError.Frame(written.error));
      }
      sendSequence := next;
      records := records + [Sealed(plaintext, ciphertext)];
      return Ok(());
    }

    /**
     Read one frame and open it at exactly the next number. Success and every record error are what `Open`
     says of the next frame on the stream; only success advances the counter.
     */
    method Receive(oracle: Oracle) returns (r: Result<Bytes, ReceiveError>)
      requires Valid()
      modifies this`receiveSequence, this`delivered, inbound
      ensures Valid() && Arrived(inbound)
      ensures r.Ok? || r.error.Record? ==>
        exists frame: Bytes :: Framable(frame)
          && ParseFrame(inbound.arrived[old(inbound.position)..]) == Parse.Frame(frame, inbound.arrived[inbound.position..])
          && (r.Ok? ==> Open(oracle, receiveLane, old(receiveSequence), frame) == Result.Ok(r.value))
          && (r.Err? ==> Open(oracle, receiveLane, old(receiveSequence), frame) == Result.Err(r.error.why))
      ensures r.Ok? ==> receiveSequence == old(receiveSequence) + 1 && delivered == old(delivered) + [r.value]
      ensures r.Err? ==> receiveSequence == old(receiveSequence) && delivered == old(delivered)
      ensures r == Err(Record(ReceiveExhausted)) ==> old(receiveSequence) == U64_LIMIT - 1
      ensures r == Err(Stream(ZeroLengthFrame)) ==> ParseFrame(inbound.arrived[old(inbound.position)..]).ZeroLength?
      ensures r.Err? && r.error.Stream? && r.error.read.FrameTooLarge? ==>
        ParseFrame(inbound.arrived[old(inbound.position)..]) == TooLarge(r.error.read.size)
      ensures r == Err(Stream(Ended)) ==>
        inbound.ended && ParseFrame(inbound.arrived[old(inbound.position)..]) == Incomplete
      ensures inbound.failures == old(inbound.failures) + (if r == Err(Stream(TransportFailed)) then 1 else 0)
      ensures inbound.empties == old(inbound.empties) + (if r == Err(Stream(ZeroRead)) then 1 else 0)
    {
      var read := ReadFrame(inbound);
      if read.Err? {
        return Err(Stream(read.error));
      }
      var frame := read.value;
      if |frame| < MIN_ENCRYPTED_SIZE {
        return Err(Record(TooShort));
      }
      if frame[0] != VERSION {
        return Err(Record(BadVersion));
      }
      var sequenceBytes := frame[1..HEADER_SIZE];
      var received := FromBigEndian(sequenceBytes);
      if received != receiveSequence {
        return Err(Record(BadSequence(received)));
      }
      var nonce := MakeNonce(receiveLane.prefix, sequenceBytes);
      var aad := MakeAad(receiveLane.direction, sequenceBytes, receiveLane.transcript);
      var query := Query(receiveLane.key, nonce, aad, frame[HEADER_SIZE..]);
      if query !in oracle {
        return Err(Record(BadTag));
      }
      if receiveSequence + 1 >= U64_LIMIT {
        return Err(Record(ReceiveExhausted));
      }
      var plaintext := oracle[query];
      receiveSequence := receiveSequence + 1;
      delivered := delivered + [plaintext];
      return Ok(plaintext);
    }
  }
}
