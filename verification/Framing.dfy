/**
 Length-prefixed frames over a byte stream: the encoding, its unique parse, and the two loops that
 reassemble frames from arbitrary chunks.
 */
module Framing {
  import opened ByteStrings
  import opened Wrappers

  const MAX_FRAME_SIZE: nat := 64 * 1024 * 1024
  const FRAME_LENGTH_SIZE: nat := 4

  predicate Framable(payload: Bytes) {
    0 < |payload| <= MAX_FRAME_SIZE
  }

  function EncodeFrame(payload: Bytes): Bytes {
    ToBigEndian(|payload|, FRAME_LENGTH_SIZE) + payload
  }

  function EncodeFrames(payloads: seq<Bytes>): Bytes {
    if payloads == [] then []
    else EncodeFrames(payloads[..|payloads| - 1]) + EncodeFrame(payloads[|payloads| - 1])
  }

  datatype Parse =
    | Incomplete
    | ZeroLength
    | TooLarge(size: nat)
    | Frame(payload: Bytes, rest: Bytes)

  /** What the stream starts with. */
  function ParseFrame(stream: Bytes): Parse {
    if |stream| < FRAME_LENGTH_SIZE then Incomplete
    else
      var size := FromBigEndian(stream[..FRAME_LENGTH_SIZE]);
      if size == 0 then ZeroLength
      else if size > MAX_FRAME_SIZE then TooLarge(size)
      else if |stream| < FRAME_LENGTH_SIZE + size then Incomplete
      else Frame(stream[FRAME_LENGTH_SIZE..FRAME_LENGTH_SIZE + size], stream[FRAME_LENGTH_SIZE + size..])
  }

  /** All complete frames at the front of the stream. */
  function ParseFrames(stream: Bytes): seq<Bytes>
    decreases |stream|
  {
    match ParseFrame(stream)
    case Frame(payload, rest) => [payload] + ParseFrames(rest)
    case _ => []
  }

  lemma LengthRoundTrip(size: nat)
    requires size <= MAX_FRAME_SIZE
    ensures FromBigEndian(ToBigEndian(size, FRAME_LENGTH_SIZE)) == size
  {
    Pow256At();
    BigEndianRoundTrip(size, FRAME_LENGTH_SIZE);
  }

  /** A frame followed by anything parses to its payload and exactly what followed. */
  lemma ParseEncoded(payload: Bytes, rest: Bytes)
    requires Framable(payload)
    ensures ParseFrame(EncodeFrame(payload) + rest) == Frame(payload, rest)
  {
    var stream := EncodeFrame(payload) + rest;
    LengthRoundTrip(|payload|);
    assert stream[..4] == ToBigEndian(|payload|, 4);
    assert stream[4..4 + |payload|] == payload && stream[4 + |payload|..] == rest;
  }

  /** What parses as a frame is that frame's encoding followed by the rest. */
  lemma EncodeParsed(stream: Bytes)
    ensures var p := ParseFrame(stream);
      p.Frame? ==> Framable(p.payload) && EncodeFrame(p.payload) + p.rest == stream
  {
    if ParseFrame(stream).Frame? {
      BigEndianInverse(stream[..4]);
      assert stream[..4] + stream[4..4 + |ParseFrame(stream).payload|] + ParseFrame(stream).rest == stream;
    }
  }

  /** A strict prefix of a frame never yields a payload, and never an error. */
  lemma StrictPrefixIncomplete(payload: Bytes, part: Bytes)
    requires Framable(payload) && part <= EncodeFrame(payload) && part != EncodeFrame(payload)
    ensures ParseFrame(part) == Incomplete
  {
    LengthRoundTrip(|payload|);
    if |part| >= 4 {
      assert part[..4] == EncodeFrame(payload)[..4] == ToBigEndian(|payload|, 4);
    }
  }

  /** The encoding is prefix-free: of two frames neither is a prefix of the other unless equal. */
  lemma PrefixFree(left: Bytes, right: Bytes)
    requires Framable(left) && Framable(right) && EncodeFrame(left) <= EncodeFrame(right)
    ensures left == right
  {
    ParseEncoded(left, []);
    assert EncodeFrame(left) + [] == EncodeFrame(left);
    if EncodeFrame(left) != EncodeFrame(right) {
      StrictPrefixIncomplete(right, EncodeFrame(left));
    } else {
      ParseEncoded(right, []);
      assert EncodeFrame(right) + [] == EncodeFrame(right);
    }
  }

  lemma {:induction false} EncodeFramesCons(payload: Bytes, payloads: seq<Bytes>)
    ensures EncodeFrames([payload] + payloads) == EncodeFrame(payload) + EncodeFrames(payloads)
  {
    if payloads == [] {
      assert [payload] + payloads == [payload] && [payload][..0] == [];
    } else {
      var init := payloads[..|payloads| - 1];
      var all, last := [payload] + payloads, payloads[|payloads| - 1];
      EncodeFramesCons(payload, init);
      assert all[..|all| - 1] == [payload] + init && all[|all| - 1] == last;
      assert EncodeFrames(all) == EncodeFrames([payload] + init) + EncodeFrame(last);
      assert EncodeFrames(payloads) == EncodeFrames(init) + EncodeFrame(last);
    }
  }

  /**
   Reassembly inverts framing: whatever part of the next frame has arrived, the complete frames in
   front of it are exactly the payloads that were written.
   */
  lemma {:induction false} ReassemblyInvertsFraming(payloads: seq<Bytes>, next: Bytes, part: Bytes)
    requires forall i :: 0 <= i < |payloads| ==> Framable(payloads[i])
    requires Framable(next) && part <= EncodeFrame(next) && part != EncodeFrame(next)
    ensures ParseFrames(EncodeFrames(payloads) + part) == payloads
  {
    if payloads == [] {
      assert EncodeFrames(payloads) + part == part;
      StrictPrefixIncomplete(next, part);
    } else {
      var first, others := payloads[0], payloads[1..];
      assert payloads == [first] + others;
      EncodeFramesCons(first, others);
      var rest := EncodeFrames(others) + part;
      assert EncodeFrames(payloads) + part == EncodeFrame(first) + rest;
      ParseEncoded(first, rest);
      ReassemblyInvertsFraming(others, next, part);
    }
  }

  /** Complete frames in front of any stream come off it first. */
  lemma {:induction false} ParseFramesAppend(payloads: seq<Bytes>, rest: Bytes)
    requires forall i :: 0 <= i < |payloads| ==> Framable(payloads[i])
    ensures ParseFrames(EncodeFrames(payloads) + rest) == payloads + ParseFrames(rest)
  {
    if payloads == [] {
      assert EncodeFrames(payloads) + rest == rest;
    } else {
      SplitFirst(payloads, rest);
      ParseFramesAppend(payloads[1..], rest);
      ParseFirst(payloads[0], EncodeFrames(payloads[1..]) + rest);
      FirstThenOthers(payloads, ParseFrames(rest));
    }
  }

  lemma SplitFirst(payloads: seq<Bytes>, rest: Bytes)
    requires payloads != []
    ensures EncodeFrames(payloads) + rest == EncodeFrame(payloads[0]) + (EncodeFrames(payloads[1..]) + rest)
  {
    assert payloads == [payloads[0]] + payloads[1..];
    EncodeFramesCons(payloads[0], payloads[1..]);
    Associative(EncodeFrame(payloads[0]), EncodeFrames(payloads[1..]), rest);
  }

  lemma FirstThenOthers(payloads: seq<Bytes>, more: seq<Bytes>)
    requires payloads != []
    ensures [payloads[0]] + (payloads[1..] + more) == payloads + more
  {
  }

  lemma ParseFirst(first: Bytes, rest: Bytes)
    requires Framable(first)
    ensures ParseFrames(EncodeFrame(first) + rest) == [first] + ParseFrames(rest)
  {
    ParseEncoded(first, rest);
  }

  /** A list of written frames, then at most a strict prefix of one more. */
  ghost predicate FramedStream(stream: Bytes, payloads: seq<Bytes>, part: Bytes) {
    && stream == EncodeFrames(payloads) + part
    && (forall i :: 0 <= i < |payloads| ==> Framable(payloads[i]))
    && (part == [] || exists next :: StrictlyBegins(part, next))
  }

  predicate StrictlyBegins(part: Bytes, next: Bytes) {
    Framable(next) && part <= EncodeFrame(next) && part != EncodeFrame(next)
  }

  lemma FramedStreamParses(stream: Bytes, payloads: seq<Bytes>, part: Bytes)
    requires FramedStream(stream, payloads, part)
    ensures ParseFrames(stream) == payloads
  {
    if part == [] {
      ParseFramesAppend(payloads, []);
    } else {
      var next :| StrictlyBegins(part, next);
      ReassemblyInvertsFraming(payloads, next, part);
    }
  }

  /** Frames read off the front of a written stream are the first frames that were written. */
  lemma ReadFramesAreWritten(stream: Bytes, payloads: seq<Bytes>, part: Bytes, taken: seq<Bytes>, rest: Bytes)
    requires FramedStream(stream, payloads, part)
    requires forall i :: 0 <= i < |taken| ==> Framable(taken[i])
    requires stream == EncodeFrames(taken) + rest
    ensures taken <= payloads
    ensures rest == [] ==> taken == payloads && part == []
  {
    FramedStreamParses(stream, payloads, part);
    ParseFramesAppend(taken, rest);
    assert payloads == taken + ParseFrames(rest);
    if rest == [] {
      assert taken == payloads;
      assert EncodeFrames(payloads) + part == EncodeFrames(payloads) + [];
      assert |part| == 0;
    }
  }

  /** Behind frames that have been read, a written stream continues with a good length. */
  lemma NextLengthIsGood(stream: Bytes, payloads: seq<Bytes>, part: Bytes, taken: seq<Bytes>, rest: Bytes)
    requires FramedStream(stream, payloads, part)
    requires forall i :: 0 <= i < |taken| ==> Framable(taken[i])
    requires stream == EncodeFrames(taken) + rest && |rest| >= FRAME_LENGTH_SIZE
    ensures 0 < FromBigEndian(rest[..FRAME_LENGTH_SIZE]) <= MAX_FRAME_SIZE
  {
    ReadFramesAreWritten(stream, payloads, part, taken, rest);
    var left := payloads[|taken|..];
    assert payloads == taken + left;
    EncodeFramesAppend(taken, left);
    Associative(EncodeFrames(taken), EncodeFrames(left), part);
    CancelFront(EncodeFrames(taken), rest, EncodeFrames(left) + part);
    NextLength(left, part, rest);
  }

  lemma NextLength(left: seq<Bytes>, part: Bytes, rest: Bytes)
    requires FramedStream(rest, left, part) && |rest| >= FRAME_LENGTH_SIZE
    ensures 0 < FromBigEndian(rest[..FRAME_LENGTH_SIZE]) <= MAX_FRAME_SIZE
  {
    if left == [] {
      var next :| StrictlyBegins(part, next);
      LengthRoundTrip(|next|);
      assert rest[..FRAME_LENGTH_SIZE] == EncodeFrame(next)[..FRAME_LENGTH_SIZE];
      assert EncodeFrame(next)[..FRAME_LENGTH_SIZE] == ToBigEndian(|next|, FRAME_LENGTH_SIZE);
    } else {
      assert left == [left[0]] + left[1..];
      EncodeFramesCons(left[0], left[1..]);
      LengthRoundTrip(|left[0]|);
      assert rest[..FRAME_LENGTH_SIZE] == ToBigEndian(|left[0]|, FRAME_LENGTH_SIZE);
    }
  }

  lemma {:induction false} EncodeFramesAppend(left: seq<Bytes>, right: seq<Bytes>)
    ensures EncodeFrames(left + right) == EncodeFrames(left) + EncodeFrames(right)
  {
    if right == [] {
      assert left + right == left;
    } else {
      var init, all := right[..|right| - 1], left + right;
      EncodeFramesAppend(left, init);
      assert all[..|all| - 1] == left + init && all[|all| - 1] == right[|right| - 1];
    }
  }

  // ------------------------------------------------------------------ the reading loops

  datatype ReceiveResult = Data(bytes: Bytes) | EndOfStream | Failed

  datatype ReadError = ZeroRead | Ended | TransportFailed | ZeroLengthFrame | FrameTooLarge(size: nat)

  /**
   The receive side of a connection as the secure layer uses it. `arrived` is everything that the
   peer's transport has accepted so far and `position` the part of it already handed out; more bytes
   may arrive, the stream may end and a call may fail at any time. What `Receive` promises here is
   what the transport theorems `OrderedReads` and `ReadReturnsNext` prove of the core. `failures` and
   `empties` count its errors and the empty chunks that it returned for a non-empty buffer.
   */
  class Inbound {
    var arrived: Bytes
    var ended: bool
    var position: nat
    ghost var failures: nat
    ghost var empties: nat

    ghost predicate Valid()
      reads this
    {
      position <= |arrived|
    }

    constructor ()
      ensures Valid() && arrived == [] && position == 0 && !ended && failures == 0 && empties == 0
    {
      arrived, ended, position, failures, empties := [], false, 0, 0, 0;
    }

    method Receive(cap: nat) returns (r: ReceiveResult)
      requires Valid()
      modifies this
      ensures Valid() && old(arrived) <= arrived && (old(ended) ==> ended && arrived == old(arrived))
      ensures r.Data? ==> |r.bytes| <= cap && position == old(position) + |r.bytes|
                          && r.bytes == arrived[old(position)..position]
      ensures !r.Data? ==> position == old(position)
      ensures r.EndOfStream? ==> ended && position == |arrived|
      ensures failures == old(failures) + (if r.Failed? then 1 else 0)
      ensures empties == old(empties) + (if r == Data([]) && cap > 0 then 1 else 0)
    {
      var more: Bytes, ends: bool, count: nat := *, *, *;
      if !ended {
        arrived, ended := arrived + more, ends;
      }
      if count <= cap && position + count <= |arrived| {
        position := position + count;
        empties := empties + (if count == 0 && cap > 0 then 1 else 0);
        return Data(arrived[position - count..position]);
      }
      if ended && position == |arrived| {
        return EndOfStream;
      }
      failures := failures + 1;
      return Failed;
    }
  }

  /** Bytes that have arrived stay where they are. */
  twostate predicate Arrived(connection: Inbound)
    reads connection
  {
    && old(connection.arrived) <= connection.arrived
    && old(connection.position) <= connection.position
    && (old(connection.ended) ==> connection.ended && connection.arrived == old(connection.arrived))
  }

  /**
   Reassemble exactly `size` bytes. On success they are the next `size` bytes of the stream, however
   it was chunked; the error tells why fewer were read, and everything read by then is consumed. It gives
   up only upon an error, an empty chunk, or the end of the stream: a short chunk is not a reason.
   */
  method ReadExact(connection: Inbound, size: nat) returns (r: Result<Bytes, ReadError>)
    requires connection.Valid()
    modifies connection
    ensures connection.Valid() && Arrived(connection)
    ensures connection.position <= old(connection.position) + size
    ensures r.Ok? ==> connection.position == old(connection.position) + size
                      && r.value == connection.arrived[old(connection.position)..connection.position]
    ensures r.Err? ==> connection.position < old(connection.position) + size
                       && (r.error.ZeroRead? || r.error.Ended? || r.error.TransportFailed?)
    ensures r == Err(Ended) ==> connection.ended && connection.position == |connection.arrived|
    ensures connection.failures == old(connection.failures) + (if r == Err(TransportFailed) then 1 else 0)
    ensures connection.empties == old(connection.empties) + (if r == Err(ZeroRead) then 1 else 0)
  {
    var result: Bytes := [];
    var offset := 0;
    while offset < size
      invariant connection.Valid() && Arrived(connection)
      invariant offset <= size && connection.position == old(connection.position) + offset
      invariant result == connection.arrived[old(connection.position)..connection.position]
      invariant connection.failures == old(connection.failures) && connection.empties == old(connection.empties)
    {
      var chunk := connection.Receive(size - offset);
      match chunk
      case Data(bytes) =>
        if bytes == [] {
          return Err(ZeroRead);
        }
        result := result + bytes;
        offset := offset + |bytes|;
      case EndOfStream =>
        return Err(Ended);
      case Failed =>
        return Err(TransportFailed);
    }
    return Ok(result);
  }

  /**
   Read one frame. Success and the two format errors are decided by the bytes of the stream alone,
   exactly as `ParseFrame` says; the other errors have their cause in the connection.
   */
  method ReadFrame(connection: Inbound) returns (r: Result<Bytes, ReadError>)
    requires connection.Valid()
    modifies connection
    ensures connection.Valid() && Arrived(connection)
    ensures r.Ok? ==> Framable(r.value)
    ensures r.Ok? ==> ParseFrame(connection.arrived[old(connection.position)..])
                      == Frame(r.value, connection.arrived[connection.position..])
    ensures r == Err(ZeroLengthFrame) ==> ParseFrame(connection.arrived[old(connection.position)..]).ZeroLength?
    ensures r.Err? && r.error.FrameTooLarge? ==>
      ParseFrame(connection.arrived[old(connection.position)..]) == TooLarge(r.error.size)
    ensures r == Err(Ended) ==> connection.ended && ParseFrame(connection.arrived[old(connection.position)..]) == Incomplete
    ensures connection.failures == old(connection.failures) + (if r == Err(TransportFailed) then 1 else 0)
    ensures connection.empties == old(connection.empties) + (if r == Err(ZeroRead) then 1 else 0)
  {
    ghost var start := connection.position;
    var header := ReadExact(connection, FRAME_LENGTH_SIZE);
    if header.Err? {
      return Err(header.error);
    }
    var size := FromBigEndian(header.value);
    assert connection.arrived[start..][..FRAME_LENGTH_SIZE] == header.value;
    if size == 0 {
      return Err(ZeroLengthFrame);
    }
    if size > MAX_FRAME_SIZE {
      return Err(FrameTooLarge(size));
    }
    label body:
    r := ReadExact(connection, size);
    assert connection.arrived[start..][..FRAME_LENGTH_SIZE] == header.value;
    if r.Ok? {
      assert connection.arrived[start..][FRAME_LENGTH_SIZE..FRAME_LENGTH_SIZE + size] == r.value;
      assert connection.arrived[start..][FRAME_LENGTH_SIZE + size..] == connection.arrived[connection.position..];
    }
  }

  // ------------------------------------------------------------------ the write side

  datatype WriteError = EmptyFrame | FrameTooLong | SendFailed

  /**
   The send side of a connection as the secure layer uses it. What `Send` promises is what the
   transport theorem `SafeRetry` proves of the core: success means the whole buffer, an error means a
   strict prefix, and a non-empty prefix only together with closure. `failures` counts the errors.
   */
  class Outbound {
    var wire: Bytes
    var closed: bool
    ghost var failures: nat

    constructor ()
      ensures wire == [] && !closed && failures == 0
    {
      wire, closed, failures := [], false, 0;
    }

    method Send(data: Bytes) returns (ok: bool)
      modifies this
      ensures old(closed) ==> closed && (data != [] ==> !ok) && wire == old(wire)
      ensures ok ==> wire == old(wire) + data
      ensures !ok ==> old(wire) <= wire < old(wire) + data
      ensures !ok && wire != old(wire) ==> closed
      ensures failures == old(failures) + (if ok then 0 else 1)
    {
      var count: nat, closes: bool := *, *;
      if data == [] {
        return true;
      }
      if closed || count == 0 || count > |data| {
        closed, failures := closed || closes, failures + 1;
        return false;
      }
      wire := wire + data[..count];
      ok := count == |data|;
      failures := failures + (if ok then 0 else 1);
      closed := !ok || closes;
    }
  }

  /** Submit one frame as a single ordered send; a payload of a bad size touches nothing. */
  method WriteFrame(connection: Outbound, payload: Bytes) returns (r: Result<(), WriteError>)
    modifies connection
    ensures r.Ok? ==> Framable(payload) && connection.wire == old(connection.wire) + EncodeFrame(payload)
    ensures r == Err(EmptyFrame) <==> payload == []
    ensures r == Err(FrameTooLong) <==> |payload| > MAX_FRAME_SIZE
    ensures !Framable(payload) ==> connection.wire == old(connection.wire) && connection.closed == old(connection.closed)
    ensures r.Err? ==> old(connection.wire) <= connection.wire <= old(connection.wire) + EncodeFrame(payload)
    ensures r.Err? ==> connection.wire == old(connection.wire)
                       || (connection.closed && connection.wire != old(connection.wire) + EncodeFrame(payload))
    ensures old(connection.closed) ==> connection.closed && connection.wire == old(connection.wire) && r.Err?
    ensures connection.failures == old(connection.failures) + (if r == Err(SendFailed) then 1 else 0)
  {
    if payload == [] {
      return Err(EmptyFrame);
    }
    if |payload| > MAX_FRAME_SIZE {
      return Err(FrameTooLong);
    }
    var frame: Bytes := [];
    frame := frame + ToBigEndian(|payload|, FRAME_LENGTH_SIZE);
    frame := frame + payload;
    var ok := connection.Send(frame);
    return if ok then Ok(()) else Err(SendFailed);
  }
}
