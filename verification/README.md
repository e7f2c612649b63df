# Taunicorn: a verified model

Taunicorn is a local-socket transport with an encrypted session layer and Python bindings. All of its
difficulty is shared state under concurrency: a full-duplex byte stream whose operations are cancelled,
paused, half-closed, closed and dropped at any await point, a handshake and a record layer on top of it,
and a binding that must not let a cancelled future damage the stream. This project models those parts in
Dafny and proves what they promise over all runs.

## How the model is built

- **Transport core.** `Transport` is a step machine at the granularity of single atomic actions: a load, a
  store, a swap, a lock, one branch of a `select!`, one result of the operating system. Every call has a
  program point; every list of events is a run, because an event that is not enabled changes nothing.
  The operating system takes any non-empty part of a write and yields any non-empty part of what arrived.
  A ghost account keeps the wire, the order in which data writers took the write gate, and the bytes
  handed out. `TransportSafety` proves the invariant by rely and guarantee, `TransportTheorems` the
  consequences, `WireGrowth` says for every reachable state whether the wire can still grow, `CallResults` what
  stops a call and why each result is returned, and `Connection` is the object with its methods in the shape in which they are written:
  between any two of their atomic actions everybody else may move, and each method is proved to be a run
  of the machine.
- **Framing and records.** `Protocol` and `Framing` are the byte layouts, the codecs and the two reassembly
  loops; `SecureRecords` says when a received frame opens; `SecureSession` is the object with its two
  counters. The authenticated cipher is a table that opens exactly what was sealed (section 2.8 of RFC 8439).
- **Sessions on the transport.** `Sender` and `Receiver` run the two directions on the transport machine,
  `EndToEnd` connects a sender and a receiver by a pipe. The two need not begin together: a direction starts
  in any state in which the sender may already have written frames and the receiver has not finished one
  (`EndToEnd.Opened`). `FrameBoundary` says which receives leave a frame boundary; `SecureProgress`,
  `SendProgress` and `RoundTrip` are the runs that come through: what is sent is what is received, in whatever
  pieces it travels, and a shut-down direction is the reader's end of stream.
- **Handshake.** `Handshake` runs any number of sessions against an active attacker, with ideal signatures
  (section 5.1 of RFC 8032), a commuting shared secret (section 6.1 of RFC 7748) and injective hashing and
  key derivation (section 2.3 of RFC 5869). `HandshakeProgress` runs two honest endpoints over bounded pipes.
  `SecureChannel` joins the handshake with the receiver on the transport.
- **Binding.** `Guarding` is the gate, token and drop guard of one direction; `Binding` puts the two session
  machines under it, from any moment at which the session is idle, such as the end of the handshake;
  `BindingVerdicts` ties each call's verdict to its inner result;
  `BoundEndToEnd` is end-to-end delivery with futures dropped everywhere, from the handshake's use of the
  sessions to the binding's; `DropHazard` is the run that goes wrong without the guard, and says exactly when
  one does. `Ownership` is the wrapper's slot.
- **Queues.** `Queues` is the bounded and the unbounded queue; `QueueCalls` says what each kind of call can
  return and that waiting calls come through.

Each direction of a session is modelled on its own core; calls of the other direction are among the
arbitrary core calls that may run in between.

## Where the code is stronger or weaker than it reads

- `pause` checks and then stores, so a connection can be closed and paused at once.
  `TransportTheorems.ClosedAndPaused` gives the run, `TransportTheorems.PausedAfterClose` says exactly when a
  closed connection is paused now or later: if and only if it still is from before the close, or a `pause` has
  passed its check and has yet to store.
- The selects of the transport are not biased, and a data writer looks at closure for the last time before it
  fetches the stream. `WireGrowth.WritesAfterClose` is a run in which a byte is written after a complete
  close; `WireGrowth.ClosedWireExactly` says exactly when that can still happen: if and only if a data writer
  awaits its write, or has passed the check of `stream()` and the slot still holds the stream.
  `TransportTheorems.ClosedWire` bounds it to one writer and its own buffer.
- Dropping a Rust `send` inside its frame leaves a torn frame on an open connection, and the next send puts
  another frame with the same sequence number behind it. `DropHazard.DropReusesSequence` is such a run: four
  bytes of one frame and then the whole of another, which no list of numbered frames spells, and the second
  send reports success. `DropHazard.CutReusedExactly` says for every run when a torn frame can be followed so:
  if and only if the connection is neither closed nor write-shut and the write gate is not held by a call that
  is about to do either. Under the binding it cannot happen (`Binding.SendingIsIntact`).
- A `shutdown_write` of the Rust core that is dropped while the operating system shuts the wire down leaves the
  direction marked and the wire open, and a later `shutdown_write` reports success without doing anything:
  `CallResults.DroppedShutdownLeavesWireOpen` is such a run, `CallResults.LeftOpenExactly` says that only such
  a drop does this, and `CallResults.ShutdownShutsWire` that without one the wire follows the mark.
- A receive that fails or is dropped inside a frame has thrown away what it read. A pause between two chunks
  is enough: `FrameBoundary.PausedReceiveLosesBoundary` is a run in which the next receive then rejects an
  honest frame. `FrameBoundary.LosesBoundaryExactly` says which results do this. Under the binding no receive
  follows (`Binding.FailedReceiveIsLast`).
- The receive side refuses to accept the last sequence number, and no sender ever uses it, so an honest peer
  never meets that branch (`SecureRecords.OpenSealed`).

## Model

| member | source | states |
|---|---|---|
| TransportSafety.RunInv | crates/taunicorn/src/lib.rs:324-757 | After every run of any interleaving: each call knows what its program point promises, gates have one holder, wire and streams are accounted for. |
| TransportTheorems.MonotoneOverRuns | crates/taunicorn/src/lib.rs:366-373 | No flag but the pause flag ever reverts, the winner of a close is chosen once, the wire, the write order and both streams only grow. |
| TransportTheorems.GateDiscipline | crates/taunicorn/src/lib.rs:524-672 | The wire is the concatenation, in write-gate order, of one contribution per call: the whole buffer for a successful `send` or `send_timeout`, the reported bytes for `write_once`; only the last call can still be running, and a torn call is followed by silence. |
| TransportTheorems.SafeRetry | crates/taunicorn/src/lib.rs:562-672 | After an error of `send` or `send_timeout` an open connection means zero bytes of the call on the wire; an error inside the loop means a closed connection and an exact count. |
| TransportTheorems.PartialMeansLast | crates/taunicorn/src/lib.rs:562-672 | Without dropped futures a partial contribution of a full-buffer send is the end of the wire, behind those of the calls in front of it in gate order; its call holds the write gate, or has returned and the connection is closed. |
| TransportTheorems.ClosedWire | crates/taunicorn/src/lib.rs:568-608 | Once closed, whatever is still added to the wire are bytes of the one writer that held the gate then, the next ones of its own buffer; whoever takes the gate later adds nothing. |
| WireGrowth.WireGrowsExactly | crates/taunicorn/src/lib.rs:416-672 | From any reachable state some continuation extends the wire if and only if a data writer is behind its last check with the stream to be had, or at that check on an open connection, or the direction is open and the gate is not held by a call about to close or shut it. |
| WireGrowth.ClosedWireExactly | crates/taunicorn/src/lib.rs:416-608 | On a closed connection the wire can still grow if and only if a data writer awaits its write or has passed the closure check of `stream()` while the slot is not empty. |
| WireGrowth.WritesAfterClose | crates/taunicorn/src/lib.rs:580-608 | A concrete run: closed, tokens cancelled, slot empty, and after that a byte is written. |
| TransportTheorems.CloseProtocol | crates/taunicorn/src/lib.rs:366-373 | Closed if and only if one caller has won the swap; an empty slot or cancelled token implies closed; past its synchronous part the winner has emptied the slot and cancelled both tokens. |
| TransportTheorems.SealedWire | crates/taunicorn/src/lib.rs:713-757 | A shut-down wire never grows again. |
| TransportTheorems.ShutdownIsBarrier | crates/taunicorn/src/lib.rs:713-725 | When `shutdown_write` marks the direction, every data write that took the gate before has returned, and from then on the wire never grows. |
| TransportTheorems.OrderedReads | crates/taunicorn/src/lib.rs:471-522 | What receives returned is a prefix of what the peer's transport accepted; end of stream means all of it and no more to come. |
| TransportTheorems.ChunksConcatenate | crates/taunicorn/src/lib.rs:471-522 | The non-empty chunks that calls have returned, in the order of their returns and each call once, concatenate to exactly what was consumed of the incoming stream. |
| TransportTheorems.ReadReturnsNext | crates/taunicorn/src/lib.rs:497-516 | A chunk is exactly the next bytes, at least one and at most the buffer. |
| TransportTheorems.EndOfStreamIsSticky | crates/taunicorn/src/lib.rs:476-478 | Once observed, end of stream is what every later non-empty receive returns, whatever happens in between, also after a local close. |
| TransportTheorems.SendingIgnoresEof | crates/taunicorn/src/lib.rs:510-515 | No action of a call other than `receive` depends on whether end of stream was observed. |
| TransportTheorems.ClosedAndPaused | crates/taunicorn/src/lib.rs:354-358 | A concrete run that ends closed, with an empty slot, and paused. |
| TransportTheorems.PausedAfterClose | crates/taunicorn/src/lib.rs:354-373 | A closed connection is paused at this or some later moment if and only if it is paused now or a `pause` is between its check and its store. |
| CallResults.FlagStopsCall | crates/taunicorn/src/lib.rs:433-457 | As long as the connection is closed, paused, or shut in its direction, a receive, write, send or flush that begins gets neither to a gate nor to the operating system and writes nothing. |
| CallResults.ShutDirectionStopsCalls | crates/taunicorn/src/lib.rs:443-457 | A receive begun after `shutdown_read`, and a write, send or flush begun after `shutdown_write`, or any of them after a close, is turned away whatever else happens: a refusal or end of stream is all it can return. |
| CallResults.FlagStopsWaitingCall | crates/taunicorn/src/lib.rs:471-608 | A call waiting for its gate checks again under it: a flag set meanwhile keeps it from the operating system. |
| CallResults.ResultHasCause | crates/taunicorn/src/lib.rs:433-757 | Whenever a call returns, the state at that moment shows why: the flag or token that a refusal names, the operating system behind an error or a count, and for a success that what was asked for is done. |
| CallResults.FailureHasCause | crates/taunicorn/src/lib.rs:461-672 | A call fails the connection only upon an I/O error, a write of nothing, or its deadline inside the write loop. |
| CallResults.ShutdownShutsWire | crates/taunicorn/src/lib.rs:713-735 | Unless a `shutdown_write` was dropped, a direction marked shut on an open connection has a shut wire, or a `shutdown_write` is on its way from the mark to the operating system under the gate. |
| CallResults.LeftOpenExactly | crates/taunicorn/src/lib.rs:713-735 | One step leaves the direction marked and the wire open with nobody about to shut it if and only if it drops a `shutdown_write` at its I/O on an open connection. |
| CallResults.DroppedShutdownLeavesWireOpen | crates/taunicorn/src/lib.rs:713-735 | A concrete run: dropped there, and the next `shutdown_write` reports success with the wire still open. |
| CallResults.ShutdownGoesThrough | crates/taunicorn/src/lib.rs:713-735 | From any open connection with a free gate an undisturbed `shutdown_write` succeeds and shuts mark and wire. |
| CallResults.DroppedCallLetsGo | crates/taunicorn/src/lib.rs:471-757 | A future dropped where it waits frees its gate and its reference to the stream, and changes no flag, byte or other call. |
| CallResults.CloseUnpauses | crates/taunicorn/src/lib.rs:366-373 | Once a closing call has cleared the pause flag with no `pause` in flight, the connection is never paused again. |
| CallResults.ClosedStreamVanishes | crates/taunicorn/src/lib.rs:737-757 | With the slot empty and every call returned nobody holds the stream, and its end shuts the wire. |
| CallResults.EnvironmentIsFree | crates/taunicorn/src/lib.rs:497-608 | The operating system may take any part of what a writer has left and yield any part of what has arrived, nothing only at the end of the stream; every I/O may fail; the peer may write until it shuts. |
| Connection.ConnectionCore.EnsureAvailable | crates/taunicorn/src/lib.rs:433-457 | Loads closed, paused and the direction at three moments in this order; goes on if and only if each was clear when loaded, otherwise returns the refusal of the first that was set. |
| Connection.ConnectionCore.FetchStream | crates/taunicorn/src/lib.rs:416-427 | Refused exactly if the connection was closed when checked or the slot empty when read, in either case with a closed connection; otherwise the call holds a reference to the stream. |
| Connection.ConnectionCore.FailConnection | crates/taunicorn/src/lib.rs:461-469 | Ends with the connection closed and the call returned with its error, whoever won the close. |
| Connection.ConnectionCore.SendAll | crates/taunicorn/src/lib.rs:562-672 | The write loop under any interference is a run of the machine; success means the whole buffer, an error report is exact and comes with closure, a refusal has written nothing. |
| Connection.ConnectionCore.WriteOnce | crates/taunicorn/src/lib.rs:524-560 | One attempt; the count returned is exactly what was written, and positive for a non-empty buffer. |
| Connection.ConnectionCore.Receive | crates/taunicorn/src/lib.rs:471-522 | A chunk is the newest part of what has been handed out; end of stream means everything has been handed out. |
| Connection.ConnectionCore.Flush | crates/taunicorn/src/lib.rs:674-701 | Returns success, a refusal, or an error on a closed connection. |
| Connection.ConnectionCore.ShutdownRead | crates/taunicorn/src/lib.rs:703-711 | Never fails; leaves the direction shut and its token cancelled, or found it shut or the connection closed. |
| Connection.ConnectionCore.ShutdownWrite | crates/taunicorn/src/lib.rs:713-735 | Gate before transition, then shut down; success means that the wire is shut, unless the call found the connection closed or the direction marked; every error means that it is closed. |
| Connection.ConnectionCore.Close | crates/taunicorn/src/lib.rs:737-757 | Closed whoever returns; for the winner slot and tokens are done before it waits. |
| Connection.ConnectionCore.SetPaused | crates/taunicorn/src/lib.rs:354-364 | Stores exactly unless it found the connection closed. |
| Protocol.HelloRoundTrip | crates/taunicorn/src/security.rs:620-713 | Encoding then decoding a hello gives it back. |
| Protocol.HelloCanonical | crates/taunicorn/src/security.rs:620-678 | A decoder accepts exactly the 162-byte strings of its type and version, each the encoding of what it decodes to; no string is accepted as both. |
| Protocol.HelloLayout | crates/taunicorn/src/security.rs:684-713 | Type, version, identity, ephemeral key, nonce and signature at their offsets in 162 bytes. |
| Protocol.ParseHello | crates/taunicorn/src/security.rs:620-646 | The field-by-field decoder with its running offset computes the decoding, error cases included. |
| Protocol.BuildHello | crates/taunicorn/src/security.rs:684-713 | The field-by-field encoder yields 162 bytes that decode to the hello. |
| Protocol.TakeArray | crates/taunicorn/src/security.rs:720-731 | Success if and only if the field fits, then the offset advances past exactly those bytes; on failure it stays. |
| Protocol.ClientSignatureInjective | crates/taunicorn/src/security.rs:539-556 | The client's signed string determines its four fields. |
| Protocol.TranscriptInjective | crates/taunicorn/src/security.rs:563-584 | Server signature string and transcript string each determine all six fields. |
| Protocol.DomainsSeparated | crates/taunicorn/src/security.rs:539-584 | The three kinds of strings are pairwise disjoint. |
| Protocol.SignedLayout | crates/taunicorn/src/security.rs:539-584 | Magic, label, version and each field at its offset in the three strings. |
| Protocol.AadInjective | crates/taunicorn/src/security.rs:890-906 | Associated data determines direction, sequence number and transcript. |
| Protocol.AadLayout | crates/taunicorn/src/security.rs:890-906 | Magic, version, direction, big-endian number and transcript at their offsets. |
| Protocol.NonceUnique | crates/taunicorn/src/security.rs:914-925 | Under one prefix two nonces are equal if and only if their sequence numbers are. |
| Protocol.NonceLayout | crates/taunicorn/src/security.rs:914-925 | Twelve bytes: the four of the prefix first, then the big-endian number. |
| Protocol.SplitKeyBlock | crates/taunicorn/src/security.rs:834-851 | The 72-byte block is cut into two keys and two prefixes without gap or overlap. |
| Framing.ParseEncoded | crates/taunicorn/src/security.rs:770-811 | A frame followed by anything parses to its payload and exactly what followed. |
| Framing.PrefixFree | crates/taunicorn/src/security.rs:793-811 | Of two encoded frames neither is a prefix of the other unless they are equal. |
| Framing.StrictPrefixIncomplete | crates/taunicorn/src/security.rs:770-787 | A strict prefix of a frame never yields a payload or a format error. |
| Framing.ReassemblyInvertsFraming | crates/taunicorn/src/security.rs:742-811 | The complete frames in front of any part of a next one are exactly the payloads written. |
| Framing.ReadFramesAreWritten | crates/taunicorn/src/security.rs:742-811 | Frames taken off the front of a written stream are the first frames written. |
| Framing.ReadExact | crates/taunicorn/src/security.rs:742-763 | Terminates; success is the next `size` bytes of the stream however chunked; it gives up only upon a failed receive, an empty chunk or the end of the stream, never upon a short chunk. |
| Framing.ReadFrame | crates/taunicorn/src/security.rs:770-787 | Success and both format errors are what the bytes of the stream alone decide; every other error has its cause in the connection. |
| Framing.WriteFrame | crates/taunicorn/src/security.rs:793-811 | Exactly one encoded frame on success; a bad size touches nothing; a failure is one of the connection and leaves nothing or a strict prefix on a closed one. |
| SecureRecords.PlaintextBound | crates/taunicorn-python/src/security.rs:16-18 | The binding's plaintext bound holds if and only if the core's frame-size check passes. |
| SecureRecords.RecordLayout | crates/taunicorn/src/security.rs:374-399 | A frame body is the version, the big-endian number, and the ciphertext. |
| SecureRecords.OpenSealed | crates/taunicorn/src/security.rs:301-351 | A sealed record opens with its plaintext exactly at its own number; the exhausted branch belongs to the one number that is never sent. |
| SecureRecords.AcceptedIsNext | crates/taunicorn/src/security.rs:324-349 | Whatever is accepted is the peer's record with exactly the next number. |
| SecureRecords.OtherLaneOpensNothing | crates/taunicorn/src/security.rs:890-906 | Records of another key, direction or transcript open nowhere in this one. |
| SecureRecords.PrefixDelivery | crates/taunicorn/src/security.rs:317-349 | On an arbitrary wire the accepted plaintexts are at every moment a prefix of the peer's, and the counter is their number. |
| SecureSession.SecureConnection.Send | crates/taunicorn/src/security.rs:374-405 | Advances and appends one record exactly on success; exhaustion and size errors exactly in their situations; a failure leaves the wire alone or the connection closed. |
| SecureSession.SecureConnection.Receive | crates/taunicorn/src/security.rs:296-352 | Result and errors are what opening the next frame at the current number says; only success advances. |
| Sender.SendStepInv | crates/taunicorn/src/security.rs:374-405 | Every event keeps: the wire is the records in sequence order and then at most a part of the next frame, and what follows a torn frame. |
| Sender.OneFramePerSequence | crates/taunicorn/src/security.rs:374-405 | Without dropped futures the wire is the complete frames 0, 1, 2, ... and at most a strict prefix of the next, which without a writer means closed. |
| Sender.CounterCountsSends | crates/taunicorn/src/security.rs:377-402 | The send counter is the number of successful sends and never wraps. |
| SendProgress.MessageGoesOut | crates/taunicorn/src/security.rs:374-405 | From any idle live session on an open connection, a send puts exactly its frame on the wire in whatever pieces it is taken, reports success and advances by one. |
| SendProgress.SendHasCause | crates/taunicorn/src/security.rs:374-405 | A send returns success or a transport error exactly as its core call did, exhaustion only at the last number, a size error only over the plaintext bound. |
| Receiver.ReceiveStepInv | crates/taunicorn/src/security.rs:296-351 | Every event keeps: what was consumed is whole frames and then what the current receive has fetched, until a receive gives up inside a frame. |
| Receiver.DeliveredIsPrefix | crates/taunicorn/src/security.rs:296-351 | On the transport, with any incoming bytes and dropped futures, what receives return is a prefix of what the peer sealed. |
| Receiver.CounterCountsReceives | crates/taunicorn/src/security.rs:345-348 | The receive counter is the number of successful receives and never wraps. |
| SecureProgress.FrameComesThrough | crates/taunicorn/src/security.rs:742-787 | From any idle readable session, a frame that is next on the stream is put together from whatever chunks it arrives in, and the receive returns what opening it says. |
| SecureProgress.ReceiveHasCause | crates/taunicorn/src/security.rs:296-352 | In every run a receive returns a plaintext or verdict only from opening the whole frame it fetched, a bad length only as spelled by its four bytes, end of stream and transport error only as returned by its core call. |
| SecureProgress.EndComesThrough | crates/taunicorn/src/security.rs:742-763 | With everything read and the incoming side shut, the next receive reports the end of the stream. |
| FrameBoundary.LosesBoundaryExactly | crates/taunicorn/src/security.rs:742-787 | A receive that began on a frame boundary leaves it if and only if it returns an error other than a verdict on a record, or is dropped, after consuming at least one byte; in every run, whatever came before. |
| FrameBoundary.AlignedExactly | crates/taunicorn/src/security.rs:296-351 | The session counts as aligned exactly as long as no receive has done so, and then every receive begins behind whole frames. |
| FrameBoundary.PausedReceiveLosesBoundary | crates/taunicorn/src/security.rs:742-787 | A concrete run: one honest frame that would open, a pause after three of its bytes, an error, a resume, and the next receive rejects the rest. |
| EndToEnd.ReceivedIsPrefixOfSent | crates/taunicorn/src/security.rs:296-405 | For any concurrency, chunking, pause, half-close, close and I/O error, returned plaintexts are a prefix of the completely written ones in send-lock order. |
| EndToEnd.NoSpuriousRejection | crates/taunicorn/src/security.rs:301-349 | While no receive has given up inside a frame, none fails on length, version, number or tag. |
| EndToEnd.DrainedMeansEqual | crates/taunicorn/src/security.rs:742-811 | A receiver on a frame boundary that has drained the pipe has returned everything completely written. |
| EndToEnd.FailureFreeDrainedMeansEqual | crates/taunicorn/src/security.rs:296-405 | In a run in which no receive failed, drained means equal. |
| EndToEnd.EndOfStreamIsFinal | crates/taunicorn/src/lib.rs:509-515 | End of stream at the receiver means the whole wire, which no further step of the sender changes. |
| EndToEnd.NoDropsIntact | crates/taunicorn/src/security.rs:400-402 | Without dropped sends no frame is written behind one that was cut short. |
| RoundTrip.MessageRoundTrip | crates/taunicorn/src/security.rs:296-405 | In every run, from a moment at which both sides are idle and drained, the next message sent is the next one received, whatever pieces the two operating systems make of it. |
| RoundTrip.ShutdownReachesReader | crates/taunicorn/src/lib.rs:713-735 | In every run without a dropped `shutdown_write`, a marked direction on an open connection with nobody still at it has a shut wire, and the drained reader gets end of stream. |
| RoundTrip.EndReachesReader | crates/taunicorn/src/lib.rs:713-757 | Whatever shut the wire, the drained reader gets end of stream. |
| DropHazard.DropReusesSequence | crates/taunicorn/src/security.rs:374-405 | A concrete run: a send dropped after four bytes, then a different frame with the same number written whole and reported as sent on an open connection; the wire has no reading as numbered frames and a part of the next. |
| DropHazard.EveryReceiverRejects | crates/taunicorn/src/security.rs:301-349 | On that wire every receiver, with any keys, finds one complete frame first and rejects it. |
| DropHazard.CutReusedExactly | crates/taunicorn/src/security.rs:374-405 | After any run whose wire ends in a torn frame with nobody sending: another byte of a frame with the same number can follow if and only if the connection is neither closed nor write-shut and the gate is not held by a call about to do either. |
| Handshake.LanesMirror | crates/taunicorn/src/security.rs:236-253 | The two sides of one transcript derive mirrored lanes, and a send key equals a receive key only there. |
| Handshake.NetStepInv | crates/taunicorn/src/security.rs:167-264 | Every event of sessions and attacker keeps who signed, who sealed and what was delivered. |
| Handshake.ClientMatches | crates/taunicorn/src/security.rs:198-261 | An established client with an honest pinned server has exactly one partner with the same six values and mirrored keys, which sent SERVER_FINISHED; it received a prefix of what that partner sealed. |
| Handshake.ServerMatches | crates/taunicorn/src/security.rs:437-523 | An established server with an honest pinned client has exactly one partner with the same six values, which accepted SERVER_FINISHED and sent CLIENT_FINISHED. |
| Handshake.LaneIsHonest | crates/taunicorn/src/security.rs:823-879 | What opens in a session's receive direction was sealed by its one partner as the record of that number: the assumption of the record layer holds in every run. |
| Handshake.LowOrderIsRefused | crates/taunicorn/src/security.rs:221-225 | No session with keys, on either side, got them from a low-order ephemeral of its peer. |
| Handshake.RefusedForGood | crates/taunicorn/src/security.rs:167-264 | An unacceptable hello or a record that is not the peer's confirmation ends the handshake for good: the session never seals, opens or becomes established again. |
| Handshake.EstablishedSurvives | crates/taunicorn/src/security.rs:296-352 | A frame that does not open leaves an established session as it was. |
| Handshake.AttackerIsFree | crates/taunicorn/src/security.rs:160-264 | The attacker signs anything as any identity that is not honest, seals anything under any key it can compute, and delivers any frame to any session that waits. |
| Handshake.RecordsGetThrough | crates/taunicorn/src/security.rs:296-405 | In every run what one of two established, drained partners seals next, the other opens next. |
| SecureChannel.ReceivesFromPartner | crates/taunicorn/src/security.rs:296-351 | With the cipher at successive moments of one attacked network run and arbitrary incoming bytes, whatever the transport receiver of a session with an honest pinned peer returns is a prefix of what its one partner had sealed by then; without a partner it returns nothing. |
| HandshakeProgress.HandshakeProgresses | crates/taunicorn/src/security.rs:167-264 | Two endpoints that pin each other never deadlock over pipes of any capacity from one byte; every move decreases a bounded measure or changes nothing. |
| HandshakeProgress.CompletedIsMirrored | crates/taunicorn/src/security.rs:429-526 | When complete, both are established with the same parties, mirrored lanes and all four counters at one. |
| Guarding.GuardRunInv | crates/taunicorn-python/src/security.rs:254-285 | After every run: one call under the gate, and after an unsuccessful guarded call nobody is past the open check unless the guard is still going off under the gate. |
| Guarding.NoGuardAfterFailure | crates/taunicorn-python/src/security.rs:268-281 | Once a guard has gone off no call ever passes the open check again. |
| Guarding.NoGuardAfterCancel | crates/taunicorn-python/src/security.rs:268-281 | Once the token is cancelled, every call that has not loaded it yet is refused before it touches the session. |
| Guarding.DirectionGate.Enter | crates/taunicorn-python/src/security.rs:268-275 | Enters if and only if the token is armed, the gate free and the connection open. |
| Guarding.DirectionGate.Exit | crates/taunicorn-python/src/security.rs:274-282 | Without success the token is cancelled before the gate is released. |
| Binding.SendingIsIntact | crates/taunicorn-python/src/security.rs:254-285 | Taken over at any idle moment, after any number of earlier sends, and with futures dropped anywhere from then on, the wire is complete frames and at most a strict prefix of the next one. |
| Binding.FailedSendIsLast | crates/taunicorn-python/src/security.rs:274-281 | A failed or cancelled secure send is the last to touch the wire. |
| Binding.SizeCheckDecides | crates/taunicorn-python/src/security.rs:259-262 | A rejected size changes nothing and uses no number; an admitted one is never rejected after encryption. |
| Binding.ReceivesStartAligned | crates/taunicorn-python/src/security.rs:287-310 | Every secure receive that consumes a byte began exactly at a frame boundary. |
| Binding.FailedReceiveIsLast | crates/taunicorn-python/src/security.rs:296-306 | A failed or cancelled secure receive is the last to consume bytes. |
| BindingVerdicts.SendVerdictsHold | crates/taunicorn-python/src/security.rs:254-285 | A secure send is done exactly if the session sent its frame, failed only if the inner send failed or was dropped, refused without touching the session; without an explicit cancellation the token is cancelled only by a failed call's guard. |
| BindingVerdicts.ReceiveVerdictsHold | crates/taunicorn-python/src/security.rs:287-310 | The same for receives, where handing over the plaintext can fail too. |
| BindingVerdicts.SendReachesSession | crates/taunicorn-python/src/security.rs:254-285 | An admitted send under a free gate on an open session reaches the session with its plaintext. |
| BoundEndToEnd.BoundPrefix | crates/taunicorn-python/src/security.rs:254-310 | End-to-end prefix delivery and no spurious rejection through handshake, take-over by each side at its own time, and futures dropped on both sides. |
| BoundEndToEnd.BoundDrained | crates/taunicorn-python/src/security.rs:254-310 | Without a failed receive a drained pipe means that everything completely written was received. |
| Ownership.LinearOwnership | crates/taunicorn-python/src/lib.rs:448-604 | In every run the raw connection has exactly one owning party, determined by slot and handshake; raw operations exist only while the slot is plain. |
| Ownership.TransferIsExclusive | crates/taunicorn-python/src/lib.rs:553-587 | A transfer succeeds if and only if the slot is plain and no raw operation is in flight; none starts later and the slot never is plain again. |
| Ownership.WrapperObject.PlainConnection | crates/taunicorn-python/src/lib.rs:520-551 | A raw operation gets a reference if and only if the slot is plain; otherwise nothing changes, and the consumed slot has its own refusal. |
| Ownership.ClosePreventsSecure | crates/taunicorn-python/src/lib.rs:774-818 | A `close()` that finds an upgrade in progress prevents it from ever becoming secure. |
| Ownership.GivenUpForGood | crates/taunicorn-python/src/security.rs:172-215 | A handshake future that is dropped, fails, or sees the cancellation leaves the slot upgrading, the token cancelled and the connection with nobody, whatever follows. |
| Ownership.GivenUpExactly | crates/taunicorn-python/src/security.rs:172-215 | The connection is lost to nobody only by these events, each in its situation. |
| Ownership.SecureExactly | crates/taunicorn-python/src/lib.rs:589-603 | A wrapper becomes secure exactly when the finished handshake is installed under an armed token. |
| Ownership.CancelledExactly | crates/taunicorn-python/src/lib.rs:774-801 | The token is cancelled exactly by a close or cancellation of an upgrading or secure wrapper, or by giving up. |
| Ownership.PlainIsTransferable | crates/taunicorn-python/src/lib.rs:553-587 | From every plain wrapper both transfers succeed once its raw operations have returned. |
| Ownership.WrapperObject.TakePlain | crates/taunicorn-python/src/lib.rs:553-579 | Replaces the slot or puts it back, with the two refusals exactly in their situations. |
| Ownership.WrapperObject.FinishSecure | crates/taunicorn-python/src/lib.rs:589-603 | Installs the session if and only if the upgrade was not cancelled. |
| Ownership.WrapperObject.Close | crates/taunicorn-python/src/lib.rs:774-801 | Cancels the token of an upgrading or secure slot, refuses a consumed one, leaves a plain one. |
| Queues.QueueConserves | crates/taunicorn-python/src/channel.rs:84-142 | Accepted items are the delivered ones followed by the buffered ones, in order; buffered and reserved slots never exceed the capacity. |
| Queues.ResultsMean | crates/taunicorn-python/src/channel.rs:84-133 | Sending appends its item, receiving takes the oldest; every other result leaves all items where they are, and each error comes only in the situation it names. |
| Queues.ReceiveReportsDrained | crates/taunicorn-python/src/channel.rs:97-133 | A receive reports closed only when the channel is closed, the buffer empty and no permit out. |
| Queues.DrainedStays | crates/taunicorn-python/src/channel.rs:97-147 | After that no item ever appears. |
| Queues.NoLateSend | crates/taunicorn-python/src/channel.rs:84-142 | No send that begins after the cancellation ever adds an item, although `close` may not get the receiver. |
| Queues.CloseCancels | crates/taunicorn-python/src/channel.rs:136-142 | A `close` that has returned has cancelled the token. |
| Queues.BufferIsReceivable | crates/taunicorn-python/src/channel.rs:127-133 | Everything buffered is handed out, oldest first, by receives on a free receiver, also after a close. |
| QueueCalls.ResultsFitRequests | crates/taunicorn-python/src/channel.rs:84-142 | Each kind of call returns only its own results: a waiting send never reports full, a waiting receive neither empty nor busy. |
| QueueCalls.SentIsAccepted | crates/taunicorn-python/src/channel.rs:84-124 | A send has succeeded if and only if its own item was accepted, once. |
| QueueCalls.OnlyResultsMoveItems | crates/taunicorn-python/src/channel.rs:84-142 | A step moves items only if it makes a send succeed or a receive return an item. |
| QueueCalls.DropReleases | crates/taunicorn-python/src/channel.rs:84-113 | A dropped future gives back its permit or the receiver and moves no item. |
| QueueCalls.ReceiveAdmitsSend | crates/taunicorn-python/src/channel.rs:84-133 | In every run a send waiting on a full open queue succeeds after one receive. |
| QueueCalls.WaitingReceiveComes | crates/taunicorn-python/src/channel.rs:97-113 | On a free queue a waiting receive returns the oldest item, waits on an empty open one, and reports closure exactly on a cancelled, empty and idle one. |
| QueueCalls.CancelledPolls | crates/taunicorn-python/src/channel.rs:84-113 | Every poll looks at the token first: cancelled, a waiting send returns and gives its permit back, a waiting receive shuts the channel. |
| Queues.QueueObject.TrySend | crates/taunicorn-python/src/channel.rs:116-124 | Appends or refuses, each result if and only if its situation holds, and is a run of the machine. |
| Queues.QueueObject.TryRecv | crates/taunicorn-python/src/channel.rs:127-133 | Takes the oldest item or says why not, each result if and only if its situation holds. |
| Queues.QueueObject.Close | crates/taunicorn-python/src/channel.rs:136-142 | Cancels, keeps the buffer, and closes the channel if and only if nobody holds the receiver. |

## Left out

- Internals of ChaCha20-Poly1305, Ed25519, X25519, HKDF, SHA-256 and the operating system's random source: replaced by the ideal functions above; random values are fixed per session in advance.
- Socket creation, endpoint naming, permissions and platform branches: plumbing of the operating system.
- `Server` accept, stop and pause: a smaller copy of the connection's state machine, which would only add easy members.
- First-come order of mutexes: gates and locks are granted in any order, which allows every order the code can produce.
- Wall-clock time: a deadline is an event that may happen whenever the code waits for it.
- Raw sends and receives beside a session through `SecureConnection::connection()`: excluded, as the documentation asks.
- The plain wrapper's guard, which closes by spawning a task after the gate is free: only the reference it holds is modelled, in `Ownership`.
- MessagePack, the Python facade, exception mapping by message text, and object conversions: wrappers without a hard property.
- The JSON example client and server: they repeat framing with weaker rules.
- HandshakeProgress.HandshakeProgresses: the two endpoints write to and read from the pipes directly; pauses, closes and I/O errors of the transport, which make a handshake fail, do not occur there.
- Liveness of the transport and the queues under fair scheduling: only the handshake's progress is proved.
- Framing.ReadFrame: runs on a stream object with the receive contract that `Connection.ConnectionCore.Receive` proves, not on the transport machine itself; `Receiver` is the version on the machine.
- SecureSession.SecureConnection.Send: one uninterrupted critical section with a ciphertext chosen by its caller; `Sender` is the concurrent version.
- Queues.QueueObject.TryRecv: one uninterrupted call; waiting receives and interleavings are in the machine.
- Handshake.ClientMatches: a send counts as sealed when it is submitted, so a failed final write leaves a session established in the model that the code reports as failed.
