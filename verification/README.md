# Lumberjack v2: a model of the frame codec, the server, the client and the protocol between them

The project models the Rust crate `lumberjack-protocol`, an asynchronous implementation of the Lumberjack v2
protocol, in the layers in which the crate is built, and joins the layers into end-to-end results.

- `Bytes.dfy`: bytes, 32-bit words, the `as u32` cast, and the growable buffer.
- `Frames.dfy`: frames, errors, the encoder, the incremental decoder and the bounded inflation loop, each
  written over the mutable buffer and given by a function on byte sequences.
- `FrameLaws.dfy`: what the codec promises (round trip, prefix-free code, chunk-insensitivity, bounds).
- `Codec.dfy`: the codec with its limit, and `Framed`, which decodes until it needs more and then takes the next chunk.
- `Connection.dfy`: the server's connection as a flat step machine (`ExpectWindow`, `Collecting`, `Dispatching`,
  `AwaitAck`, `Closed`), `Batch` with its one-shot ack, and the nested loops of `run_connection`.
- `ConnectionLaws.dfy`: the machine against a flat reading of its frames in which compression does not show.
- `Client.dfy`: `Client::send` with its encode loop, its decode-and-feed loop and its ack loop.
- `Delivery.dfy`: the client's bytes read by the server.
- `Session.dfy`: client, server and consumer over FIFO byte streams, in every interleaving, with torn writes,
  keepalives, timeouts, failures at any point and callers that go on after them.
- `SessionRuns.dfy`: runs that do happen, and when a call can be confirmed without its batch.
- `SessionRefinement.dfy`: the two ends of a session are the server's connection handler and the client's ack loop.
- `TimedSession.dfy`: one wait of a session in discrete time.
- `Cluster.dfy`: any number of connections on the bounded channel, the accept loop, the consumer and the gauge.
- `ClusterRuns.dfy`: each of them is a connection handler, and every set of them can be served.
- `Keepalive.dfy`: the clock of one `send`: keepalive interval, delays, the wait for the channel, the ack timeout.
- `PortScan.dfy`: the scan of a local port range in 16-bit and 32-bit arithmetic.

What the environment supplies is a parameter. zlib (RFC 1950 and RFC 1951) is a pair of functions, `deflate` and the
steps of the inflating reader, under the hypothesis `Faithful`: reading a deflated string yields that string, in chunks
of 1 to 8192 bytes of the reader's choosing; `SomeZlibIsFaithful` gives an instance. The channel's answer, the timers,
the consumer, the outcome of each write, the random offset and the ports' availability are scripts or functions over
which every result quantifies. Events are serialized payloads. A sequence of at least 2^32 bytes has its length cut to
32 bits, as in the crate, and so has a count of events.

Where the crate and its design document disagree, the model follows the code:

- The design document has the server skip events that are not valid JSON
  (docs/superpowers/specs/2026-04-09-lumberjack-rs-design.md:120-122); the code forwards every payload unread.
- It has the client refuse further calls after a timeout
  (docs/superpowers/specs/2026-04-09-lumberjack-rs-design.md:308-309); the code keeps no such state. So the late ack
  of one call can make the next call return success although the server has no batch of it
  (`LateAckConfirmsNextCall`). `ConfirmedWithoutBatchIff` says when, after any errors and retries: exactly if the ack
  of an earlier call with at least as many events is not yet taken, and is written or can still be, the server being
  open and the calls up to that one whole. That is what the guard `seq >= n` (src/client.rs:177) lets through.
  Whatever the caller does, a call is confirmed by its own batch's ack or by that of an earlier one of at least as
  many events (`RetriesKeepAcksLargeEnough`). For calls whose sizes are not cut to 32 bits, session safety holds over
  all runs if callers stop at their first error (`SessionSafety`) and fails in some run if they do not
  (`SafeIffCallerStops`). The sizes are needed: a call whose count of events is cut to zero is confirmed by a
  keepalive (`CutCountConfirmedByKeepalive`).

More promises hold under a condition only:

- A compressed batch is delivered only if the whole payload, inflated, is within the server's frame limit, while an
  uncompressed batch needs this of each event, so that compression can lose a batch (`CompressionLosesBatch`). Within
  these limits, and as long as no count or length is cut to 32 bits, a batch is delivered; otherwise the server never
  makes a batch of exactly the client's events (`FidelityIff`, which leaves open only what a receiver makes of a
  deflation of 2^32 bytes or more, whose length is cut). With no size cut, the server then makes no batch at all. With
  a length cut to one within the limits, it makes a batch of the event's beginning (`CutEventArrives`), and the client
  may notice nothing (`CutEventUnnoticed`).
- The client's own decode-and-feed loop reproduces what it encoded exactly if no event is above the default limit
  (`RefeedIff`). At the first event above it, the loop fails with `FrameTooLarge`, the window frame and the events
  before having been fed, unless the length cut to 32 bits is within the limit again; then it feeds the event's
  beginning and reads on in the middle of the event (`RefeedStops`).
- For events, the frame code is prefix-free up to payloads of less than 2^32 bytes and not beyond
  (`EventPrefixFreeIff`); compressed frames are shown prefix-free below that size only.
- An ack timeout is excluded exactly by `keepalive + wait for the channel + 2 * delay < timeout` (`NoTimeoutIff`, and
  for the frames of any call while the server's end is open `SessionNoTimeoutIff`). The wait counts because no
  keepalive is sent while the batch waits for room in the channel (src/server.rs:167).

## Model

| member | source | states |
|---|---|---|
| Frames.ZlibDecompress | src/frame.rs:160-182 | the bounded loop returns what the specification function says for the reader's steps, and never more than the limit |
| Frames.EncodeInto | src/frame.rs:27-66 | exactly the frame's wire form is appended to the buffer |
| Frames.DecodeWithLimit | src/frame.rs:72-147 | in-place decoding: buffer untouched when more is needed, exactly the rest left behind a frame, the error and the remaining buffer otherwise |
| FrameLaws.WireForm | src/frame.rs:5-66 | the wire form of each frame in literal bytes: version 50, types 87, 74, 65 and 67, big-endian words, the payload and its length modulo 2^32 |
| FrameLaws.DecodeVerdict | src/frame.rs:72-147 | for any bytes: which version and type bytes are errors and which error, when the decoder waits, and when a frame is too large |
| FrameLaws.PackedVerdict | src/frame.rs:122-182 | a whole compressed frame, its payload sound or corrupt, is inflated if and only if the reader ends cleanly within the limit; otherwise the error is that of the first fault, and the frame is gone from the buffer either way |
| FrameLaws.InflateVerdict | src/frame.rs:160-182 | for any chunking: success if and only if the reader ends cleanly within the limit, with the whole output; otherwise the error is that of the first overrun or reader failure |
| FrameLaws.InflateDeflated | src/frame.rs:151-182 | inflating a deflated string returns it if and only if it is within the limit, and is `FrameTooLarge` otherwise |
| FrameLaws.SomeZlibIsFaithful | src/frame.rs:150-182 | the hypothesis about zlib has an instance |
| FrameLaws.DecodeEncoded | src/frame.rs:27-147 | an encoded frame with any bytes behind it decodes to that frame and those bytes if and only if it is within the limits, and to `FrameTooLarge` if it is not and its length is not cut to 32 bits |
| FrameLaws.DecodeEncodedEvent | src/frame.rs:90-110 | an encoded event of any length decodes to as much of it as its length cut to 32 bits says, with the rest left in the buffer, or to `FrameTooLarge` with the cut length |
| FrameLaws.DecodeAppend | src/frame.rs:72-147 | appending bytes never changes a decoded frame or an error, only what is left in the buffer |
| FrameLaws.DecodeBounds | src/frame.rs:72-147 | waiting implies fewer than 10 + limit bytes; a decoded payload is within the limit; W, J and A frames re-encode to exactly the bytes consumed, and C consumes its 6 + length bytes |
| FrameLaws.PrefixFree | src/frame.rs:27-66 | of frames whose lengths are not cut to 32 bits, no encoding is a prefix of another's, so encoding is injective |
| FrameLaws.EventPrefixFreeIff | src/frame.rs:35-42 | some other frame's encoding is a prefix of an event's if and only if the event's length is cut to 32 bits |
| FrameLaws.DrainAppend | src/codec.rs:34-36 | draining a buffer and then more bytes is draining both at once |
| FrameLaws.ChunkInsensitive | src/codec.rs:34-36 | every chunking of a stream gives the frames, the first error and the remainder of the whole stream; behind an error, a beginning of that remainder |
| FrameLaws.StreamRoundTrip | src/frame.rs:27-147 | concatenated encodings drain to the frames, followed by whatever the trailing bytes drain to |
| FrameLaws.StreamStopsAtOversize | src/frame.rs:94-100 | a stream is read up to its first frame above the limit, which, its length not being cut, ends it with `FrameTooLarge` |
| FrameLaws.DecodeOfPrefix | src/frame.rs:72-147 | from any beginning of a well-formed stream the decoder gets the head frame, or an error only if that frame is over the limit |
| Codec.ReadIgnoresChunks | src/codec.rs:30-37 | a receiver reads the same frames and the same ending for every chunking |
| Codec.CutStreamFails | src/codec.rs:30-37 | a stream of whole frames ends cleanly, and one that breaks off in the middle of a frame ends with an error behind the frames before |
| Codec.Framed.Next | src/codec.rs:30-37 | each call takes the next frame of the whole stream, or reports how the stream ends and leaves the bytes that were not decoded |
| Connection.CollectWindow | src/server.rs:109-162 | the window and inner-buffer loops follow the step machine to a full window or to the same error |
| Connection.AwaitAndReply | src/server.rs:172-191 | the ack loop writes exactly the keepalives and the final ack of the step machine |
| Connection.DispatchBatch | src/server.rs:165-191 | a full window's batch is admitted or refused and its ack awaited as in the step machine, and the channel's log grows by that batch exactly if it is admitted |
| Connection.RunConnection | src/server.rs:87-193 | the nested loops dispatch the batches, write the bytes and return the verdict of the flat step machine over the frames of the whole input; behind the frames written there is at most a part of the one ack whose write failed |
| Connection.Batch.Ack | src/server.rs:59-63 | `last_seq` is delivered once, and the drop that follows delivers nothing |
| Connection.Batch.IntoEvents | src/server.rs:47-49 | the events are handed over and `last_seq` is delivered once |
| Connection.Batch.Drop | src/server.rs:66-72 | dropping delivers `last_seq` if no ack was delivered before |
| ConnectionLaws.JudgeFills | src/server.rs:114-162 | a window fills if and only if its first items are a strictly rising run of events, and the batch is made of those |
| ConnectionLaws.BatchMeans | src/server.rs:109-166 | a batch has exactly the window's number of events, the sequence numbers rise strictly from at least one, `last_seq` is the last one and at least the window |
| ConnectionLaws.DriveInner | src/server.rs:130-157 | the loop over an unpacked frame does what its flattened items say |
| ConnectionLaws.DriveBody | src/server.rs:114-162 | the frames of a window do what their flattened items say, whatever their framing |
| ConnectionLaws.CompressionTransparent | src/server.rs:114-162 | in a window that is empty or partly filled, any grouping of events into raw and compressed frames has the run of the plain events; empty compressed frames are included wherever the window still reads |
| ConnectionLaws.SurplusInsideIsDropped | src/server.rs:132 | bytes behind the event that fills the window, in the same compressed frame, change nothing, while a raw frame in their place would end the connection (`BoundaryVerdict`) |
| ConnectionLaws.OnlyCompleteWindows | src/server.rs:98-192 | for every input and environment the dispatched batches are those of the first complete windows, and success means a window boundary at end of file or a receiver that is gone |
| ConnectionLaws.EveryCompleteWindow | src/server.rs:98-192 | with a cooperative environment every complete window is dispatched, and the machine is then at a boundary |
| ConnectionLaws.AllOrNothing | src/server.rs:98-192 | both together: complete windows only, and none of the leading ones left out |
| ConnectionLaws.BoundaryVerdict | src/server.rs:98-107 | at a batch boundary end of file is success, a reading error is the verdict, and a frame other than a window frame is an error |
| ConnectionLaws.CutWindowVerdict | src/server.rs:115-119 | a stream that ends inside a window closes the connection with `ConnectionClosed`, or with the reading error |
| ConnectionLaws.FaultyFrameVerdict | src/server.rs:120-160 | in a window that still reads, a window or ack frame and an event out of order close the connection with their errors |
| ConnectionLaws.FaultyInnerVerdict | src/server.rs:130-157 | behind events that are in order inside a compressed frame, truncated bytes, undecodable bytes, another kind of frame and an event out of order close the connection with their errors |
| ConnectionLaws.RefusedVerdict | src/server.rs:167-170 | when the receiver is gone the connection ends with success and the batch is not dispatched |
| ConnectionLaws.WaitVerdict | src/server.rs:172-191 | while an ack is awaited: one keepalive for each timer if keepalives are configured and none otherwise, then the final ack with the batch's number, or the error of the first write that fails |
| ConnectionLaws.PendingIsRounds | src/server.rs:172-191 | the invariant on written frames is the language of rounds of keepalives, each closed by its batch's ack |
| ConnectionLaws.EveryRun | src/server.rs:165-191 | in every run no final ack is below its batch's size, and the frames written are a prefix of (Ack(0)* Ack(s))* with one final ack for each batch, in order, and no keepalive unless one is configured |
| Client.AckLoopMeans | src/client.rs:168-183 | the ack loop succeeds if and only if an ack of at least n comes behind smaller acks only, before the timer runs out |
| Client.FeedingStopsAt | src/client.rs:155-166 | feeding stops at the first write that fails, with its error, or behind all frames at the error of the client's own decoder |
| Client.Client.Send | src/client.rs:137-184 | the bytes taken for sending, the result and what the next call reads on from, for every outcome of every write and timer; no traffic for an empty batch |
| Client.Client.FeedBatch | src/client.rs:155-165 | the frames fed are those of the plan up to the first failure |
| Client.Client.Refeed | src/client.rs:160-165 | the decode-and-feed loop feeds the drained frames one by one and stops at the first failure |
| Client.Client.ReceiveAck | src/client.rs:168-183 | the loop's result is that of the ack specification, and it leaves unread what that leaves, or behind a failure to read what could not be decoded |
| Client.EncodeEvents | src/client.rs:143-153 | the payload buffer is the concatenation of the events' frames, numbered from one |
| Delivery.RefeedIff | src/client.rs:143-165 | the uncompressed path feeds exactly the encoded frames, byte for byte the payload buffer behind the window frame, if and only if no event exceeds 16777216 bytes |
| Delivery.RefeedStops | src/client.rs:160-165 | at the first event above the default limit the loop has fed exactly the frames before it and fails with `FrameTooLarge`, unless the cut length is within the limit: then it feeds the event's beginning and goes on with the bytes behind |
| Delivery.BatchIsBlock | src/client.rs:141-159 | the frames of a batch, compressed or not, are one complete window whose batch is the client's events with `last_seq` their number |
| Delivery.BatchArrives | src/client.rs:143-166 | anywhere in a session the bytes of a batch make one more batch of exactly its events, and just the bytes behind it are left unread |
| Delivery.SessionArrives | src/client.rs:137-166 | a sequence of calls, compressed or not in any mixture, makes exactly their batches in order |
| Delivery.FidelityIff | src/client.rs:143-166 | for a deflation below 2^32 bytes: the server makes one batch, of exactly the client's events, if and only if they are within the limits and no count or length is cut to 32 bits; with no size cut, it otherwise makes none |
| Delivery.CutEventArrives | src/frame.rs:35-42 | an event whose length is cut to one within the limits arrives as a batch of its beginning, and the client sees no error but what the bytes behind that beginning give |
| Delivery.CutEventUnnoticed | src/client.rs:160-165 | an event of 2^32 bytes for which the client's loop reports nothing and feeds window frames read from the event |
| Delivery.CompressionLosesBatch | src/frame.rs:160-182 | for every limit below 10 * (2^32 - 1) there are events that are delivered uncompressed and, deflated to less than 2^32 bytes, are not |
| Delivery.RoundEndsWait | src/client.rs:168-183 | the server's round for a non-empty batch ends the client's wait with success, and the client takes exactly that round |
| Delivery.KeepaliveEndsWaitIff | src/client.rs:177 | a keepalive ends the wait for a batch's ack if and only if the number of events is a multiple of 2^32, its count cut to zero |
| Session.NextKept | src/client.rs:137-184 | every action of the client, the transport, the server and the consumer keeps the session invariant |
| Session.SessionSafety | src/client.rs:137-184 | over every interleaving, for calls with no size cut to 32 bits and callers that stop at their first error: the k-th confirmed call is the k-th call, it took the k-th batch's final ack and no keepalive, that batch holds its events and was given up by the consumer, and no other batch is ever dispatched |
| Session.RetriesKeepAcksLargeEnough | src/client.rs:168-183 | over every interleaving, with callers that go on after errors as they like: each confirmed call took the final ack, and no keepalive, of a consumed batch, its own or an earlier one of at least as many events; no ack confirms two calls; the batches are those of the first calls, in order |
| SessionRuns.CallsConfirmed | src/client.rs:137-184 | every list of calls that the server can take has a run without an error in which all are dispatched and confirmed |
| SessionRuns.ConfirmedWithoutBatchIff | src/client.rs:177 | after any run with errors and retries: the next call can return success without a batch of its own if and only if the ack of an earlier call with at least as many events was not yet taken, and is written or can still be, the server being open and the calls up to that one whole and within its limit |
| SessionRuns.LateAckConfirmsNextCall | src/client.rs:169-178 | for any two calls, the second of no more events: a run, with an ack timeout or a dropped call, in which the first call's late ack confirms the second, of which the server has no batch |
| SessionRuns.SafeIffCallerStops | src/client.rs:137-184 | for calls with no size cut to 32 bits, session safety holds over all runs if callers stop at their first error, and not if they may go on |
| SessionRuns.CutCountConfirmedByKeepalive | src/client.rs:141 | a run, without an error, in which a call whose count of events is cut to zero is confirmed by a keepalive with nothing consumed |
| SessionRefinement.ServerIsHandler | src/server.rs:98-192 | in every interleaving the server has dispatched and written what the handler's step machine does, for some environment, over what the calls' bytes decode to with its ending; over a beginning of it if the stream was cut short |
| SessionRefinement.WaitIsAckLoop | src/client.rs:168-183 | in every interleaving the polls of one wait compute what the ack loop does over what was under way and what was written meanwhile: the same success, the same error, an ack timeout behind the same frames, and the same rest left to read |
| SessionRefinement.HandlerIsServer | src/server.rs:98-192 | the converse: once the client's bytes are at the server, the session has every run of the handler over them, for every ending of the stream and whatever the channel, timers, consumer and writes come to |
| SessionRefinement.SendIsFeeding | src/client.rs:155-166 | for every outcome of the writes, a call in the session feeds the frames that `send` feeds and ends with the same error |
| SessionRefinement.AckLoopIsWait | src/client.rs:168-183 | the session has every run of the ack loop over what is at the client, for every ending of the stream and every point at which the timer runs out |
| TimedSession.NoTimeoutInSession | src/client.rs:168-183 | a timed session whose clock is within the bounds in which keepalives are configured never gets to an ack timeout while the server's end is open, if keepalive + wait for the channel + 2 * delay < timeout |
| TimedSession.SessionNoTimeoutIff | src/client.rs:168-183 | for any call of a session without errors so far: no wait for it ends in an ack timeout while the server's end is open if and only if that inequality holds |
| TimedSession.HeldCallConfirmed | src/client.rs:168-183 | for any such call and any number of keepalive intervals, a run in which the consumer holds the batch that long and the call is confirmed |
| Cluster.NextKept | src/server.rs:246-343 | every action of every connection, the accept loop and the consumer keeps the invariant of the whole server |
| Cluster.ClusterSafety | src/server.rs:246-343 | over every interleaving: the channel is within its capacity, each connection has at most one batch not given up and it is in one place, batches are received in order and once, each connection's acks keep their language, and the gauge counts the running handlers |
| ClusterRuns.HandlerIsConnection | src/server.rs:246-304 | in every interleaving each connection has dispatched and written what the connection handler does, for some environment, over the frames decoded for it, and has closed with the handler's verdict |
| ClusterRuns.ConnectionsServed | src/server.rs:265-308 | for any number of connections and whatever each of them meets, short of a receiver that is gone, a run in which all are accepted, with the gauge at their number, and each does what its handler does alone |
| ClusterRuns.AllServed | src/server.rs:246-343 | for connections that send complete windows, a run in which each is accepted, its batches are all dispatched, received in order and given up, and in the end every handler has succeeded and returned and the gauge is at zero |
| ClusterRuns.ServerDropped | src/server.rs:265-343 | when the server is dropped, the batches in the channel are given up, waiting handlers end with success and no batch is admitted; no connection is accepted after the accept loop has ended |
| Keepalive.RunBounded | src/server.rs:172-191 | every run keeps the bound on how long the client has heard nothing |
| Keepalive.SlowestRun | src/client.rs:169-175 | when the bound is not below the timeout, a run ends in an ack timeout |
| Keepalive.HeldThenConfirmed | src/server.rs:172-191 | a run in which the batch is held for any number of keepalive intervals and the call is then confirmed |
| Keepalive.NoTimeoutIff | src/client.rs:168-183 | no run ends in an ack timeout, however long the consumer holds the batch, if and only if keepalive + wait for the channel + 2 * delay < timeout |
| PortScan.ScanIsRotation | src/client.rs:215-219 | for every offset the scan visits the range rotated by it: each port of the range, and none twice |
| PortScan.RoundOf | src/client.rs:215-219 | every port of the range is visited, in a round within the count |
| PortScan.ConnectWithPortRange | src/client.rs:69-74 | a reversed range is rejected; otherwise the scan passes over ports that cannot be bound or connected from, and ends at the first other port with its stream or its error; it reports that no port is available if and only if every port of the range is unavailable, whatever the offset; no arithmetic overflows |

## Left out

- TLS, sockets, name lookup, `nodelay`, logging: calls into other libraries; a connection is a pair of byte streams.
- DEFLATE itself and the compression level: covered by the hypothesis about zlib.
- Builds without the `compression` feature: only the default features are modelled.
- Serialization of events and its error: events are given as serialized payloads.
- Builder setters, error texts, benchmarks and the interoperability programs: no behaviour of their own.
- Capacity reservations (`reserve`, `Vec::with_capacity`): no effect on contents.
- Connection.RunConnection: the body of `run_connection` is given in four methods: its loops level by level, and the dispatch of one batch.
- Codec.Framed.Next: the pause that `Framed` makes when it is polled again after an error is not modelled; the server returns at its first error.
- Connection.Batch.Ack: a batch that the consumer leaks without dropping it is a run in which no ack ever comes.
- Cancellation and panics: a connection's handler ends only by returning. On the client's side, a call that its caller drops counts as an error (`Abandon` in `Session.dfy`).
- The planned bandwidth throttle (docs/superpowers/plans/2026-04-12-client-bandwidth-throttle.md): there is no source for it.
