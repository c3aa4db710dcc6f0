/** The sending side: one batch is encoded, fed to the transport, and its ack awaited. */
module Client {
  import opened Bytes
  import opened Frames
  import opened FrameLaws
  import opened Codec

  /** Event `i` of a batch; sequence numbers start at one in every batch. */
  function EventFrame(i: nat, data: seq<byte>): Frame {
    Json(Truncate32(Truncate32(i) + 1), data)
  }

  function EventFrames(events: seq<seq<byte>>): seq<Frame> {
    seq(|events|, i requires 0 <= i < |events| => EventFrame(i, events[i]))
  }

  function Payload(events: seq<seq<byte>>, z: Zlib): seq<byte> {
    EncodeAll(EventFrames(events), z)
  }

  /** The frames that `send` feeds, and the error that stops it after them, if any. */
  datatype Plan = Plan(frames: seq<Frame>, fault: Option<Error>)

  /** Packed, the payload is one frame; otherwise it is decoded again, frame by frame. */
  function PlanOf(events: seq<seq<byte>>, packed: bool, z: Zlib): Plan {
    var window := Window(Truncate32(|events|));
    if packed then Plan([window, Compressed(Payload(events, z))], None)
    else
      var d := Drain(Payload(events, z), DEFAULT_MAX_FRAME_SIZE, z);
      Plan([window] + d.frames, d.fault)
  }

  /** The first of the writes `start`, .., `end - 1` that fails, or `end`. */
  function FirstFailure(fate: nat -> Option<Error>, start: nat, end: nat): (k: nat)
    requires start <= end
    ensures start <= k <= end && (k < end ==> fate(k).Some?)
    ensures forall i :: start <= i < k ==> fate(i).None?
    decreases end - start
  {
    if start == end || fate(start).Some? then start else FirstFailure(fate, start + 1, end)
  }

  lemma {:induction false} FailureAt(fate: nat -> Option<Error>, start: nat, k: nat, end: nat)
    requires start <= k <= end && (k < end ==> fate(k).Some?)
    requires forall i :: start <= i < k ==> fate(i).None?
    ensures FirstFailure(fate, start, end) == k
    decreases end - start
  {
    if start < k {
      FailureAt(fate, start + 1, k, end);
    }
  }

  /** The frames that get into the write buffer before the first failure. */
  function Fed(p: Plan, fate: nat -> Option<Error>): seq<Frame> {
    p.frames[..FirstFailure(fate, 0, |p.frames|)]
  }

  /** What feeding comes to: the number of frames, or the first failure of a write or of the plan. */
  function Feeding(p: Plan, fate: nat -> Option<Error>): Result<nat> {
    var k := |Fed(p, fate)|;
    if k < |p.frames| then (match fate(k) case Some(e) => Err(e) case None => Ok(k))
    else if p.fault.Some? then Err(p.fault.value)
    else Ok(k)
  }

  lemma FeedingStopsAt(p: Plan, fate: nat -> Option<Error>, k: nat)
    requires k <= |p.frames| && (k < |p.frames| ==> fate(k).Some?)
    requires forall i :: 0 <= i < k ==> fate(i).None?
    ensures Fed(p, fate) == p.frames[..k]
    ensures Feeding(p, fate) == if k < |p.frames| then Err(fate(k).value)
                                else if p.fault.Some? then Err(p.fault.value) else Ok(k)
  {
    FailureAt(fate, 0, k, |p.frames|);
  }

  datatype AckOutcome = AckOutcome(result: Result<u32>, left: Incoming)

  /** Waits for an ack of at least `n`. With `patience` at `k`, the wait after `k` frames times out. */
  function AckLoop(n: u32, feed: Incoming, patience: Option<nat>): AckOutcome
    decreases |feed.frames|
  {
    if patience == Some(0) then AckOutcome(Err(Error.AckTimeout), feed)
    else if feed.frames == [] then
      AckOutcome(Err(if feed.end.Fault? then feed.end.error else ConnectionClosed), feed)
    else
      var rest := feed.(frames := feed.frames[1..]);
      match feed.frames[0]
      case Ack(num) =>
        if num >= n then AckOutcome(Ok(n), rest)
        else AckLoop(n, rest, if patience.Some? then Some(patience.value - 1) else None)
      case _ => AckOutcome(Err(UnexpectedFrame(AckExpected)), rest)
  }

  /** `send` succeeds exactly when an ack of at least `n` comes, behind smaller acks only and in time. */
  lemma {:induction false} AckLoopMeans(n: u32, feed: Incoming, patience: Option<nat>)
    ensures var r := AckLoop(n, feed, patience).result;
            && (r.Ok? ==> r == Ok(n))
            && (r.Ok? <==> exists k: nat :: SatisfiedAt(n, feed.frames, k) && (patience.Some? ==> k < patience.value))
    decreases |feed.frames|
  {
    if patience != Some(0) && feed.frames != [] && feed.frames[0].Ack? {
      var tail := feed.frames[1..];
      var less := if patience.Some? then Some(patience.value - 1) else None;
      if feed.frames[0].num >= n {
        assert SatisfiedAt(n, feed.frames, 0);
      } else {
        AckLoopMeans(n, feed.(frames := tail), less);
        forall k: nat | SatisfiedAt(n, tail, k)
          ensures SatisfiedAt(n, feed.frames, k + 1)
        {
        }
        forall k: nat | SatisfiedAt(n, feed.frames, k)
          ensures k > 0 && SatisfiedAt(n, tail, k - 1)
        {
        }
      }
    }
  }

  ghost predicate SatisfiedAt(n: u32, frames: seq<Frame>, k: nat) {
    && k < |frames|
    && (forall i :: 0 <= i < k ==> frames[i].Ack? && frames[i].num < n)
    && frames[k].Ack? && frames[k].num >= n
  }

  /** What the next call reads on from: the frames that the loop left; behind a failure to read, what could not
      be decoded. */
  ghost predicate AckLoopLeft(o: AckOutcome, framed: Framed, undecoded: seq<byte>)
    reads framed.io, framed.readBuf
  {
    || framed.Remaining() == o.left
    || (&& o.left.frames == [] && o.left.end.Fault? && o.result == Err(o.left.end.error)
        && framed.Unread() == undecoded)
  }

  /** The buffer still holds the plan's frames from number `fed` on, and its fault. */
  ghost predicate Drains(src: seq<byte>, p: Plan, fed: nat, z: Zlib) {
    var d := Drain(src, DEFAULT_MAX_FRAME_SIZE, z);
    fed <= |p.frames| && d.frames == p.frames[fed..] && d.fault == p.fault
  }

  /** What was written when the first `fed` frames of the plan have been fed. */
  ghost function Upto(base: seq<byte>, p: Plan, fed: nat, z: Zlib): seq<byte> {
    base + EncodeAll(if fed <= |p.frames| then p.frames[..fed] else p.frames, z)
  }

  lemma UptoNext(base: seq<byte>, p: Plan, fed: nat, z: Zlib)
    ensures fed <= |p.frames| ==> Upto(base, p, fed, z) == base + EncodeAll(p.frames[..fed], z)
    ensures fed < |p.frames| ==> Upto(base, p, fed + 1, z) == Upto(base, p, fed, z) + Encode(p.frames[fed], z)
  {
    hide Encode, EncodeAll;
    if fed < |p.frames| {
      Appended(p.frames, fed, z);
    }
  }

  lemma UptoNothing(base: seq<byte>, p: Plan, z: Zlib)
    ensures Upto(base, p, 0, z) == base
  {
    assert p.frames[..0] == [];
    assert base + [] == base;
  }

  /** How the plan of a batch begins. */
  lemma PlanStarts(events: seq<seq<byte>>, packed: bool, z: Zlib)
    ensures var p := PlanOf(events, packed, z);
            && p.frames != [] && p.frames[0] == Window(Truncate32(|events|))
            && (packed ==> p == Plan([p.frames[0], Compressed(Payload(events, z))], None))
            && (!packed ==> Drains(Payload(events, z), p, 1, z))
  {
    hide Drain, Payload;
  }

  lemma KeepsDraining(src: seq<byte>, p: Plan, fed: nat, z: Zlib)
    requires Drains(src, p, fed, z)
    ensures match Decode(src, DEFAULT_MAX_FRAME_SIZE, z)
            case NeedMore => fed == |p.frames| && p.fault.None?
            case Bad(e, _) => fed == |p.frames| && p.fault == Some(e)
            case Got(f, rest) => fed < |p.frames| && f == p.frames[fed] && Drains(rest, p, fed + 1, z)
  {
    hide Drain, Decode;
    DrainHead(src, DEFAULT_MAX_FRAME_SIZE, z);
    var d := Decode(src, DEFAULT_MAX_FRAME_SIZE, z);
    if d.Got? {
      var tail := Drain(d.rest, DEFAULT_MAX_FRAME_SIZE, z).frames;
      assert p.frames[fed..] == [d.frame] + tail;
      assert p.frames[fed..][1..] == p.frames[fed + 1..];
    }
  }

  class Client {
    const framed: Framed
    const compressionLevel: nat
    const ackTimeout: bool

    constructor (framed: Framed, compressionLevel: nat, ackTimeout: bool)
      ensures this.framed == framed && this.compressionLevel == compressionLevel && this.ackTimeout == ackTimeout
    {
      this.framed := framed;
      this.compressionLevel := compressionLevel;
      this.ackTimeout := ackTimeout;
    }

    /** Sends a batch of serialized events. `fate` is what each feed and then the flush come to, and
        `patience` the wait at which the ack timer, if there is one, runs out. */
    method Send(events: seq<seq<byte>>, fate: nat -> Option<Error>, patience: Option<nat>) returns (r: Result<u32>)
      requires framed.Valid() && framed.codec.maxFrameSize == DEFAULT_MAX_FRAME_SIZE
      modifies framed.readBuf, framed.writeBuf, framed.io
      ensures events == [] ==>
                r == Ok(0) && framed.Written() == old(framed.Written()) && framed.Remaining() == old(framed.Remaining())
      ensures events != [] ==>
                var p := PlanOf(events, compressionLevel > 0, framed.codec.z);
                && framed.Written() == old(framed.Written()) + EncodeAll(Fed(p, fate), framed.codec.z)
                && var o := AckLoop(Truncate32(|events|), old(framed.Remaining()), if ackTimeout then patience else None);
                && r == (match Feeding(p, fate)
                         case Err(e) => Err(e)
                         case Ok(k) => if fate(k).Some? then Err(fate(k).value) else o.result)
                && (r.Ok? ==> framed.writeBuf.data == [])
                && (Feeding(p, fate).Err? || fate(Feeding(p, fate).value).Some? ==> framed.Remaining() == old(framed.Remaining()))
                && (Feeding(p, fate).Ok? && fate(Feeding(p, fate).value).None? ==> AckLoopLeft(o, framed, old(framed.Undecoded())))
    {
      hide Drain, Encode, Decode, Read, Fed, Feeding, AckLoop;
      if events == [] {
        return Ok(0);
      }
      var n := Truncate32(|events|);
      var fed := FeedBatch(events, n, fate);
      if fed.Err? {
        return Err(fed.error);
      }
      var failed := framed.Flush(fate(fed.value));
      if failed.Some? {
        return Err(failed.value);
      }
      r := ReceiveAck(n, patience);
    }

    /** Feeds the window frame, then the payload as one frame or as its events. */
    method FeedBatch(events: seq<seq<byte>>, n: u32, fate: nat -> Option<Error>) returns (r: Result<nat>)
      requires framed.Valid() && n == Truncate32(|events|)
      modifies framed.writeBuf, framed.io`sent
      ensures var p := PlanOf(events, compressionLevel > 0, framed.codec.z);
              && framed.Written() == old(framed.Written()) + EncodeAll(Fed(p, fate), framed.codec.z)
              && r == Feeding(p, fate)
    {
      hide Drain, Encode, EncodeAll, Decode, Fed, Feeding, Truncate32, Payload, PlanOf, Drains, Upto, FirstFailure;
      var z := framed.codec.z;
      ghost var base, p := framed.Written(), PlanOf(events, compressionLevel > 0, z);
      PlanStarts(events, compressionLevel > 0, z);
      UptoNext(base, p, 0, z);
      UptoNothing(base, p, z);
      var payload := EncodeEvents(events, z);
      var failed := framed.Feed(Window(n), fate(0));
      if failed.Some? {
        FeedingStopsAt(p, fate, 0);
        return Err(failed.value);
      }
      if compressionLevel > 0 {
        UptoNext(base, p, 1, z);
        UptoNext(base, p, 2, z);
        failed := framed.Feed(Compressed(payload.data), fate(1));
        FeedingStopsAt(p, fate, if failed.Some? then 1 else 2);
        r := if failed.Some? then Err(failed.value) else Ok(2);
      } else {
        r := Refeed(payload, fate, p, base);
      }
    }

    /** The payload is decoded again with the default limit, and its frames are fed one by one. */
    method Refeed(buf: BytesMut, fate: nat -> Option<Error>, ghost p: Plan, ghost base: seq<byte>) returns (r: Result<nat>)
      requires framed.Valid() && buf != framed.writeBuf && 1 <= |p.frames|
      requires Drains(buf.data, p, 1, framed.codec.z)
      requires framed.Written() == Upto(base, p, 1, framed.codec.z) && fate(0).None?
      modifies buf, framed.writeBuf, framed.io`sent
      ensures framed.Written() == base + EncodeAll(Fed(p, fate), framed.codec.z)
      ensures r == Feeding(p, fate)
    {
      hide Drain, Encode, EncodeAll, Decode, Fed, Feeding, Before, Drains, Upto, FirstFailure, Concat, Read;
      var fed := 1;
      while true
        invariant 1 <= fed <= |p.frames|
        invariant Drains(buf.data, p, fed, framed.codec.z)
        invariant framed.Written() == Upto(base, p, fed, framed.codec.z)
        invariant forall i :: 0 <= i < fed ==> fate(i).None?
        decreases |buf.data|
      {
        KeepsDraining(buf.data, p, fed, framed.codec.z);
        UptoNext(base, p, fed, framed.codec.z);
        var next := DecodeWithLimit(buf, DEFAULT_MAX_FRAME_SIZE, framed.codec.z);
        if next.Err? {
          FeedingStopsAt(p, fate, fed);
          return Err(next.error);
        }
        if next.value.None? {
          FeedingStopsAt(p, fate, fed);
          return Ok(fed);
        }
        var failed := framed.Feed(next.value.value, fate(fed));
        if failed.Some? {
          FeedingStopsAt(p, fate, fed);
          return Err(failed.value);
        }
        fed := fed + 1;
      }
    }

    /** Frames are read until an ack covers the batch; keepalives and partial acks are passed over. */
    method ReceiveAck(n: u32, patience: Option<nat>) returns (r: Result<u32>)
      requires framed.Valid()
      modifies framed.readBuf, framed.io`arriving
      ensures var o := AckLoop(n, old(framed.Remaining()), if ackTimeout then patience else None);
              r == o.result && AckLoopLeft(o, framed, old(framed.Undecoded()))
    {
      hide Read, Decode;
      var waits := patience;
      while true
        invariant AckLoop(n, framed.Remaining(), if ackTimeout then waits else None)
                  == AckLoop(n, old(framed.Remaining()), if ackTimeout then patience else None)
        invariant framed.Undecoded() == old(framed.Undecoded())
        decreases |framed.Remaining().frames|
      {
        if ackTimeout && waits == Some(0) {
          return Err(Error.AckTimeout);
        }
        if waits.Some? && waits.value > 0 {
          waits := Some(waits.value - 1);
        }
        var recv := framed.Next();
        match recv
        case None =>
          return Err(ConnectionClosed);
        case Some(Err(e)) =>
          return Err(e);
        case Some(Ok(f)) =>
          if !f.Ack? {
            return Err(UnexpectedFrame(AckExpected));
          }
          if f.num >= n {
            return Ok(n);
          }
      }
    }
  }

  /** The payload buffer: the events' frames, one behind the other. */
  method EncodeEvents(events: seq<seq<byte>>, z: Zlib) returns (payload: BytesMut)
    ensures fresh(payload) && payload.data == Payload(events, z)
  {
    hide Encode;
    payload := new BytesMut([]);
    var fs := EventFrames(events);
    for i := 0 to |events|
      invariant fresh(payload) && payload.data == EncodeAll(fs[..i], z)
    {
      EncodeInto(EventFrame(i, events[i]), payload, z);
      Appended(fs, i, z);
    }
    assert fs[..|events|] == fs;
  }

  lemma Appended(fs: seq<Frame>, i: nat, z: Zlib)
    requires i < |fs|
    ensures EncodeAll(fs[..i + 1], z) == EncodeAll(fs[..i], z) + Encode(fs[i], z)
  {
    assert fs[..i + 1] == fs[..i] + [fs[i]];
    EncodeAllAppend(fs[..i], [fs[i]], z);
    EncodeAllOne(fs[i], z);
  }
}
