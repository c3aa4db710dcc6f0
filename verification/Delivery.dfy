/** End to end: what the client writes is what the server makes its batch of. */
module Delivery {
  import opened Bytes
  import opened Frames
  import opened FrameLaws
  import opened Codec
  import opened Connection
  import opened ConnectionLaws
  import opened Client

  // ---------------------------------------------------------------------------
  // The uncompressed path: encode, decode again, feed
  // ---------------------------------------------------------------------------

  ghost predicate NoneAbove(events: seq<seq<byte>>, limit: nat) {
    forall i :: 0 <= i < |events| ==> |events[i]| <= limit
  }

  /** The frames of a whole batch. */
  function BatchFrames(events: seq<seq<byte>>, packed: bool, z: Zlib): seq<Frame> {
    [Window(Truncate32(|events|))] + if packed then [Compressed(Payload(events, z))] else EventFrames(events)
  }

  lemma FirstAbove(events: seq<seq<byte>>, limit: nat) returns (k: nat)
    requires !NoneAbove(events, limit)
    ensures k < |events| && |events[k]| > limit && NoneAbove(events[..k], limit)
  {
    var bad :| 0 <= bad < |events| && |events[bad]| > limit;
    k := 0;
    while |events[k]| <= limit
      invariant k <= bad && NoneAbove(events[..k], limit)
      decreases bad - k
    {
      k := k + 1;
    }
  }

  lemma DrainNothing(max: nat, z: Zlib)
    ensures Drain([], max, z) == Drained([], [], None)
  {
    hide Decode;
    DecodeNothing(max, z);
  }

  /** Where the loop first meets an event above the default limit. It fails there, unless the length cut to
      32 bits is within the limit: then a beginning of the event goes out in the event's place, and the loop
      reads on in the middle of the event. */
  lemma RefeedStops(events: seq<seq<byte>>, k: nat, z: Zlib)
    requires Faithful(z) && k < |events|
    requires NoneAbove(events[..k], DEFAULT_MAX_FRAME_SIZE) && |events[k]| > DEFAULT_MAX_FRAME_SIZE
    ensures var fed, len := BatchFrames(events, false, z)[..k + 1], Truncate32(|events[k]|);
            if len > DEFAULT_MAX_FRAME_SIZE then
              PlanOf(events, false, z) == Plan(fed, Some(FrameTooLarge(len, DEFAULT_MAX_FRAME_SIZE)))
            else
              var d := Drain(Behind(events, k, z), DEFAULT_MAX_FRAME_SIZE, z);
              PlanOf(events, false, z)
              == Plan(fed + [CutFrame(k, events[k])] + d.frames, d.fault)
  {
    hide Encode, EncodeAll, Decode, Drain, Faithful, Behind;
    var fs, window := EventFrames(events), [Window(Truncate32(|events|))];
    PayloadStops(events, k, z);
    assert BatchFrames(events, false, z) == window + fs;
    assert (window + fs)[..k + 1] == window + fs[..k];
    var len := Truncate32(|events[k]|);
    if len <= DEFAULT_MAX_FRAME_SIZE {
      var d, cut := Drain(Behind(events, k, z), DEFAULT_MAX_FRAME_SIZE, z), CutFrame(k, events[k]);
      assert window + (fs[..k] + [cut] + d.frames) == window + fs[..k] + [cut] + d.frames;
    }
  }

  lemma PayloadStops(events: seq<seq<byte>>, k: nat, z: Zlib)
    requires Faithful(z) && k < |events|
    requires NoneAbove(events[..k], DEFAULT_MAX_FRAME_SIZE)
    ensures var fed, len := EventFrames(events)[..k], Truncate32(|events[k]|);
            var d := Drain(Payload(events, z), DEFAULT_MAX_FRAME_SIZE, z);
            if len > DEFAULT_MAX_FRAME_SIZE then
              d.frames == fed && d.fault == Some(FrameTooLarge(len, DEFAULT_MAX_FRAME_SIZE))
            else
              var e := Drain(Behind(events, k, z), DEFAULT_MAX_FRAME_SIZE, z);
              d.frames == fed + [CutFrame(k, events[k])] + e.frames && d.fault == e.fault
  {
    hide Encode, EncodeAll, Decode, Drain, Faithful;
    var max, fs := DEFAULT_MAX_FRAME_SIZE, EventFrames(events);
    var behind := EncodeAll(fs[k + 1..], z);
    var src := Encode(fs[k], z) + behind;
    assert fs == fs[..k] + fs[k..] && fs[k..][0] == fs[k] && fs[k..][1..] == fs[k + 1..];
    EncodeAllAppend(fs[..k], fs[k..], z);
    EncodeAllHead(fs[k..], z);
    EventsBeforeFit(events, k, z);
    StreamRoundTrip(fs[..k], src, max, z);
    DecodeEncodedEvent(fs[k], behind, max, z);
    DrainHead(src, max, z);
  }

  lemma EventsBeforeFit(events: seq<seq<byte>>, k: nat, z: Zlib)
    requires k <= |events| && NoneAbove(events[..k], DEFAULT_MAX_FRAME_SIZE)
    ensures AllFit(EventFrames(events)[..k], DEFAULT_MAX_FRAME_SIZE, z)
  {
    forall i | 0 <= i < k
      ensures Fits(EventFrames(events)[..k][i], DEFAULT_MAX_FRAME_SIZE, z)
    {
      assert EventFrames(events)[i].data == events[..k][i];
    }
  }

  /** What the length field of event `k` accounts for, as a frame. */
  function CutFrame(k: nat, event: seq<byte>): Frame {
    Json(EventFrame(k, event).num, event[..Truncate32(|event|)])
  }

  /** What is left of the payload behind the bytes that the length field of event `k` accounts for. */
  function Behind(events: seq<seq<byte>>, k: nat, z: Zlib): seq<byte>
    requires k < |events|
  {
    events[k][Truncate32(|events[k]|)..] + EncodeAll(EventFrames(events)[k + 1..], z)
  }

  /** The frames fed are those that were encoded, and the bytes are the payload buffer's, exactly when no
      event is above the default limit. */
  lemma RefeedIff(events: seq<seq<byte>>, z: Zlib)
    requires Faithful(z)
    ensures PlanOf(events, false, z) == Plan(BatchFrames(events, false, z), None)
            <==> forall i :: 0 <= i < |events| ==> |events[i]| <= 16_777_216
    ensures EncodeAll(BatchFrames(events, false, z), z) == Encode(Window(Truncate32(|events|)), z) + Payload(events, z)
  {
    hide Encode, Decode, Drain, Faithful, Behind;
    var fs, max := EventFrames(events), DEFAULT_MAX_FRAME_SIZE;
    var window := Window(Truncate32(|events|));
    assert BatchFrames(events, false, z)[1..] == fs;
    if NoneAbove(events, max) {
      assert AllFit(fs, max, z);
      StreamRoundTrip(fs, [], max, z);
      DrainNothing(max, z);
      assert Payload(events, z) + [] == Payload(events, z) && fs + [] == fs;
    } else {
      var k := FirstAbove(events, max);
      RefeedStops(events, k, z);
      if Truncate32(|events[k]|) <= max {
        assert PlanOf(events, false, z).frames[k + 1] == CutFrame(k, events[k]);
        assert BatchFrames(events, false, z)[k + 1] == fs[k];
      }
    }
  }

  lemma EncodeAllHead(fs: seq<Frame>, z: Zlib)
    requires fs != []
    ensures EncodeAll(fs, z) == Encode(fs[0], z) + EncodeAll(fs[1..], z)
  {
  }

  // ---------------------------------------------------------------------------
  // A batch's frames are one complete window
  // ---------------------------------------------------------------------------

  lemma {:induction false} EventsFlatten(events: seq<seq<byte>>, i: nat, max: nat, z: Zlib)
    requires i <= |events| < U32_RANGE
    ensures var items := Flatten(EventFrames(events)[i..], max, z);
            && |items| == |events| - i
            && Rising(items, i)
            && Payloads(items) == events[i..]
            && LastNum(items, i) == |events|
    decreases |events| - i
  {
    if i < |events| {
      var fs := EventFrames(events)[i..];
      EventsFlatten(events, i + 1, max, z);
      EventsAt(events, i);
      ItemsPush(fs[0], fs[1..], max, z);
      assert fs == [fs[0]] + fs[1..];
      assert events[i..] == [events[i]] + events[i + 1..];
    }
  }

  lemma EventsAt(events: seq<seq<byte>>, i: nat)
    requires i < |events| < U32_RANGE
    ensures var fs := EventFrames(events)[i..];
            fs[0] == Json(i + 1, events[i]) && fs[1..] == EventFrames(events)[i + 1..]
  {
  }

  lemma ItemsPush(f: Frame, fs: seq<Frame>, max: nat, z: Zlib)
    requires f.Json?
    ensures var items, tail := Flatten([f] + fs, max, z), Flatten(fs, max, z);
            && items == [Event(f.num, f.data)] + tail && items[1..] == tail
            && Payloads(items) == [f.data] + Payloads(tail)
  {
    assert ([f] + fs)[1..] == fs;
    var items := Flatten([f] + fs, max, z);
    assert items == [Event(f.num, f.data)] + Flatten(fs, max, z);
    assert items[1..] == Flatten(fs, max, z);
  }

  lemma {:induction false} EventFramesFlatten(fs: seq<Frame>, max: nat, z: Zlib)
    requires forall i :: 0 <= i < |fs| ==> fs[i].Json?
    ensures |Flatten(fs, max, z)| == |fs|
    decreases |fs|
  {
    if fs != [] {
      EventFramesFlatten(fs[1..], max, z);
    }
  }

  lemma {:induction false} PartWithin(fs: seq<Frame>, i: nat, z: Zlib)
    requires i < |fs| && fs[i].Json?
    ensures |fs[i].data| <= |EncodeAll(fs, z)|
    decreases i
  {
    if i > 0 {
      PartWithin(fs[1..], i - 1, z);
    }
  }

  /** What a receiver with limit `max`, and the client's own re-decoding, take. */
  ghost predicate Within(events: seq<seq<byte>>, packed: bool, max: nat, z: Zlib) {
    if packed then
      |Payload(events, z)| <= max && |z.deflate(Payload(events, z))| <= max
    else
      NoneAbove(events, max) && NoneAbove(events, DEFAULT_MAX_FRAME_SIZE)
  }

  /** No length or count is cut to 32 bits. */
  ghost predicate SizedBatch(events: seq<seq<byte>>, packed: bool, z: Zlib) {
    && 0 < |events| < U32_RANGE
    && NoneAbove(events, U32_RANGE - 1)
    && (packed ==> |z.deflate(Payload(events, z))| < U32_RANGE)
  }

  lemma EventsFit(events: seq<seq<byte>>, packed: bool, max: nat, z: Zlib)
    requires SizedBatch(events, packed, z) && Within(events, packed, max, z)
    ensures AllFit(BatchFrames(events, packed, z), max, z) && EventsWithin(EventFrames(events), max, z)
  {
    if packed {
      forall i | 0 <= i < |events|
        ensures |events[i]| <= max
      {
        PartWithin(EventFrames(events), i, z);
      }
    }
  }

  lemma BatchIsBlock(events: seq<seq<byte>>, packed: bool, cfg: Cfg)
    requires Faithful(cfg.z) && SizedBatch(events, packed, cfg.z) && Within(events, packed, cfg.max, cfg.z)
    ensures Block(BatchFrames(events, packed, cfg.z), BatchData(events, |events|), cfg)
  {
    hide Encode, Decode, Faithful, Flatten, Rising, Payloads, LastNum, EncodeAll, Within;
    var fs, body := EventFrames(events), BatchFrames(events, packed, cfg.z)[1..];
    EventsFit(events, packed, cfg.max, cfg.z);
    EventsFlatten(events, 0, cfg.max, cfg.z);
    assert fs[0..] == fs && events[0..] == events;
    var items := Flatten(fs, cfg.max, cfg.z);
    assert items[..|events|] == items;
    FlattenNone(cfg.max, cfg.z);
    if packed {
      assert body == [Compressed(Payload(events, cfg.z))] && body[..0] == [];
      FlattenOnly(body[0], cfg.max, cfg.z);
      FlattenPacked(fs, cfg.max, cfg.z);
    } else {
      assert body == fs;
      EventFramesFlatten(body[..|body| - 1], cfg.max, cfg.z);
    }
  }

  // ---------------------------------------------------------------------------
  // Fidelity
  // ---------------------------------------------------------------------------

  /** In the middle of any session: the bytes of a batch make one more batch of exactly its events, and the
      server is back at a window boundary with just the bytes behind it unread. */
  lemma BatchArrives(w: World, events: seq<seq<byte>>, packed: bool, more: seq<byte>, cfg: Cfg) returns (after: World)
    requires Faithful(cfg.z) && SizedBatch(events, packed, cfg.z) && Within(events, packed, cfg.max, cfg.z)
    requires w.conn.phase.ExpectWindow? && w.env != [] && Cooperative(w.env[0])
    requires w.feed == Read(EncodeAll(BatchFrames(events, packed, cfg.z), cfg.z) + more, cfg.max, cfg.z)
    ensures Drive(w, cfg) == Drive(after, cfg) && after.conn.phase.ExpectWindow?
    ensures |events| < U32_RANGE && after.conn.dispatched == w.conn.dispatched + [BatchData(events, |events|)]
    ensures after.feed == Read(more, cfg.max, cfg.z) && after.env == w.env[1..]
  {
    hide Drive, Drain, Encode, EncodeAll, Faithful, Block, Within, Fits;
    var fs, b := BatchFrames(events, packed, cfg.z), BatchData(events, |events|);
    var rest := Read(more, cfg.max, cfg.z).frames;
    EventsFit(events, packed, cfg.max, cfg.z);
    StreamRoundTrip(fs, more, cfg.max, cfg.z);
    BatchIsBlock(events, packed, cfg);
    ConcatOne(fs);
    after := EveryCompleteWindow(w, [fs], [b], rest, cfg);
  }

  /** One call of `send` with at least one event. */
  datatype Order = Order(events: seq<seq<byte>>, packed: bool)

  function WireBytes(orders: seq<Order>, z: Zlib): seq<byte> {
    if orders == [] then []
    else EncodeAll(BatchFrames(orders[0].events, orders[0].packed, z), z) + WireBytes(orders[1..], z)
  }

  function Batches(orders: seq<Order>): seq<BatchData> {
    seq(|orders|, i requires 0 <= i < |orders| => BatchData(orders[i].events, Truncate32(|orders[i].events|)))
  }

  ghost predicate Deliverable(o: Order, max: nat, z: Zlib) {
    SizedBatch(o.events, o.packed, z) && Within(o.events, o.packed, max, z)
  }

  /** A whole session of calls, compressed or not in any mixture, makes exactly their batches, in order. */
  lemma {:induction false} SessionArrives(w: World, orders: seq<Order>, more: seq<byte>, cfg: Cfg) returns (after: World)
    requires Faithful(cfg.z) && forall i :: 0 <= i < |orders| ==> Deliverable(orders[i], cfg.max, cfg.z)
    requires |orders| <= |w.env| && forall i :: 0 <= i < |orders| ==> Cooperative(w.env[i])
    requires w.conn.phase.ExpectWindow? && w.feed == Read(WireBytes(orders, cfg.z) + more, cfg.max, cfg.z)
    ensures Drive(w, cfg) == Drive(after, cfg) && after.conn.phase.ExpectWindow?
    ensures after.conn.dispatched == w.conn.dispatched + Batches(orders)
    ensures after.feed == Read(more, cfg.max, cfg.z) && after.env == w.env[|orders|..]
    decreases |orders|
  {
    hide Drive, Read, Faithful, EncodeAll, BatchFrames, SizedBatch, Within, Cooperative;
    if orders == [] {
      after := w;
      assert WireBytes(orders, cfg.z) + more == more && Batches(orders) == [];
      return;
    }
    var o, rest := orders[0], orders[1..];
    assert Deliverable(o, cfg.max, cfg.z) && Cooperative(w.env[0]);
    assert WireBytes(orders, cfg.z) + more
        == EncodeAll(BatchFrames(o.events, o.packed, cfg.z), cfg.z) + (WireBytes(rest, cfg.z) + more);
    var next := BatchArrives(w, o.events, o.packed, WireBytes(rest, cfg.z) + more, cfg);
    after := SessionArrives(next, rest, more, cfg);
    OrderSize(o, cfg.z);
    assert Batches(orders) == [BatchData(o.events, |o.events|)] + Batches(rest);
  }

  lemma OrderSize(o: Order, z: Zlib)
    requires SizedBatch(o.events, o.packed, z)
    ensures Truncate32(|o.events|) == |o.events|
  {
  }

  /** A stream of well-formed frames is read up to the first that does not fit. */
  lemma {:induction false} DrainSized(fs: seq<Frame>, max: nat, z: Zlib)
    requires Faithful(z) && forall i :: 0 <= i < |fs| ==> Sized(fs[i], z)
    ensures var d := Drain(EncodeAll(fs, z), max, z);
            d.frames <= fs && (d.frames == fs ==> AllFit(fs, max, z))
    decreases |fs|
  {
    hide Encode, Decode, Drain, Faithful, Sized, Fits;
    if fs == [] {
      DrainNothing(max, z);
    } else {
      var tail := EncodeAll(fs[1..], z);
      DrainSized(fs[1..], max, z);
      DrainHead(EncodeAll(fs, z), max, z);
      DecodeEncoded(fs[0], tail, max, z);
      var d := Drain(EncodeAll(fs, z), max, z);
      if Fits(fs[0], max, z) {
        assert d.frames == [fs[0]] + Drain(tail, max, z).frames;
        if d.frames == fs {
          assert forall i :: 0 < i < |fs| ==> fs[i] == fs[1..][i - 1];
        }
      } else {
        assert d.frames == [];
      }
    }
  }

  /** Less than a whole batch holds no complete window. */
  lemma NoBlockInPart(events: seq<seq<byte>>, packed: bool, part: seq<Frame>, block: seq<Frame>, b: BatchData, cfg: Cfg)
    requires 0 < |events| < U32_RANGE
    requires part <= BatchFrames(events, packed, cfg.z) && part != BatchFrames(events, packed, cfg.z)
    requires block <= part
    ensures !Block(block, b, cfg)
  {
    hide Flatten, Rising;
    if block != [] {
      var body := block[1..];
      if packed {
        assert body == [];
        FlattenNone(cfg.max, cfg.z);
      } else {
        assert forall i :: 0 <= i < |body| ==> body[i] == EventFrames(events)[i];
        EventFramesFlatten(body, cfg.max, cfg.z);
      }
    }
  }

  lemma PlanIsPart(events: seq<seq<byte>>, packed: bool, z: Zlib)
    requires Faithful(z) && SizedBatch(events, packed, z)
    ensures PlanOf(events, packed, z).frames <= BatchFrames(events, packed, z)
  {
    hide Encode, Decode, Drain, Faithful, EncodeAll;
    if !packed {
      DrainSized(EventFrames(events), DEFAULT_MAX_FRAME_SIZE, z);
    }
  }

  lemma PartRead(events: seq<seq<byte>>, packed: bool, max: nat, z: Zlib)
    requires Faithful(z) && SizedBatch(events, packed, z)
    ensures var part := Read(EncodeAll(PlanOf(events, packed, z).frames, z), max, z).frames;
            && part <= BatchFrames(events, packed, z)
            && (part == BatchFrames(events, packed, z) ==> Within(events, packed, max, z))
  {
    hide Encode, Decode, Drain, Faithful, EncodeAll;
    var plan := PlanOf(events, packed, z).frames;
    var all := BatchFrames(events, packed, z);
    PlanIsPart(events, packed, z);
    DrainSized(plan, max, z);
    if Read(EncodeAll(plan, z), max, z).frames == all {
      assert plan == all;
      if packed {
        assert Fits(all[1], max, z);
      } else {
        assert all[1..] == EventFrames(events);
        DrainSized(EventFrames(events), DEFAULT_MAX_FRAME_SIZE, z);
        assert AllFit(EventFrames(events), DEFAULT_MAX_FRAME_SIZE, z);
        forall i | 0 <= i < |events|
          ensures |events[i]| <= max && |events[i]| <= DEFAULT_MAX_FRAME_SIZE
        {
          assert Fits(EventFrames(events)[i], DEFAULT_MAX_FRAME_SIZE, z);
          assert all[i + 1] == EventFrames(events)[i] && Fits(all[i + 1], max, z);
        }
      }
    }
  }

  /** Packed or not, the server makes one batch of exactly the client's events if and only if they are within
      the limits and no size is cut to 32 bits; with no size cut, it otherwise makes none. */
  lemma FidelityIff(events: seq<seq<byte>>, packed: bool, e: Encounter, cfg: Cfg)
    requires Faithful(cfg.z) && Cooperative(e) && events != []
    requires packed ==> |cfg.z.deflate(Payload(events, cfg.z))| < U32_RANGE
    ensures var bytes := EncodeAll(PlanOf(events, packed, cfg.z).frames, cfg.z);
            var end := Drive(Start(Read(bytes, cfg.max, cfg.z), [e]), cfg);
            var fine := Deliverable(Order(events, packed), cfg.max, cfg.z);
            && (fine <==> |end.conn.dispatched| == 1 && end.conn.dispatched[0].events == events)
            && (fine ==> end.conn == Conn(Closed(Finished), [BatchData(events, |events|)], end.conn.written)
                         && end.feed.frames == [])
            && (!fine && SizedBatch(events, packed, cfg.z) ==> end.conn.dispatched == [])
  {
    hide Drive, PlanOf, Read, EncodeAll, Faithful, Cooperative, Within;
    var bytes := EncodeAll(PlanOf(events, packed, cfg.z).frames, cfg.z);
    if Deliverable(Order(events, packed), cfg.max, cfg.z) {
      BatchFinishes(events, packed, e, cfg);
    } else if SizedBatch(events, packed, cfg.z) {
      NothingFinishes(events, packed, [e], cfg);
    } else {
      CutBatchDiffers(events, packed, [e], cfg);
    }
  }

  lemma BatchFinishes(events: seq<seq<byte>>, packed: bool, e: Encounter, cfg: Cfg)
    requires Faithful(cfg.z) && Cooperative(e) && Deliverable(Order(events, packed), cfg.max, cfg.z)
    ensures |events| < U32_RANGE
    ensures var bytes := EncodeAll(PlanOf(events, packed, cfg.z).frames, cfg.z);
            var end := Drive(Start(Read(bytes, cfg.max, cfg.z), [e]), cfg);
            && end.conn == Conn(Closed(Finished), [BatchData(events, |events|)], end.conn.written)
            && end.feed.frames == []
  {
    hide Drive, Drain, Encode, Decode, EncodeAll, Faithful, Cooperative, BatchFrames;
    PlanIsWhole(Order(events, packed), cfg.z);
    var bytes := EncodeAll(PlanOf(events, packed, cfg.z).frames, cfg.z);
    assert bytes + [] == bytes;
    var after := BatchArrives(Start(Read(bytes, cfg.max, cfg.z), [e]), events, packed, [], cfg);
    DrainNothing(cfg.max, cfg.z);
    Unfold(after, cfg);
    Unfold(Step(after, cfg), cfg);
  }

  lemma NothingFinishes(events: seq<seq<byte>>, packed: bool, env: seq<Encounter>, cfg: Cfg)
    requires Faithful(cfg.z) && SizedBatch(events, packed, cfg.z) && !Within(events, packed, cfg.max, cfg.z)
    ensures var bytes := EncodeAll(PlanOf(events, packed, cfg.z).frames, cfg.z);
            Drive(Start(Read(bytes, cfg.max, cfg.z), env), cfg).conn.dispatched == []
  {
    hide Drive, Drain, Encode, Decode, EncodeAll, Faithful, Block, Concat, BatchFrames;
    var w := Start(Read(EncodeAll(PlanOf(events, packed, cfg.z).frames, cfg.z), cfg.max, cfg.z), env);
    var blocks, bs := OnlyCompleteWindows(w, cfg);
    PartRead(events, packed, cfg.max, cfg.z);
    if blocks != [] {
      ConcatHead(blocks);
      NoBlockInPart(events, packed, w.feed.frames, blocks[0], bs[0], cfg);
    }
  }

  /** Where a size is cut, the server's batch may be another one, but never the client's: its events number
      as many as the window frame says, and each is as long as a length field can say. */
  lemma CutBatchDiffers(events: seq<seq<byte>>, packed: bool, env: seq<Encounter>, cfg: Cfg)
    requires Faithful(cfg.z) && events != [] && (|events| >= U32_RANGE || !NoneAbove(events, U32_RANGE - 1))
    ensures var bytes := EncodeAll(PlanOf(events, packed, cfg.z).frames, cfg.z);
            var got := Drive(Start(Read(bytes, cfg.max, cfg.z), env), cfg).conn.dispatched;
            got != [] ==> got[0].events != events
  {
    hide Drive, Drain, Encode, Decode, EncodeAll, Faithful, Concat, Flatten, FlattenOne;
    var plan := PlanOf(events, packed, cfg.z).frames;
    var w := Start(Read(EncodeAll(plan, cfg.z), cfg.max, cfg.z), env);
    var blocks, bs := OnlyCompleteWindows(w, cfg);
    if bs != [] && bs[0].events == events {
      var block, window := blocks[0], Window(Truncate32(|events|));
      ConcatHead(blocks);
      EncodeAllHead(plan, cfg.z);
      DecodeEncoded(window, EncodeAll(plan[1..], cfg.z), cfg.max, cfg.z);
      DrainHead(EncodeAll(plan, cfg.z), cfg.max, cfg.z);
      assert Block(block, bs[0], cfg) && block[0] == window;
      BatchMeans(Flatten(block[1..], cfg.max, cfg.z), window.count, bs[0]);
      DrainLengths(EncodeAll(plan, cfg.z), cfg.max, cfg.z);
      assert forall i :: 0 < i < |block| ==> block[i] == w.feed.frames[i];
      ItemLengths(block[1..], cfg.max, cfg.z);
    }
  }

  /** A length field says less than 2^32. */
  lemma {:induction false} DrainLengths(src: seq<byte>, max: nat, z: Zlib)
    ensures forall f :: f in Drain(src, max, z).frames && f.Json? ==> |f.data| < U32_RANGE
    decreases |src|
  {
    hide Decode;
    DecodeLength(src, max, z);
    var d := Decode(src, max, z);
    if d.Got? {
      DrainLengths(d.rest, max, z);
    }
  }

  lemma DecodeLength(src: seq<byte>, max: nat, z: Zlib)
    ensures var d := Decode(src, max, z); d.Got? && d.frame.Json? ==> |d.frame.data| < U32_RANGE
  {
  }

  lemma {:induction false} InnerLengths(inner: seq<byte>, max: nat, z: Zlib)
    ensures forall x :: x in FlattenInner(inner, max, z) && x.Event? ==> |x.data| < U32_RANGE
    decreases |inner|
  {
    hide Decode;
    DecodeLength(inner, max, z);
    var d := Decode(inner, max, z);
    if inner != [] && d.Got? && d.frame.Json? {
      InnerLengths(d.rest, max, z);
    }
  }

  lemma {:induction false} ItemLengths(fs: seq<Frame>, max: nat, z: Zlib)
    requires forall f :: f in fs && f.Json? ==> |f.data| < U32_RANGE
    ensures forall x :: x in Flatten(fs, max, z) && x.Event? ==> |x.data| < U32_RANGE
    decreases |fs|
  {
    hide FlattenInner;
    if fs != [] {
      if fs[0].Compressed? {
        InnerLengths(fs[0].inner, max, z);
      }
      ItemLengths(fs[1..], max, z);
    }
  }

  /** An event whose length is cut to one within the limits: the server makes a batch of the event's beginning,
      and the client's loop reports nothing unless it fails on the bytes behind that beginning. */
  lemma CutEventArrives(event: seq<byte>, e: Encounter, cfg: Cfg)
    requires Faithful(cfg.z) && Cooperative(e) && |event| >= U32_RANGE
    requires Truncate32(|event|) <= DEFAULT_MAX_FRAME_SIZE && Truncate32(|event|) <= cfg.max
    ensures var plan := PlanOf([event], false, cfg.z);
            var end := Drive(Start(Read(EncodeAll(plan.frames, cfg.z), cfg.max, cfg.z), [e]), cfg);
            && plan.fault == Drain(event[Truncate32(|event|)..], DEFAULT_MAX_FRAME_SIZE, cfg.z).fault
            && end.conn.dispatched == [BatchData([event[..Truncate32(|event|)]], 1)]
  {
    hide Drive, Drain, Encode, Decode, EncodeAll, Faithful, Cooperative;
    var beginning := event[..Truncate32(|event|)];
    RefeedStops([event], 0, cfg.z);
    assert EventFrames([event])[1..] == [];
    EncodeAllNone(cfg.z);
    assert Behind([event], 0, cfg.z) == event[Truncate32(|event|)..];
    var whole, frames := BatchFrames([beginning], false, cfg.z), PlanOf([event], false, cfg.z).frames;
    assert whole == [Window(1), Json(1, beginning)];
    assert BatchFrames([event], false, cfg.z)[..1] == [Window(1)];
    var more := frames[2..];
    assert frames == whole + more;
    EncodeAllAppend(whole, more, cfg.z);
    var w := Start(Read(EncodeAll(frames, cfg.z), cfg.max, cfg.z), [e]);
    var after := BatchArrives(w, [beginning], false, EncodeAll(more, cfg.z), cfg);
    QuietDrive(after, cfg);
  }

  lemma EncodeAllNone(z: Zlib)
    ensures EncodeAll([], z) == []
  {
  }

  /** Such an event for which the loop reports nothing at all: its own bytes are read as window frames. */
  lemma CutEventUnnoticed(z: Zlib) returns (event: seq<byte>)
    requires Faithful(z)
    ensures |event| == U32_RANGE
    ensures exists windows ::
              && PlanOf([event], false, z) == Plan([Window(1), Json(1, [])] + windows, None)
              && |windows| == U32_RANGE / 6 && forall f :: f in windows ==> f == Window(0)
  {
    hide Encode, EncodeAll, Decode, Drain, Faithful;
    var windows := seq(U32_RANGE / 6, _ => Window(0));
    var tail := [PROTOCOL_VERSION, TYPE_WINDOW, 0, 0];
    event := EncodeAll(windows, z) + tail;
    WindowsLength(windows, z);
    RefeedStops([event], 0, z);
    assert EventFrames([event])[1..] == [];
    EncodeAllNone(z);
    assert Behind([event], 0, z) == event;
    StreamRoundTrip(windows, tail, DEFAULT_MAX_FRAME_SIZE, z);
    ShortWindow(tail, z);
    assert BatchFrames([event], false, z)[..1] == [Window(1)];
    assert PlanOf([event], false, z).frames == [Window(1), Json(1, [])] + windows;
  }

  lemma ShortWindow(tail: seq<byte>, z: Zlib)
    requires tail == [PROTOCOL_VERSION, TYPE_WINDOW, 0, 0]
    ensures Drain(tail, DEFAULT_MAX_FRAME_SIZE, z) == Drained([], tail, None)
  {
  }

  lemma {:induction false} WindowsLength(windows: seq<Frame>, z: Zlib)
    requires forall f :: f in windows ==> f.Window?
    ensures |EncodeAll(windows, z)| == 6 * |windows|
    decreases |windows|
  {
    if windows != [] {
      WindowsLength(windows[1..], z);
    }
  }

  /** Compression can lose a batch that is otherwise delivered: its limit is on the whole payload. */
  lemma CompressionLosesBatch(e: Encounter, cfg: Cfg) returns (events: seq<seq<byte>>)
    requires Faithful(cfg.z) && Cooperative(e) && cfg.max / 10 + 1 < U32_RANGE
    ensures var bytes := EncodeAll(PlanOf(events, false, cfg.z).frames, cfg.z);
            Drive(Start(Read(bytes, cfg.max, cfg.z), [e]), cfg).conn.dispatched == [BatchData(events, cfg.max / 10 + 1)]
    ensures |cfg.z.deflate(Payload(events, cfg.z))| < U32_RANGE ==>
              var bytes := EncodeAll(PlanOf(events, true, cfg.z).frames, cfg.z);
              Drive(Start(Read(bytes, cfg.max, cfg.z), [e]), cfg).conn.dispatched == []
  {
    hide Drive, PlanOf, Read, EncodeAll, Faithful, Cooperative;
    events := seq(cfg.max / 10 + 1, _ => []);
    EventFramesLength(EventFrames(events), cfg.z);
    FidelityIff(events, false, e, cfg);
    if |cfg.z.deflate(Payload(events, cfg.z))| < U32_RANGE {
      FidelityIff(events, true, e, cfg);
    }
  }

  lemma {:induction false} EventFramesLength(fs: seq<Frame>, z: Zlib)
    requires forall f :: f in fs ==> f.Json?
    ensures |EncodeAll(fs, z)| >= 10 * |fs|
    decreases |fs|
  {
    if fs != [] {
      assert fs[0] in fs && fs[0].Json?;
      EventFramesLength(fs[1..], z);
    }
  }

  /** The client's own loop passes the whole batch on. */
  ghost predicate Feedable(o: Order, z: Zlib) {
    SizedBatch(o.events, o.packed, z) && (o.packed || NoneAbove(o.events, DEFAULT_MAX_FRAME_SIZE))
  }

  lemma PlanIsWhole(o: Order, z: Zlib)
    requires Faithful(z) && Feedable(o, z)
    ensures PlanOf(o.events, o.packed, z) == Plan(BatchFrames(o.events, o.packed, z), None)
  {
    hide Drain, Faithful, EncodeAll;
    if !o.packed {
      RefeedIff(o.events, z);
    }
  }

  /** The server's round for a batch of `n` events, with any number of keepalives, ends the client's wait with
      success, and the client takes exactly that round from the wire. */
  lemma {:induction false} RoundEndsWait(n: u32, zeros: nat, b: BatchData, behind: seq<Frame>, end: Ending)
    requires |b.events| == n && 0 < n <= b.lastSeq
    ensures AckLoop(n, Incoming(Zeros(zeros) + [Ack(b.lastSeq)] + behind, end), None)
            == AckOutcome(Ok(n), Incoming(behind, end))
    decreases zeros
  {
    var round := Zeros(zeros) + [Ack(b.lastSeq)] + behind;
    if zeros == 0 {
      assert round[1..] == behind;
    } else {
      assert round[0] == Ack(0) && round[1..] == Zeros(zeros - 1) + [Ack(b.lastSeq)] + behind;
      RoundEndsWait(n, zeros - 1, b, behind, end);
    }
  }

  /** A keepalive does that only if the count of events was cut to zero. */
  lemma KeepaliveEndsWaitIff(events: seq<seq<byte>>, behind: seq<Frame>, end: Ending)
    ensures var n := Truncate32(|events|);
            AckLoop(n, Incoming([Ack(0)] + behind, end), None) == AckOutcome(Ok(n), Incoming(behind, end))
            <==> |events| % U32_RANGE == 0
  {
    var n, feed := Truncate32(|events|), Incoming([Ack(0)] + behind, end);
    assert feed.frames[1..] == behind;
    if n > 0 {
      WaitLeavesLess(n, Incoming(behind, end), None);
    }
  }

  lemma {:induction false} WaitLeavesLess(n: u32, feed: Incoming, patience: Option<nat>)
    ensures AckLoop(n, feed, patience).result.Ok? ==> |AckLoop(n, feed, patience).left.frames| < |feed.frames|
    decreases |feed.frames|
  {
    if patience != Some(0) && feed.frames != [] && feed.frames[0].Ack? && feed.frames[0].num < n {
      WaitLeavesLess(n, feed.(frames := feed.frames[1..]), if patience.Some? then Some(patience.value - 1) else None);
    }
  }
}
