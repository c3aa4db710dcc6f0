/** What the connection machine promises, against a flat reading of a window's frames. */
module ConnectionLaws {
  import opened Bytes
  import opened Frames
  import opened FrameLaws
  import opened Codec
  import opened Connection

  // ---------------------------------------------------------------------------
  // A reading of frames in which compression does not show
  // ---------------------------------------------------------------------------

  /** One event of a window, or the error that takes its place. */
  datatype Item = Event(num: u32, data: seq<byte>) | Junk(error: Error)

  function FlattenInner(inner: seq<byte>, max: nat, z: Zlib): seq<Item>
    decreases |inner|
  {
    if inner == [] then []
    else match Decode(inner, max, z)
      case NeedMore => [Junk(InvalidFrame(PayloadTruncated))]
      case Bad(e, _) => [Junk(e)]
      case Got(f, rest) =>
        if f.Json? then [Event(f.num, f.data)] + FlattenInner(rest, max, z)
        else [Junk(UnexpectedFrame(OnlyEventsInside))]
  }

  function FlattenOne(f: Frame, max: nat, z: Zlib): seq<Item> {
    match f
    case Json(num, data) => [Event(num, data)]
    case Compressed(inner) => FlattenInner(inner, max, z)
    case _ => [Junk(UnexpectedFrame(EventExpected))]
  }

  function Flatten(body: seq<Frame>, max: nat, z: Zlib): seq<Item> {
    if body == [] then [] else FlattenOne(body[0], max, z) + Flatten(body[1..], max, z)
  }

  /** A run of events whose sequence numbers rise strictly, from above `prev`. */
  ghost predicate Rising(items: seq<Item>, prev: u32) {
    items == [] || (items[0].Event? && items[0].num > prev && Rising(items[1..], items[0].num))
  }

  function Payloads(items: seq<Item>): seq<seq<byte>> {
    if items == [] then []
    else (if items[0].Event? then [items[0].data] else []) + Payloads(items[1..])
  }

  /** The last sequence number, or `prev` where there is none. */
  function LastNum(items: seq<Item>, prev: u32): u32 {
    if items == [] then prev else LastNum(items[1..], if items[0].Event? then items[0].num else prev)
  }

  /** The same, item by item. */
  lemma {:induction false} RisingMeans(items: seq<Item>, prev: u32)
    ensures Rising(items, prev) <==>
            && (forall i :: 0 <= i < |items| ==> items[i].Event? && items[i].num > prev)
            && (forall i, j :: 0 <= i < j < |items| ==> items[i].num < items[j].num)
    decreases |items|
  {
    if items != [] && items[0].Event? {
      var tail := items[1..];
      assert forall i :: 0 <= i < |tail| ==> items[i + 1] == tail[i];
      RisingMeans(tail, items[0].num);
    }
  }

  /** A rising run has one payload for each item, and ends with the last item's number. */
  lemma {:induction false} RisingCarries(items: seq<Item>, prev: u32)
    requires Rising(items, prev)
    ensures |Payloads(items)| == |items|
    ensures forall i :: 0 <= i < |items| ==> items[i].Event? && Payloads(items)[i] == items[i].data
    ensures LastNum(items, prev) == if items == [] then prev else items[|items| - 1].num
    decreases |items|
  {
    if items != [] {
      RisingCarries(items[1..], items[0].num);
    }
  }

  /** The batch of a window, read off its items. */
  ghost predicate BatchOf(items: seq<Item>, window: u32, b: BatchData) {
    && window <= |items|
    && Rising(items[..window], 0)
    && b.events == Payloads(items[..window])
    && b.lastSeq == LastNum(items[..window], 0)
  }

  /** What that says of a batch: it has exactly the window's number of events, those of the first items, whose
      sequence numbers rise strictly from at least one; the last is the batch's, and is no less than the window. */
  lemma BatchMeans(items: seq<Item>, window: u32, b: BatchData)
    requires BatchOf(items, window, b)
    ensures |b.events| == window <= b.lastSeq
    ensures forall i :: 0 <= i < window ==> items[i].Event? && items[i].num >= 1 && b.events[i] == items[i].data
    ensures forall i, j :: 0 <= i < j < window ==> items[i].num < items[j].num
    ensures b.lastSeq == if window == 0 then 0 else items[window - 1].num
  {
    RisingMeans(items[..window], 0);
    RisingCarries(items[..window], 0);
    RisingReaches(items[..window], 0);
  }

  lemma {:induction false} RisingReaches(items: seq<Item>, prev: u32)
    requires Rising(items, prev)
    ensures prev + |items| <= LastNum(items, prev)
    decreases |items|
  {
    if items != [] {
      RisingReaches(items[1..], items[0].num);
    }
  }

  datatype Ruling =
    | Hungry(events: seq<seq<byte>>, prev: u32)
    | Full(batch: BatchData)
    | Rejected(error: Error)

  /** The window's verdict on a run of items, event by event. */
  function Judge(window: u32, events: seq<seq<byte>>, prev: u32, items: seq<Item>): Ruling
    decreases |items|
  {
    if |events| >= window then Full(BatchData(events, prev))
    else if items == [] then Hungry(events, prev)
    else match items[0]
      case Junk(e) => Rejected(e)
      case Event(num, data) =>
        if num <= prev then Rejected(SeqOutOfOrder(num, prev))
        else Judge(window, events + [data], num, items[1..])
  }

  /** Where the verdict puts the machine. */
  function Resume(w: World, window: u32, r: Ruling): World {
    match r
    case Hungry(events, prev) => To(w, Collecting(window, [], events, prev))
    case Full(b) => To(w, Dispatching(b))
    case Rejected(e) => To(w, Closed(Failed(e)))
  }

  /** A window fills exactly when its first items are a rising run of events, and those make the batch. */
  lemma {:induction false} JudgeFills(window: u32, events: seq<seq<byte>>, prev: u32, items: seq<Item>)
    requires |events| <= window
    ensures var room := window - |events|;
            var r := Judge(window, events, prev, items);
            && (r.Full? <==> room <= |items| && Rising(items[..room], prev))
            && (r.Full? ==> r.batch == BatchData(events + Payloads(items[..room]), LastNum(items[..room], prev)))
    decreases |items|
  {
    var room := window - |events|;
    if room == 0 {
      assert events + Payloads(items[..0]) == events;
    } else if items != [] {
      var head, tail := items[0], items[1..];
      if room <= |items| {
        assert items[..room][1..] == tail[..room - 1];
      }
      if head.Event? && head.num > prev {
        JudgeFills(window, events + [head.data], head.num, tail);
        if room <= |items| {
          assert events + ([head.data] + Payloads(tail[..room - 1])) == events + [head.data] + Payloads(tail[..room - 1]);
        }
      }
    }
  }

  /** A window is still hungry exactly when all its items so far are a rising run, too short to fill it. */
  lemma {:induction false} JudgeHungers(window: u32, events: seq<seq<byte>>, prev: u32, items: seq<Item>)
    requires |events| <= window
    ensures var r := Judge(window, events, prev, items);
            && (r.Hungry? <==> |events| + |items| < window && Rising(items, prev))
            && (r.Hungry? ==> r == Hungry(events + Payloads(items), LastNum(items, prev))
                              && |r.events| == |events| + |items|)
    decreases |items|
  {
    if |events| < window {
      if items == [] {
        assert events + Payloads(items) == events;
      } else {
        var head, tail := items[0], items[1..];
        if head.Event? && head.num > prev {
          JudgeHungers(window, events + [head.data], head.num, tail);
          assert events + ([head.data] + Payloads(tail)) == events + [head.data] + Payloads(tail);
        }
      }
    }
  }

  lemma {:induction false} JudgeAppend(window: u32, events: seq<seq<byte>>, prev: u32, a: seq<Item>, b: seq<Item>)
    ensures Judge(window, events, prev, a + b) ==
            match Judge(window, events, prev, a)
            case Hungry(es, p) => Judge(window, es, p, b)
            case r => r
    decreases |a|
  {
    if |events| < window {
      if a == [] {
        assert a + b == b;
      } else {
        assert (a + b)[0] == a[0] && (a + b)[1..] == a[1..] + b;
        if a[0].Event? && a[0].num > prev {
          JudgeAppend(window, events + [a[0].data], a[0].num, a[1..], b);
        }
      }
    }
  }

  lemma {:induction false} FlattenAppend(a: seq<Frame>, b: seq<Frame>, max: nat, z: Zlib)
    ensures Flatten(a + b, max, z) == Flatten(a, max, z) + Flatten(b, max, z)
    decreases |a|
  {
    hide FlattenOne;
    if a == [] {
      assert a + b == b;
    } else {
      FlattenAppend(a[1..], b, max, z);
      assert (a + b)[1..] == a[1..] + b;
    }
  }

  lemma FlattenOnly(f: Frame, max: nat, z: Zlib)
    ensures Flatten([f], max, z) == FlattenOne(f, max, z)
  {
    assert Flatten([f], max, z) == FlattenOne(f, max, z) + Flatten([], max, z);
  }

  // ---------------------------------------------------------------------------
  // The machine follows the flat reading
  // ---------------------------------------------------------------------------

  /** The inner loop over an unpacked frame does what its items say. */
  lemma {:induction false} DriveInner(w: World, cfg: Cfg)
    requires w.conn.phase.Collecting?
    ensures var p := w.conn.phase;
            Drive(w, cfg) ==
            Drive(Resume(w, p.window, Judge(p.window, p.events, p.prev, FlattenInner(p.inner, cfg.max, cfg.z))), cfg)
    decreases |w.conn.phase.inner|
  {
    hide Drive, Decode;
    var p := w.conn.phase;
    Unfold(w, cfg);
    if !Filled(p) && p.inner != [] {
      var next := OnInner(p, cfg.max, cfg.z);
      var d := Decode(p.inner, cfg.max, cfg.z);
      var items := FlattenInner(p.inner, cfg.max, cfg.z);
      if d.Got? && d.frame.Json? {
        assert items[1..] == FlattenInner(d.rest, cfg.max, cfg.z);
        if d.frame.num > p.prev {
          DriveInner(To(w, next), cfg);
        }
      }
    }
  }

  /** A frame that arrives in a hungry window does what its items say. */
  lemma DriveFrame(w: World, cfg: Cfg)
    requires w.conn.phase.Collecting? && w.conn.phase.inner == [] && !Filled(w.conn.phase)
    requires w.feed.frames != []
    ensures var p := w.conn.phase;
            var rest := w.(feed := w.feed.(frames := w.feed.frames[1..]));
            var items := FlattenOne(w.feed.frames[0], cfg.max, cfg.z);
            Drive(w, cfg) == Drive(Resume(rest, p.window, Judge(p.window, p.events, p.prev, items)), cfg)
  {
    hide Drive;
    var p := w.conn.phase;
    var f := w.feed.frames[0];
    Unfold(w, cfg);
    var next := Step(w, cfg);
    if f.Compressed? {
      DriveInner(next, cfg);
    } else if f.Json? && f.num > p.prev {
      Unfold(next, cfg);
    }
  }

  /** The frames of a window do what their items say, as long as no frame comes after the window is full. */
  lemma {:induction false} DriveBody(w: World, body: seq<Frame>, rest: seq<Frame>, cfg: Cfg)
    requires w.conn.phase.Collecting? && w.conn.phase.inner == [] && |w.conn.phase.events| <= w.conn.phase.window
    requires w.feed.frames == body + rest
    requires Tight(w.conn.phase.window - |w.conn.phase.events|, body, cfg)
    ensures var p := w.conn.phase;
            var r := Judge(p.window, p.events, p.prev, Flatten(body, cfg.max, cfg.z));
            var after := Resume(w.(feed := w.feed.(frames := rest)), p.window, r);
            && Drive(w, cfg).conn == Drive(after, cfg).conn
            && (!r.Rejected? ==> Drive(w, cfg) == Drive(after, cfg))
    decreases |body|
  {
    hide Drive, FlattenOne;
    var p := w.conn.phase;
    var items := Flatten(body, cfg.max, cfg.z);
    if body == [] {
      assert w.feed.frames == rest;
      Unfold(w, cfg);
      JudgeFills(p.window, p.events, p.prev, items);
    } else {
      var head, tail := FlattenOne(body[0], cfg.max, cfg.z), body[1..];
      TightNeedsRoom(p.window - |p.events|, body, cfg);
      assert w.feed.frames[0] == body[0] && w.feed.frames[1..] == tail + rest;
      DriveFrame(w, cfg);
      JudgeAppend(p.window, p.events, p.prev, head, Flatten(tail, cfg.max, cfg.z));
      JudgeHungers(p.window, p.events, p.prev, head);
      var r := Judge(p.window, p.events, p.prev, head);
      var next := Resume(w.(feed := w.feed.(frames := tail + rest)), p.window, r);
      match r {
        case Hungry(events, prev) =>
          TightTail(p.window - |p.events|, body, cfg);
          DriveBody(next, tail, rest, cfg);
        case Full(_) =>
          JudgeFills(p.window, p.events, p.prev, head);
          TightTail(p.window - |p.events|, body, cfg);
          assert tail + rest == rest;
        case Rejected(e) =>
          Unfold(next, cfg);
          Unfold(Resume(w.(feed := w.feed.(frames := rest)), p.window, r), cfg);
      }
    }
  }

  /** Before the last frame, the window still has room: the frames are those that the window reads. */
  ghost predicate Tight(room: nat, body: seq<Frame>, cfg: Cfg) {
    body != [] ==> |Flatten(body[..|body| - 1], cfg.max, cfg.z)| < room
  }

  lemma TightNeedsRoom(room: nat, body: seq<Frame>, cfg: Cfg)
    requires body != [] && Tight(room, body, cfg)
    ensures room > 0
  {
  }

  lemma TightTail(room: nat, body: seq<Frame>, cfg: Cfg)
    requires body != [] && Tight(room, body, cfg)
    ensures var head := FlattenOne(body[0], cfg.max, cfg.z);
            body[1..] != [] ==> |head| < room && Tight(room - |head|, body[1..], cfg)
  {
    hide FlattenOne;
    var tail := body[1..];
    if tail != [] {
      var short := body[..|body| - 1];
      assert short == [body[0]] + tail[..|tail| - 1];
      assert short[1..] == tail[..|tail| - 1];
    }
  }

  // ---------------------------------------------------------------------------
  // Compression transparency
  // ---------------------------------------------------------------------------

  /** Two readings of a window with the same items have the same run, whatever the framing. */
  lemma SameItemsSameRun(w: World, a: seq<Frame>, b: seq<Frame>, rest: seq<Frame>, cfg: Cfg)
    requires w.conn.phase.Collecting? && w.conn.phase.inner == [] && |w.conn.phase.events| <= w.conn.phase.window
    requires Tight(w.conn.phase.window - |w.conn.phase.events|, a, cfg)
    requires Tight(w.conn.phase.window - |w.conn.phase.events|, b, cfg)
    requires Flatten(a, cfg.max, cfg.z) == Flatten(b, cfg.max, cfg.z)
    ensures var wa, wb := w.(feed := w.feed.(frames := a + rest)), w.(feed := w.feed.(frames := b + rest));
            Drive(wa, cfg).conn == Drive(wb, cfg).conn
  {
    hide Drive, Flatten;
    DriveBody(w.(feed := w.feed.(frames := a + rest)), a, rest, cfg);
    DriveBody(w.(feed := w.feed.(frames := b + rest)), b, rest, cfg);
  }

  /** A run of events as raw frames, or packed into one compressed frame. */
  datatype Group = Raw(js: seq<Frame>) | Packed(js: seq<Frame>)

  function Framing(gs: seq<Group>, z: Zlib): seq<Frame> {
    if gs == [] then []
    else Part(gs[0], z) + Framing(gs[1..], z)
  }

  function Part(g: Group, z: Zlib): seq<Frame> {
    if g.Raw? then g.js else [Compressed(EncodeAll(g.js, z))]
  }

  function Ungrouped(gs: seq<Group>): seq<Frame> {
    if gs == [] then [] else gs[0].js + Ungrouped(gs[1..])
  }

  ghost predicate EventsWithin(js: seq<Frame>, max: nat, z: Zlib) {
    forall i :: 0 <= i < |js| ==> js[i].Json? && Fits(js[i], max, z)
  }

  lemma FlattenHead(js: seq<Frame>, src: seq<byte>, rest: seq<byte>, max: nat, z: Zlib)
    requires js != [] && js[0].Json? && src != [] && Decode(src, max, z) == Got(js[0], rest)
    ensures Flatten(js, max, z) == [Event(js[0].num, js[0].data)] + Flatten(js[1..], max, z)
    ensures FlattenInner(src, max, z) == [Event(js[0].num, js[0].data)] + FlattenInner(rest, max, z)
  {
    hide Decode;
  }

  /** A payload of events, with anything at all behind them. */
  lemma {:induction false} FlattenPayload(js: seq<Frame>, junk: seq<byte>, max: nat, z: Zlib)
    requires Faithful(z) && EventsWithin(js, max, z)
    ensures FlattenInner(EncodeAll(js, z) + junk, max, z) == Flatten(js, max, z) + FlattenInner(junk, max, z)
    ensures |Flatten(js, max, z)| == |js|
    decreases |js|
  {
    hide Encode, Decode, Faithful, Fits, Flatten, FlattenInner;
    if js == [] {
      FlattenNone(max, z);
      assert EncodeAll(js, z) + junk == junk;
    } else {
      var src, behind := EncodeAll(js, z) + junk, EncodeAll(js[1..], z) + junk;
      FlattenPayload(js[1..], junk, max, z);
      DecodeEncoded(js[0], behind, max, z);
      DecodeNothing(max, z);
      assert src == Encode(js[0], z) + behind;
      FlattenHead(js, src, behind, max, z);
    }
  }

  lemma FlattenPacked(js: seq<Frame>, max: nat, z: Zlib)
    requires Faithful(z) && EventsWithin(js, max, z)
    ensures FlattenInner(EncodeAll(js, z), max, z) == Flatten(js, max, z)
    ensures |Flatten(js, max, z)| == |js|
  {
    hide Encode, EncodeAll, Decode, Faithful, Fits, Flatten;
    FlattenPayload(js, [], max, z);
    assert EncodeAll(js, z) + [] == EncodeAll(js, z);
  }

  lemma {:induction false} FramingKeepsItems(gs: seq<Group>, max: nat, z: Zlib)
    requires Faithful(z) && forall i :: 0 <= i < |gs| ==> EventsWithin(gs[i].js, max, z)
    ensures Flatten(Framing(gs, z), max, z) == Flatten(Ungrouped(gs), max, z)
    ensures |Flatten(Ungrouped(gs), max, z)| == |Ungrouped(gs)|
    decreases |gs|
  {
    hide Flatten, Faithful, Part, EventsWithin;
    if gs == [] {
      FlattenNone(max, z);
    } else {
      FramingKeepsItems(gs[1..], max, z);
      PartKeepsItems(gs[0], max, z);
      FlattenAppend(gs[0].js, Ungrouped(gs[1..]), max, z);
      FlattenAppend(Part(gs[0], z), Framing(gs[1..], z), max, z);
    }
  }

  lemma PartKeepsItems(g: Group, max: nat, z: Zlib)
    requires Faithful(z) && EventsWithin(g.js, max, z)
    ensures Flatten(Part(g, z), max, z) == Flatten(g.js, max, z)
    ensures |Flatten(g.js, max, z)| == |g.js|
    ensures g.js != [] ==> Part(g, z) != [] && |Flatten(Part(g, z)[..|Part(g, z)| - 1], max, z)| < |g.js|
  {
    hide Flatten, FlattenInner, Faithful, Fits, EncodeAll;
    FlattenPacked(g.js, max, z);
    FlattenNone(max, z);
    if g.Packed? {
      FlattenOnly(Compressed(EncodeAll(g.js, z)), max, z);
      assert Part(g, z)[..0] == [];
    } else if g.js != [] {
      FlattenPacked(g.js[..|g.js| - 1], max, z);
    }
  }

  lemma FlattenNone(max: nat, z: Zlib)
    ensures Flatten([], max, z) == []
  {
  }

  /** A framing is tight when its last frame still finds room in the window. */
  lemma {:induction false} FramingIsTight(gs: seq<Group>, room: nat, cfg: Cfg)
    requires Faithful(cfg.z) && forall i :: 0 <= i < |gs| ==> EventsWithin(gs[i].js, cfg.max, cfg.z)
    requires InRoom(gs, room)
    ensures Tight(room, Framing(gs, cfg.z), cfg)
    decreases |gs|
  {
    hide Flatten, Faithful, EventsWithin, Part, Tight, Ungrouped, Framing;
    if gs == [] {
      FramingNone(cfg.z);
      TightNone(room, cfg);
      return;
    }
    var front, g := gs[..|gs| - 1], gs[|gs| - 1];
    assert gs == front + [g];
    FramingAppend(front, [g], cfg.z);
    FramingOne(g, cfg.z);
    if Part(g, cfg.z) == [] {
      PartKeepsItems(g, cfg.max, cfg.z);
      assert Framing(gs, cfg.z) == Framing(front, cfg.z);
      FramingIsTight(front, room, cfg);
    } else {
      FramingKeepsItems(front, cfg.max, cfg.z);
      TightBehind(Framing(front, cfg.z), g, room - |Ungrouped(front)|, cfg);
    }
  }

  lemma FramingNone(z: Zlib)
    ensures Framing([], z) == []
  {
  }

  lemma TightBehind(front: seq<Frame>, g: Group, room: nat, cfg: Cfg)
    requires Faithful(cfg.z) && EventsWithin(g.js, cfg.max, cfg.z) && Part(g, cfg.z) != []
    requires |g.js| <= room && (|g.js| < room || g.js != [])
    ensures Tight(|Flatten(front, cfg.max, cfg.z)| + room, front + Part(g, cfg.z), cfg)
  {
    hide Flatten, Faithful, EventsWithin, Part;
    var part := Part(g, cfg.z);
    PartKeepsItems(g, cfg.max, cfg.z);
    if g.js == [] {
      EmptyPart(g, cfg);
    }
    assert (front + part)[..|front + part| - 1] == front + part[..|part| - 1];
    FlattenAppend(front, part[..|part| - 1], cfg.max, cfg.z);
  }

  lemma EmptyPart(g: Group, cfg: Cfg)
    requires g.js == [] && Part(g, cfg.z) != []
    ensures Flatten(Part(g, cfg.z)[..|Part(g, cfg.z)| - 1], cfg.max, cfg.z) == []
  {
    hide Flatten;
    FlattenNone(cfg.max, cfg.z);
    assert Part(g, cfg.z)[..|Part(g, cfg.z)| - 1] == [];
  }

  lemma FramingOne(g: Group, z: Zlib)
    ensures Framing([g], z) == Part(g, z) && Ungrouped([g]) == g.js
  {
    hide Part;
    assert Framing([g], z) == Part(g, z) + Framing([], z);
    assert Ungrouped([g]) == g.js + Ungrouped([]);
  }

  lemma {:induction false} FramingAppend(a: seq<Group>, b: seq<Group>, z: Zlib)
    ensures Framing(a + b, z) == Framing(a, z) + Framing(b, z)
    ensures Ungrouped(a + b) == Ungrouped(a) + Ungrouped(b)
    decreases |a|
  {
    hide Part;
    if a == [] {
      assert a + b == b;
    } else {
      FramingAppend(a[1..], b, z);
      assert (a + b)[1..] == a[1..] + b;
    }
  }

  /** The events have room in the window, and a frame without events is not behind its last event. */
  ghost predicate InRoom(gs: seq<Group>, room: nat) {
    && |Ungrouped(gs)| <= room
    && (|Ungrouped(gs)| < room || gs == [] || gs[|gs| - 1].js != [])
  }

  /** Any grouping of a window's events into raw and compressed frames, empty ones included, has the run
      of the plain events: the same batch, or the same verdict on their order. */
  lemma CompressionTransparent(w: World, gs: seq<Group>, rest: seq<Frame>, cfg: Cfg)
    requires Faithful(cfg.z) && forall i :: 0 <= i < |gs| ==> EventsWithin(gs[i].js, cfg.max, cfg.z)
    requires w.conn.phase.Collecting? && w.conn.phase.inner == [] && |w.conn.phase.events| <= w.conn.phase.window
    requires InRoom(gs, w.conn.phase.window - |w.conn.phase.events|)
    ensures Drive(WithFrames(w, Framing(gs, cfg.z) + rest), cfg).conn == Drive(WithFrames(w, Ungrouped(gs) + rest), cfg).conn
  {
    hide Drive, Flatten, Faithful, EventsWithin, EncodeAll, Tight, Framing, Ungrouped;
    var js := Ungrouped(gs);
    UngroupedWithin(gs, cfg);
    FramingKeepsItems(gs, cfg.max, cfg.z);
    FramingIsTight(gs, w.conn.phase.window - |w.conn.phase.events|, cfg);
    PlainIsTight(js, w.conn.phase.window - |w.conn.phase.events|, cfg);
    SameItemsSameRun(w, Framing(gs, cfg.z), js, rest, cfg);
  }

  lemma PlainIsTight(js: seq<Frame>, room: nat, cfg: Cfg)
    requires Faithful(cfg.z) && EventsWithin(js, cfg.max, cfg.z) && |js| <= room
    ensures Tight(room, js, cfg)
  {
    hide Flatten, Faithful, Fits, EncodeAll;
    if js != [] {
      FlattenPacked(js[..|js| - 1], cfg.max, cfg.z);
    }
  }

  lemma FrontWithin(js: seq<Frame>, n: nat, cfg: Cfg)
    requires EventsWithin(js, cfg.max, cfg.z) && n <= |js|
    ensures EventsWithin(js[..n], cfg.max, cfg.z)
  {
    hide Fits;
  }

  /** Once the window is full, whatever is left in a compressed frame is dropped unread; behind the
      window the same event as a raw frame would end the connection, as `BoundaryVerdict` says. */
  lemma SurplusInsideIsDropped(w: World, js: seq<Frame>, junk: seq<byte>, rest: seq<Frame>, cfg: Cfg)
    requires Faithful(cfg.z) && EventsWithin(js, cfg.max, cfg.z) && js != []
    requires w.conn.phase.Collecting? && w.conn.phase.inner == []
    requires |w.conn.phase.events| + |js| == w.conn.phase.window
    ensures Drive(WithFrames(w, [Compressed(EncodeAll(js, cfg.z) + junk)] + rest), cfg).conn
            == Drive(WithFrames(w, js + rest), cfg).conn
  {
    hide Drive, Flatten, FlattenInner, Faithful, EventsWithin, EncodeAll, Judge;
    var p := w.conn.phase;
    var packed, items := Compressed(EncodeAll(js, cfg.z) + junk), Flatten(js, cfg.max, cfg.z);
    FlattenPayload(js, junk, cfg.max, cfg.z);
    FlattenOnly(packed, cfg.max, cfg.z);
    FlattenNone(cfg.max, cfg.z);
    assert [packed][..0] == [];
    FrontWithin(js, |js| - 1, cfg);
    FlattenPacked(js[..|js| - 1], cfg.max, cfg.z);
    DriveBody(WithFrames(w, [packed] + rest), [packed], rest, cfg);
    DriveBody(WithFrames(w, js + rest), js, rest, cfg);
    JudgeAppend(p.window, p.events, p.prev, items, FlattenInner(junk, cfg.max, cfg.z));
    JudgeHungers(p.window, p.events, p.prev, items);
  }

  lemma {:induction false} UngroupedWithin(gs: seq<Group>, cfg: Cfg)
    requires forall i :: 0 <= i < |gs| ==> EventsWithin(gs[i].js, cfg.max, cfg.z)
    ensures EventsWithin(Ungrouped(gs), cfg.max, cfg.z)
    decreases |gs|
  {
    hide Fits;
    if gs != [] {
      UngroupedWithin(gs[1..], cfg);
    }
  }

  // ---------------------------------------------------------------------------
  // All or nothing
  // ---------------------------------------------------------------------------

  /** The frames of one complete window, and its batch. */
  ghost predicate Block(fs: seq<Frame>, b: BatchData, cfg: Cfg) {
    && fs != [] && fs[0].Window?
    && Tight(fs[0].count, fs[1..], cfg)
    && BatchOf(Flatten(fs[1..], cfg.max, cfg.z), fs[0].count, b)
  }

  ghost predicate Blocks(blocks: seq<seq<Frame>>, bs: seq<BatchData>, cfg: Cfg) {
    && |blocks| == |bs|
    && forall i :: 0 <= i < |blocks| ==> Block(blocks[i], bs[i], cfg)
  }

  function WithFrames(w: World, fs: seq<Frame>): World {
    w.(feed := w.feed.(frames := fs))
  }

  /** A window that was begun is filled by a tight run of frames, or the connection fails with no batch. */
  lemma {:induction false} ReadWindow(w: World, window: u32, body: seq<Frame>, cfg: Cfg)
    returns (k: nat, b: Option<BatchData>)
    requires Tight(window, body, cfg)
    requires var r := Judge(window, [], 0, Flatten(body, cfg.max, cfg.z)); !r.Rejected? && w == Resume(w, window, r)
    ensures k <= |w.feed.frames|
    ensures match b
            case Some(batch) =>
              var read := body + w.feed.frames[..k];
              && Tight(window, read, cfg)
              && BatchOf(Flatten(read, cfg.max, cfg.z), window, batch)
              && Drive(w, cfg) == Drive(WithFrames(To(w, Dispatching(batch)), w.feed.frames[k..]), cfg)
            case None =>
              var c := Drive(w, cfg).conn;
              c == w.conn.(phase := c.phase) && c.phase.Closed? && c.phase.verdict.Failed?
    decreases |w.feed.frames|
  {
    hide Drive, FlattenOne, Flatten, Judge, BatchOf, Tight;
    var items := Flatten(body, cfg.max, cfg.z);
    var fs := w.feed.frames;
    var r := Judge(window, [], 0, items);
    WindowVerdict(window, items);
    if r.Full? {
      assert body + fs[..0] == body;
      return 0, Some(r.batch);
    }
    if fs == [] {
      Unfold(w, cfg);
      Unfold(Step(w, cfg), cfg);
      return 0, None;
    }
    var longer := body + [fs[0]];
    FlattenAppend(body, [fs[0]], cfg.max, cfg.z);
    FlattenOnly(fs[0], cfg.max, cfg.z);
    JudgeAppend(window, [], 0, items, FlattenOne(fs[0], cfg.max, cfg.z));
    DriveFrame(w, cfg);
    TightPush(window, body, fs[0], cfg);
    var next := Resume(WithFrames(w, fs[1..]), window, Judge(window, [], 0, Flatten(longer, cfg.max, cfg.z)));
    if next.conn.phase.Closed? {
      Unfold(next, cfg);
      return 0, None;
    }
    k, b := ReadWindow(next, window, longer, cfg);
    if b.None? {
      return 0, None;
    }
    assert body + fs[..k + 1] == longer + fs[1..][..k];
    k := k + 1;
  }

  lemma WindowVerdict(window: u32, items: seq<Item>)
    ensures var r := Judge(window, [], 0, items);
            && (r.Full? ==> BatchOf(items, window, r.batch))
            && (r.Hungry? ==> |r.events| == |items| < window)
  {
    JudgeFills(window, [], 0, items);
    JudgeHungers(window, [], 0, items);
    if window <= |items| {
      assert [] + Payloads(items[..window]) == Payloads(items[..window]);
    }
  }

  lemma TightPush(room: nat, body: seq<Frame>, f: Frame, cfg: Cfg)
    requires |Flatten(body, cfg.max, cfg.z)| < room
    ensures Tight(room, body + [f], cfg)
  {
    assert (body + [f])[..|body|] == body;
  }

  /** Waiting for the ack, up to its outcome. */
  function Settle(w: World, cfg: Cfg): World
    decreases |w.waits|
  {
    if w.conn.phase.AwaitAck? && w.waits != [] then Settle(Step(w, cfg), cfg) else w
  }

  lemma {:induction false} DriveSettles(w: World, cfg: Cfg)
    requires w.conn.phase.AwaitAck?
    ensures var after := Settle(w, cfg);
            && Drive(w, cfg) == Drive(after, cfg)
            && after.feed == w.feed && after.env == w.env && after.conn.dispatched == w.conn.dispatched
            && (after.conn.phase.ExpectWindow? || (Stuck(after) && after.conn.phase != Closed(Finished)))
    decreases |w.waits|
  {
    hide Drive;
    if w.waits != [] {
      Unfold(w, cfg);
      if Step(w, cfg).conn.phase.AwaitAck? {
        DriveSettles(Step(w, cfg), cfg);
      }
    }
  }

  ghost predicate WasRefused(env: seq<Encounter>) {
    exists i :: 0 <= i < |env| && env[i].Refused?
  }

  /** Whatever the input and the environment: the batches are those of the first complete windows, and the
      handler succeeds only at a window boundary or when the receiver is gone. */
  lemma {:induction false} OnlyCompleteWindows(w: World, cfg: Cfg) returns (blocks: seq<seq<Frame>>, bs: seq<BatchData>)
    requires w.conn.phase.ExpectWindow?
    ensures Drive(w, cfg).conn.dispatched == w.conn.dispatched + bs
    ensures Blocks(blocks, bs, cfg) && Concat(blocks) <= w.feed.frames
    ensures Drive(w, cfg).conn.phase == Closed(Finished) ==>
              WasRefused(w.env) || (Concat(blocks) == w.feed.frames && w.feed.end.Eof?)
    decreases |w.feed.frames|, 0
  {
    hide Drive, Flatten, BatchOf, Tight;
    var fs := w.feed.frames;
    blocks, bs := [], [];
    assert w.conn.dispatched + bs == w.conn.dispatched;
    Unfold(w, cfg);
    var next := Step(w, cfg);
    Unfold(next, cfg);
    if fs != [] && fs[0].Window? {
      var window := fs[0].count;
      FlattenNone(cfg.max, cfg.z);
      TightNone(window, cfg);
      var begun := Resume(next, window, Judge(window, [], 0, []));
      assert begun == next || window == 0;
      if window == 0 {
        Unfold(next, cfg);
      }
      var k, b := ReadWindow(begun, window, [], cfg);
      if b.Some? {
        var batch := b.value;
        var taken := fs[..k + 1];
        assert taken[1..] == [] + fs[1..][..k];
        var dispatching := WithFrames(To(next, Dispatching(batch)), fs[1..][k..]);
        blocks, bs := AfterWindow(dispatching, taken, batch, cfg);
        assert taken + dispatching.feed.frames == fs;
      }
    }
  }

  lemma TightNone(room: nat, cfg: Cfg)
    ensures Tight(room, [], cfg)
  {
  }

  /** The rest of the run, once the window `taken` waits for the channel. */
  lemma {:induction false} AfterWindow(w: World, taken: seq<Frame>, batch: BatchData, cfg: Cfg)
    returns (blocks: seq<seq<Frame>>, bs: seq<BatchData>)
    requires w.conn.phase == Dispatching(batch) && Block(taken, batch, cfg)
    ensures Drive(w, cfg).conn.dispatched == w.conn.dispatched + bs
    ensures Blocks(blocks, bs, cfg) && Concat(blocks) <= taken + w.feed.frames
    ensures Drive(w, cfg).conn.phase == Closed(Finished) ==>
              WasRefused(w.env) || (Concat(blocks) == taken + w.feed.frames && w.feed.end.Eof?)
    decreases |w.feed.frames|, 1
  {
    hide Drive, Block;
    blocks, bs := [], [];
    assert w.conn.dispatched + bs == w.conn.dispatched;
    Unfold(w, cfg);
    if w.env == [] {
      return;
    }
    var next := Step(w, cfg);
    if w.env[0].Refused? {
      Unfold(next, cfg);
      assert w.env[0].Refused?;
      return;
    }
    DriveSettles(next, cfg);
    var after := Settle(next, cfg);
    if after.conn.phase.ExpectWindow? {
      var moreBlocks, moreBs := OnlyCompleteWindows(after, cfg);
      blocks, bs := [taken] + moreBlocks, [batch] + moreBs;
      assert blocks[1..] == moreBlocks && Concat(blocks) == taken + Concat(moreBlocks);
      assert w.conn.dispatched + bs == next.conn.dispatched + moreBs;
      if WasRefused(after.env) {
        var i :| 0 <= i < |after.env| && after.env[i].Refused?;
        assert w.env[i + 1].Refused?;
      }
    } else {
      Unfold(after, cfg);
      blocks, bs := [taken], [batch];
      assert blocks[1..] == [] && Concat(blocks) == taken;
    }
  }

  /** The batch is admitted, keepalives are written, the consumer gives the batch up, the ack is written. */
  predicate Obliging(waits: seq<Wait>) {
    waits != [] && waits[0].fate.None? && (waits[0].Consumed? || Obliging(waits[1..]))
  }

  predicate Cooperative(e: Encounter) {
    e.Admitted? && Obliging(e.waits)
  }

  lemma {:induction false} ObligingSettles(w: World, cfg: Cfg)
    requires w.conn.phase.AwaitAck? && Obliging(w.waits)
    ensures Settle(w, cfg).conn.phase.ExpectWindow?
    ensures exists zeros: nat :: Settle(w, cfg).conn.written == w.conn.written + Zeros(zeros) + [Ack(w.conn.phase.last)]
    decreases |w.waits|
  {
    var next := Step(w, cfg);
    if w.waits[0].Consumed? {
      assert w.conn.written + Zeros(0) + [Ack(w.conn.phase.last)] == next.conn.written;
      assert Settle(w, cfg) == next;
    } else {
      ObligingSettles(next, cfg);
      var k: nat :| Settle(next, cfg).conn.written == next.conn.written + Zeros(k) + [Ack(w.conn.phase.last)];
      if cfg.keepalive {
        assert w.conn.written + Zeros(k + 1) == next.conn.written + Zeros(k);
      }
    }
  }

  /** A complete window is read up to its batch. */
  lemma BlockFills(w: World, block: seq<Frame>, b: BatchData, behind: seq<Frame>, cfg: Cfg)
    requires w.conn.phase.ExpectWindow? && Block(block, b, cfg) && w.feed.frames == block + behind
    ensures Drive(w, cfg) == Drive(WithFrames(To(w, Dispatching(b)), behind), cfg)
  {
    hide Drive, Flatten, Tight, Judge, Rising, Payloads, LastNum;
    var body, window := block[1..], block[0].count;
    assert w.feed.frames[1..] == body + behind;
    Unfold(w, cfg);
    var begun := Step(w, cfg);
    DriveBody(begun, body, behind, cfg);
    JudgeFills(window, [], 0, Flatten(body, cfg.max, cfg.z));
    assert [] + b.events == b.events;
    assert WithFrames(To(begun, Dispatching(b)), behind) == WithFrames(To(w, Dispatching(b)), behind);
  }

  /** With a cooperative encounter, the batch is admitted and answered. */
  lemma BatchSettles(w: World, b: BatchData, cfg: Cfg) returns (after: World)
    requires w.conn.phase == Dispatching(b) && w.env != [] && Cooperative(w.env[0])
    ensures Drive(w, cfg) == Drive(after, cfg) && after.conn.phase.ExpectWindow?
    ensures after.conn.dispatched == w.conn.dispatched + [b] && after.feed == w.feed && after.env == w.env[1..]
  {
    hide Drive;
    Unfold(w, cfg);
    var waiting := Step(w, cfg);
    DriveSettles(waiting, cfg);
    ObligingSettles(waiting, cfg);
    after := Settle(waiting, cfg);
  }

  /** The converse: with a cooperative environment every complete window becomes its batch. */
  lemma {:induction false} EveryCompleteWindow(w: World, blocks: seq<seq<Frame>>, bs: seq<BatchData>, rest: seq<Frame>,
                                               cfg: Cfg)
    returns (after: World)
    requires w.conn.phase.ExpectWindow? && Blocks(blocks, bs, cfg) && w.feed.frames == Concat(blocks) + rest
    requires |bs| <= |w.env| && forall i :: 0 <= i < |bs| ==> Cooperative(w.env[i])
    ensures Drive(w, cfg) == Drive(after, cfg) && after.conn.phase.ExpectWindow?
    ensures after.conn.dispatched == w.conn.dispatched + bs
    ensures after.feed == Incoming(rest, w.feed.end) && after.env == w.env[|bs|..]
    decreases |blocks|
  {
    hide Drive, Block, Cooperative;
    if blocks == [] {
      after := w;
      assert w.feed.frames == rest && w.conn.dispatched + bs == w.conn.dispatched;
      return;
    }
    var behind := Concat(blocks[1..]) + rest;
    assert w.feed.frames == blocks[0] + behind;
    BlockFills(w, blocks[0], bs[0], behind, cfg);
    var next := BatchSettles(WithFrames(To(w, Dispatching(bs[0])), behind), bs[0], cfg);
    after := EveryCompleteWindow(next, blocks[1..], bs[1..], rest, cfg);
    assert w.conn.dispatched + bs == w.conn.dispatched + [bs[0]] + bs[1..];
  }

  /** Both ways: whatever is dispatched is the batch of a complete window at the front of the input, and no run
      of complete windows at the front is left out while the environment cooperates. */
  lemma AllOrNothing(w: World, blocks: seq<seq<Frame>>, bs: seq<BatchData>, rest: seq<Frame>, cfg: Cfg)
    returns (all: seq<seq<Frame>>, batches: seq<BatchData>)
    requires w.conn.phase.ExpectWindow? && Blocks(blocks, bs, cfg) && w.feed.frames == Concat(blocks) + rest
    requires |bs| <= |w.env| && forall i :: 0 <= i < |bs| ==> Cooperative(w.env[i])
    ensures Drive(w, cfg).conn.dispatched == w.conn.dispatched + batches
    ensures Blocks(all, batches, cfg) && Concat(all) <= w.feed.frames
    ensures blocks <= all && bs <= batches
    ensures Drive(w, cfg).conn.phase == Closed(Finished) ==>
              WasRefused(w.env) || (Concat(all) == w.feed.frames && w.feed.end.Eof?)
  {
    hide Drive, Block;
    var after := EveryCompleteWindow(w, blocks, bs, rest, cfg);
    var more, moreBs := OnlyCompleteWindows(after, cfg);
    all, batches := blocks + more, bs + moreBs;
    ConcatAppend(blocks, more);
    assert w.conn.dispatched + bs + moreBs == w.conn.dispatched + batches;
    if WasRefused(after.env) {
      var i :| 0 <= i < |after.env| && after.env[i].Refused?;
      assert w.env[i + |bs|].Refused?;
    }
  }

  // ---------------------------------------------------------------------------
  // Verdicts
  // ---------------------------------------------------------------------------

  /** At a batch boundary the handler succeeds at end of file, and wants a window frame. */
  lemma BoundaryVerdict(w: World, cfg: Cfg)
    requires w.conn.phase.ExpectWindow?
    ensures w.feed.frames == [] ==>
              Drive(w, cfg).conn
              == w.conn.(phase := Closed(if w.feed.end.Fault? then Failed(w.feed.end.error) else Finished))
    ensures w.feed.frames != [] && !w.feed.frames[0].Window? ==>
              Drive(w, cfg).conn == w.conn.(phase := Closed(Failed(UnexpectedFrame(WindowExpected))))
  {
    hide Drive;
    Unfold(w, cfg);
    Unfold(Step(w, cfg), cfg);
  }

  /** The frames behind the window frame hold a rising run of events that leaves the window hungry. */
  ghost predicate Begun(w: World, n: u32, body: seq<Frame>, rest: seq<Frame>, cfg: Cfg) {
    && w.conn.phase.ExpectWindow? && w.feed.frames == [Window(n)] + body + rest
    && |Flatten(body, cfg.max, cfg.z)| < n && Rising(Flatten(body, cfg.max, cfg.z), 0)
  }

  lemma BegunReads(w: World, n: u32, body: seq<Frame>, rest: seq<Frame>, cfg: Cfg) returns (hungry: World)
    requires Begun(w, n, body, rest, cfg)
    ensures var items := Flatten(body, cfg.max, cfg.z);
            hungry == WithFrames(To(w, Collecting(n, [], Payloads(items), LastNum(items, 0))), rest)
            && |Payloads(items)| == |items|
    ensures Drive(w, cfg) == Drive(hungry, cfg)
  {
    hide Drive, Flatten, Judge, Rising, Payloads, LastNum;
    var items := Flatten(body, cfg.max, cfg.z);
    assert w.feed.frames[1..] == body + rest;
    Unfold(w, cfg);
    var begun := Step(w, cfg);
    BegunIsTight(n, body, cfg);
    DriveBody(begun, body, rest, cfg);
    JudgeHungers(n, [], 0, items);
    assert [] + Payloads(items) == Payloads(items);
    hungry := WithFrames(To(w, Collecting(n, [], Payloads(items), LastNum(items, 0))), rest);
  }

  lemma BegunIsTight(n: nat, body: seq<Frame>, cfg: Cfg)
    requires |Flatten(body, cfg.max, cfg.z)| < n
    ensures Tight(n, body, cfg)
  {
    hide Flatten;
    if body != [] {
      var k := |body| - 1;
      assert body == body[..k] + [body[k]];
      FlattenAppend(body[..k], [body[k]], cfg.max, cfg.z);
    }
  }

  /** The stream ends inside a window. */
  lemma CutWindowVerdict(w: World, n: u32, body: seq<Frame>, cfg: Cfg)
    requires Begun(w, n, body, [], cfg)
    ensures Drive(w, cfg).conn
            == w.conn.(phase := Closed(Failed(if w.feed.end.Fault? then w.feed.end.error else ConnectionClosed)))
  {
    hide Drive, Begun, Flatten, Payloads, LastNum;
    var hungry := BegunReads(w, n, body, [], cfg);
    BegunLeavesRoom(w, n, body, [], cfg);
    Unfold(hungry, cfg);
    Unfold(Step(hungry, cfg), cfg);
  }

  lemma BegunLeavesRoom(w: World, n: u32, body: seq<Frame>, rest: seq<Frame>, cfg: Cfg)
    requires Begun(w, n, body, rest, cfg)
    ensures |Flatten(body, cfg.max, cfg.z)| < n && Rising(Flatten(body, cfg.max, cfg.z), 0)
  {
  }

  /** A frame that may not stand in a window, or an event out of order. */
  lemma FaultyFrameVerdict(w: World, n: u32, body: seq<Frame>, f: Frame, rest: seq<Frame>, cfg: Cfg)
    requires Begun(w, n, body, [f] + rest, cfg)
    ensures var prev := LastNum(Flatten(body, cfg.max, cfg.z), 0);
            && (f.Window? || f.Ack? ==>
                  Drive(w, cfg).conn == w.conn.(phase := Closed(Failed(UnexpectedFrame(EventExpected)))))
            && (f.Json? && f.num <= prev ==>
                  Drive(w, cfg).conn == w.conn.(phase := Closed(Failed(SeqOutOfOrder(f.num, prev)))))
  {
    hide Drive, Begun, Flatten, Payloads, LastNum;
    var hungry := BegunReads(w, n, body, [f] + rest, cfg);
    BegunLeavesRoom(w, n, body, [f] + rest, cfg);
    Unfold(hungry, cfg);
    Unfold(Step(hungry, cfg), cfg);
  }

  /** The same inside a compressed frame, behind events that are in order. */
  lemma FaultyInnerVerdict(w: World, n: u32, body: seq<Frame>, js: seq<Frame>, junk: seq<byte>, rest: seq<Frame>, cfg: Cfg)
    requires Faithful(cfg.z) && EventsWithin(js, cfg.max, cfg.z) && junk != []
    requires Begun(w, n, body, [Compressed(EncodeAll(js, cfg.z) + junk)] + rest, cfg)
    requires Begun(WithFrames(w, [Window(n)] + (body + js) + rest), n, body + js, rest, cfg)
    ensures var prev := LastNum(Flatten(body + js, cfg.max, cfg.z), 0);
            var c := Drive(w, cfg).conn;
            match Decode(junk, cfg.max, cfg.z)
            case NeedMore => c == w.conn.(phase := Closed(Failed(InvalidFrame(PayloadTruncated))))
            case Bad(e, _) => c == w.conn.(phase := Closed(Failed(e)))
            case Got(f, _) =>
              && (!f.Json? ==> c == w.conn.(phase := Closed(Failed(UnexpectedFrame(OnlyEventsInside)))))
              && (f.Json? && f.num <= prev ==> c == w.conn.(phase := Closed(Failed(SeqOutOfOrder(f.num, prev)))))
  {
    hide Drive, Begun, Flatten, FlattenInner, Payloads, LastNum, Judge, EncodeAll, Faithful, EventsWithin, Decode, Rising;
    var max, z := cfg.max, cfg.z;
    var packed := Compressed(EncodeAll(js, z) + junk);
    var items, more := Flatten(body, max, z), Flatten(js, max, z);
    var hungry := BegunReads(w, n, body, [packed] + rest, cfg);
    BegunLeavesRoom(w, n, body, [packed] + rest, cfg);
    BegunLeavesRoom(WithFrames(w, [Window(n)] + (body + js) + rest), n, body + js, rest, cfg);
    DriveFrame(hungry, cfg);
    FlattenPayload(js, junk, max, z);
    FlattenAppend(body, js, max, z);
    assert hungry.feed.frames[0] == packed;
    var p := hungry.conn.phase;
    JudgeAppend(n, p.events, p.prev, more, FlattenInner(junk, max, z));
    JudgeHungers(n, [], 0, items + more);
    JudgeAppend(n, [], 0, items, more);
    JudgeHungers(n, [], 0, items);
    assert [] + Payloads(items) == Payloads(items);
    var prev, events := LastNum(items + more, 0), [] + Payloads(items + more);
    assert Judge(n, p.events, p.prev, more) == Hungry(events, prev);
    JudgeJunk(n, events, prev, junk, cfg);
    var r := Judge(n, events, prev, FlattenInner(junk, max, z));
    if r.Rejected? {
      Unfold(Resume(WithFrames(hungry, rest), n, r), cfg);
      assert hungry.feed.frames[1..] == rest;
    }
  }

  lemma JudgeJunk(n: u32, events: seq<seq<byte>>, prev: u32, junk: seq<byte>, cfg: Cfg)
    requires junk != [] && |events| < n
    ensures var r := Judge(n, events, prev, FlattenInner(junk, cfg.max, cfg.z));
            match Decode(junk, cfg.max, cfg.z)
            case NeedMore => r == Rejected(InvalidFrame(PayloadTruncated))
            case Bad(e, _) => r == Rejected(e)
            case Got(f, _) =>
              && (!f.Json? ==> r == Rejected(UnexpectedFrame(OnlyEventsInside)))
              && (f.Json? && f.num <= prev ==> r == Rejected(SeqOutOfOrder(f.num, prev)))
  {
    hide Decode;
  }

  /** Up to the first thing that happens besides keepalives: what is written, and how the wait ends. */
  lemma WaitVerdict(w: World, k: nat, cfg: Cfg)
    requires w.conn.phase.AwaitAck? && k <= |w.waits|
    requires forall i :: 0 <= i < k ==> w.waits[i].Timer? && (cfg.keepalive ==> w.waits[i].fate.None?)
    ensures var last, told := w.conn.phase.last, w.conn.written + Zeros(if cfg.keepalive then k else 0);
            if k == |w.waits| then Drive(w, cfg).conn == w.conn.(written := told)
            else match w.waits[k]
              case Consumed(_, None) =>
                Drive(w, cfg) == Drive(w.(conn := Conn(ExpectWindow, w.conn.dispatched, told + [Ack(last)]),
                                          waits := w.waits[k + 1..]), cfg)
              case Consumed(_, Some(e)) => Drive(w, cfg).conn == Conn(Closed(Failed(e)), w.conn.dispatched, told)
              case Timer(Some(e)) =>
                cfg.keepalive ==> Drive(w, cfg).conn == Conn(Closed(Failed(e)), w.conn.dispatched, told)
              case Timer(None) => true
    decreases k
  {
    hide Drive;
    Unfold(w, cfg);
    if k > 0 {
      var next := Step(w, cfg);
      assert forall i :: 0 <= i < k - 1 ==> next.waits[i] == w.waits[i + 1];
      WaitVerdict(next, k - 1, cfg);
      if cfg.keepalive {
        assert w.conn.written + Zeros(k) == w.conn.written + [Ack(0)] + Zeros(k - 1);
      }
    } else {
      assert w.conn.written + Zeros(0) == w.conn.written;
      if w.waits != [] {
        Unfold(Step(w, cfg), cfg);
      }
    }
  }

  /** A receiver that is gone ends the connection with success, and the batch is not dispatched. */
  lemma RefusedVerdict(w: World, cfg: Cfg)
    requires w.conn.phase.Dispatching? && w.env != [] && w.env[0].Refused?
    ensures Drive(w, cfg).conn == w.conn.(phase := Closed(Finished))
  {
    hide Drive;
    Unfold(w, cfg);
    Unfold(Step(w, cfg), cfg);
  }

  lemma EndIsStep(before: World, end: Ending, after: World, cfg: Cfg)
    requires AtRead(before.conn.phase) && before.feed == Incoming([], end)
    requires after.conn == before.conn.(phase := OnEnd(before.conn.phase, end))
    ensures Drive(before, cfg).conn == Drive(after, cfg).conn
  {
    hide Drive;
    Unfold(before, cfg);
    Unfold(Step(before, cfg), cfg);
    Unfold(after, cfg);
  }

  /** A step leaves less to do. */
  lemma StepsDown(w: World, cfg: Cfg)
    requires !Stuck(w)
    ensures var next := Step(w, cfg);
            && (next.env == w.env || (w.env != [] && next.env == w.env[1..]))
            && (|| |next.feed.frames| < |w.feed.frames|
                || (|next.feed.frames| == |w.feed.frames|
                    && (|| |next.env| < |w.env|
                        || (|next.env| == |w.env|
                            && (|| Rank(next) < Rank(w)
                                || (Rank(next) == Rank(w) && next.conn.phase.Closed? && !w.conn.phase.Closed?))))))
  {
    hide Decode, OnFrame;
    if w.conn.phase.Collecting? && !Filled(w.conn.phase) && w.conn.phase.inner != [] {
      InnerShrinks(w.conn.phase, cfg);
    }
  }

  lemma InnerShrinks(p: Phase, cfg: Cfg)
    requires p.Collecting? && p.inner != []
    ensures var q := OnInner(p, cfg.max, cfg.z); q.Closed? || (q.Collecting? && |q.inner| < |p.inner|)
  {
    hide Decode;
  }

  /** With nothing further from the channel or the consumer, no batch is dispatched and nothing is written. */
  lemma {:induction false} QuietDrive(w: World, cfg: Cfg)
    requires w.env == [] && (w.conn.phase.AwaitAck? ==> w.waits == [])
    ensures var c := Drive(w, cfg).conn; c.dispatched == w.conn.dispatched && c.written == w.conn.written
    decreases |w.feed.frames|, |w.env|, Rank(w), if w.conn.phase.Closed? then 0 else 1
  {
    if !Stuck(w) {
      QuietDrive(Step(w, cfg), cfg);
    }
  }

  // ---------------------------------------------------------------------------
  // Batches and acks of every run
  // ---------------------------------------------------------------------------

  function Zeros(k: nat): seq<Frame> {
    seq(k, _ => Ack(0))
  }

  function LastSeqs(bs: seq<BatchData>): seq<u32> {
    seq(|bs|, i requires 0 <= i < |bs| => bs[i].lastSeq)
  }

  /** Keepalives and final acks, with each of `lasts` answered once, in order: (Ack(0)* Ack(s))*. */
  ghost predicate Answered(written: seq<Frame>, lasts: seq<u32>)
    decreases |written|, 0
  {
    if lasts == [] then written == []
    else
      && written != []
      && written[|written| - 1] == Ack(lasts[|lasts| - 1])
      && Pending(written[..|written| - 1], lasts[..|lasts| - 1])
  }

  /** The same, with keepalives for a batch that has no final ack yet. */
  ghost predicate Pending(written: seq<Frame>, lasts: seq<u32>)
    decreases |written|, 1
  {
    || Answered(written, lasts)
    || (written != [] && written[|written| - 1] == Ack(0) && Pending(written[..|written| - 1], lasts))
  }

  /** The rounds of that language, with the number of keepalives in each. */
  function Rounds(zeros: seq<nat>, lasts: seq<u32>): seq<Frame>
    requires |zeros| == |lasts|
  {
    if lasts == [] then []
    else
      var n := |lasts| - 1;
      Rounds(zeros[..n], lasts[..n]) + Zeros(zeros[n]) + [Ack(lasts[n])]
  }

  lemma {:induction false} PendingIsRounds(written: seq<Frame>, lasts: seq<u32>) returns (zeros: seq<nat>, tail: nat)
    requires Pending(written, lasts)
    ensures |zeros| == |lasts| && written == Rounds(zeros, lasts) + Zeros(tail)
    ensures Answered(written, lasts) ==> tail == 0
    decreases |written|
  {
    if written == [] {
      return [], 0;
    }
    var front := written[..|written| - 1];
    if Answered(written, lasts) {
      var before := lasts[..|lasts| - 1];
      zeros, tail := PendingIsRounds(front, before);
      assert (zeros + [tail])[..|before|] == zeros;
      zeros, tail := zeros + [tail], 0;
      assert written == front + [Ack(lasts[|lasts| - 1])];
    } else {
      zeros, tail := PendingIsRounds(front, lasts);
      assert Zeros(tail + 1) == Zeros(tail) + [Ack(0)];
      assert written == front + [Ack(0)];
      tail := tail + 1;
    }
  }

  ghost predicate Sound(b: BatchData) {
    |b.events| <= b.lastSeq
  }

  /** What every reachable connection keeps. */
  ghost predicate Kept(c: Conn) {
    && (forall i :: 0 <= i < |c.dispatched| ==> Sound(c.dispatched[i]))
    && var lasts, n := LastSeqs(c.dispatched), |c.dispatched|;
       match c.phase
       case ExpectWindow => Answered(c.written, lasts)
       case Collecting(window, _, events, prev) => |events| <= prev && |events| <= window && Answered(c.written, lasts)
       case Dispatching(b) => Sound(b) && Answered(c.written, lasts)
       case AwaitAck(last) => n > 0 && last == lasts[n - 1] && Pending(c.written, lasts[..n - 1])
       case Closed(_) => Pending(c.written, lasts) || (n > 0 && Pending(c.written, lasts[..n - 1]))
  }

  lemma ReadingKeeps(p: Phase, q: Phase, cfg: Cfg)
    requires p.ExpectWindow? || p.Collecting?
    requires p.Collecting? ==> |p.events| <= p.prev && |p.events| <= p.window
    requires || (Filled(p) && q == OnFilled(p))
             || (p.Collecting? && !Filled(p) && q == OnInner(p, cfg.max, cfg.z))
             || (!Filled(p) && exists f :: q == OnFrame(p, f))
             || (exists end :: q == OnEnd(p, end))
    ensures match q
            case Collecting(window, _, events, prev) => |events| <= prev && |events| <= window
            case Dispatching(b) => Sound(b) && |b.events| == p.window
            case Closed(_) => true
            case _ => false
  {
    hide Decode;
  }

  lemma PhaseKept(c: Conn, p: Phase)
    requires Kept(c) && (c.phase.ExpectWindow? || c.phase.Collecting?)
    requires match p
             case Collecting(window, _, events, prev) => |events| <= prev && |events| <= window
             case Dispatching(b) => Sound(b)
             case Closed(_) => true
             case _ => false
    ensures Kept(c.(phase := p))
  {
  }

  lemma AdmitKept(c: Conn)
    requires Kept(c) && c.phase.Dispatching?
    ensures Kept(Admit(c)) && Kept(Refuse(c))
  {
    var after := Admit(c);
    assert LastSeqs(after.dispatched)[..|c.dispatched|] == LastSeqs(c.dispatched);
  }

  lemma TickKept(c: Conn, fate: Option<Error>)
    requires Kept(c) && c.phase.AwaitAck?
    ensures Kept(Tick(c, fate))
  {
    if fate.None? {
      var after := Tick(c, fate);
      assert after.written[..|c.written|] == c.written;
    }
  }

  lemma ReplyKept(c: Conn, fate: Option<Error>)
    requires Kept(c) && c.phase.AwaitAck?
    ensures Kept(Reply(c, fate))
  {
    if fate.None? {
      var after := Reply(c, fate);
      assert after.written[..|c.written|] == c.written;
      assert Answered(after.written, LastSeqs(after.dispatched));
    }
  }

  lemma StepKept(w: World, cfg: Cfg)
    requires Kept(w.conn) && !Stuck(w)
    ensures Kept(Step(w, cfg).conn)
  {
    hide Kept;
    var c := w.conn;
    if c.phase.Dispatching? {
      AdmitKept(c);
    } else if c.phase.AwaitAck? {
      match w.waits[0]
      case Timer(fate) => TickKept(c, fate);
      case Consumed(_, fate) => ReplyKept(c, fate);
    } else {
      ReadingOf(c);
      ReadingKeeps(c.phase, Step(w, cfg).conn.phase, cfg);
      PhaseKept(c, Step(w, cfg).conn.phase);
    }
  }

  lemma ReadingOf(c: Conn)
    requires Kept(c)
    ensures c.phase.Collecting? ==> |c.phase.events| <= c.phase.prev && |c.phase.events| <= c.phase.window
  {
  }

  lemma FreshKept()
    ensures Kept(FRESH)
  {
  }

  lemma {:induction false} DriveKept(w: World, cfg: Cfg)
    requires Kept(w.conn)
    ensures Kept(Drive(w, cfg).conn)
    decreases |w.feed.frames|, |w.env|, Rank(w), if w.conn.phase.Closed? then 0 else 1
  {
    hide Kept;
    if !Stuck(w) {
      StepKept(w, cfg);
      DriveKept(Step(w, cfg), cfg);
    }
  }

  /** Without keepalives, the frames written are the final acks of the first `n` batches. */
  ghost predicate OnlyFinal(c: Conn, n: nat) {
    n <= |c.dispatched| && c.written == Rounds(seq(n, _ => 0), LastSeqs(c.dispatched)[..n])
  }

  ghost predicate Terse(c: Conn) {
    var n := |c.dispatched|;
    match c.phase
    case AwaitAck(last) => n > 0 && last == c.dispatched[n - 1].lastSeq && OnlyFinal(c, n - 1)
    case Closed(_) => OnlyFinal(c, n) || (n > 0 && OnlyFinal(c, n - 1))
    case _ => OnlyFinal(c, n)
  }

  lemma OnlyFinalGrows(c: Conn, n: nat)
    requires OnlyFinal(c, n) && n < |c.dispatched|
    ensures OnlyFinal(c.(written := c.written + [Ack(c.dispatched[n].lastSeq)]), n + 1)
  {
    var lasts := LastSeqs(c.dispatched)[..n + 1];
    assert lasts[..n] == LastSeqs(c.dispatched)[..n];
    assert seq(n + 1, _ => 0)[..n] == seq(n, _ => 0);
    assert c.written + Zeros(0) + [Ack(lasts[n])] == c.written + [Ack(lasts[n])];
  }

  lemma OnlyFinalAdmits(c: Conn, b: BatchData, n: nat)
    requires OnlyFinal(c, n)
    ensures OnlyFinal(c.(dispatched := c.dispatched + [b]), n)
  {
    hide Rounds;
    assert LastSeqs(c.dispatched + [b])[..n] == LastSeqs(c.dispatched)[..n];
  }

  lemma StepTerse(w: World, cfg: Cfg)
    requires !cfg.keepalive && Terse(w.conn) && !Stuck(w)
    ensures Terse(Step(w, cfg).conn)
  {
    hide OnlyFinal, Decode, OnInner, OnFrame;
    var c := w.conn;
    if c.phase.Dispatching? && w.env[0].Admitted? {
      OnlyFinalAdmits(c, c.phase.batch, |c.dispatched|);
      SamePhase(c.(dispatched := c.dispatched + [c.phase.batch]), AwaitAck(c.phase.batch.lastSeq), |c.dispatched|);
    } else if c.phase.AwaitAck? && w.waits[0].Consumed? && w.waits[0].fate.None? {
      OnlyFinalGrows(c, |c.dispatched| - 1);
      SamePhase(c.(written := c.written + [Ack(c.phase.last)]), ExpectWindow, |c.dispatched|);
    } else if c.phase.ExpectWindow? || c.phase.Collecting? {
      ReadingStays(w, cfg);
      SamePhase(c, Step(w, cfg).conn.phase, |c.dispatched|);
    } else {
      SamePhase(c, Step(w, cfg).conn.phase, |c.dispatched|);
      if c.phase.AwaitAck? {
        SamePhase(c, Step(w, cfg).conn.phase, |c.dispatched| - 1);
      }
    }
  }

  lemma SamePhase(c: Conn, p: Phase, n: nat)
    ensures OnlyFinal(c, n) ==> OnlyFinal(c.(phase := p), n)
  {
  }

  lemma ReadingStays(w: World, cfg: Cfg)
    requires !Stuck(w) && (w.conn.phase.ExpectWindow? || w.conn.phase.Collecting?)
    ensures var c := Step(w, cfg).conn;
            c == w.conn.(phase := c.phase) && !c.phase.AwaitAck?
  {
    hide Decode;
  }

  lemma {:induction false} DriveTerse(w: World, cfg: Cfg)
    requires !cfg.keepalive && Terse(w.conn)
    ensures Terse(Drive(w, cfg).conn)
    decreases |w.feed.frames|, |w.env|, Rank(w), if w.conn.phase.Closed? then 0 else 1
  {
    hide Terse;
    if !Stuck(w) {
      StepTerse(w, cfg);
      DriveTerse(Step(w, cfg), cfg);
    }
  }

  lemma FreshTerse()
    ensures Terse(FRESH)
  {
    assert LastSeqs([])[..0] == [];
  }

  /** Of every run: no batch has fewer last sequence numbers than events, so that no final ack of a
      non-empty batch is a keepalive and every one covers its events; and the frames written are rounds of
      keepalives, each round closed by the final ack of its batch, in order, and at most one round open. There
      is no keepalive unless one is configured. */
  lemma EveryRun(feed: Incoming, env: seq<Encounter>, cfg: Cfg) returns (zeros: seq<nat>, tail: nat, answered: nat)
    ensures var c := Drive(Start(feed, env), cfg).conn;
            && (forall i :: 0 <= i < |c.dispatched| ==> |c.dispatched[i].events| <= c.dispatched[i].lastSeq)
            && |zeros| == answered <= |c.dispatched| <= answered + 1
            && c.written == Rounds(zeros, LastSeqs(c.dispatched)[..answered]) + Zeros(tail)
            && (c.phase.ExpectWindow? || c.phase.Collecting? || c.phase.Dispatching? ==>
                  answered == |c.dispatched| && tail == 0)
            && (!cfg.keepalive ==> tail == 0 && forall i :: 0 <= i < |zeros| ==> zeros[i] == 0)
  {
    FreshKept();
    DriveKept(Start(feed, env), cfg);
    var c := Drive(Start(feed, env), cfg).conn;
    hide Drive;
    var lasts := LastSeqs(c.dispatched);
    assert lasts[..|lasts|] == lasts;
    assert forall i :: 0 <= i < |c.dispatched| ==> Sound(c.dispatched[i]);
    if !cfg.keepalive {
      FreshTerse();
      DriveTerse(Start(feed, env), cfg);
      answered := if OnlyFinal(c, |lasts|) && !c.phase.AwaitAck? then |lasts| else |lasts| - 1;
      zeros, tail := seq(answered, _ => 0), 0;
      assert c.written + Zeros(0) == c.written;
    } else if c.phase.AwaitAck? || (c.phase.Closed? && !Pending(c.written, lasts)) {
      answered := |lasts| - 1;
      zeros, tail := PendingIsRounds(c.written, lasts[..answered]);
    } else {
      answered := |lasts|;
      zeros, tail := PendingIsRounds(c.written, lasts);
    }
  }
}
