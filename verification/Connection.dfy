/** The server's side of one connection: a flat step machine, and the nested loops that run it. */
module Connection {
  import opened Bytes
  import opened Frames
  import opened FrameLaws
  import opened Codec

  // ---------------------------------------------------------------------------
  // The machine
  // ---------------------------------------------------------------------------

  /** What a batch carries: raw payloads in wire order, and the last sequence number. */
  datatype BatchData = BatchData(events: seq<seq<byte>>, lastSeq: u32)

  /** What the connection handler returns: `Ok(())` or an error. */
  datatype Verdict = Finished | Failed(error: Error)

  datatype Phase =
    | ExpectWindow
    | Collecting(window: u32, inner: seq<byte>, events: seq<seq<byte>>, prev: u32)
    | Dispatching(batch: BatchData)
    | AwaitAck(last: u32)
    | Closed(verdict: Verdict)

  datatype Cfg = Cfg(max: nat, keepalive: bool, z: Zlib)

  predicate Filled(p: Phase) {
    p.Collecting? && |p.events| >= p.window
  }

  /** The loop is about to read a frame. */
  predicate AtRead(p: Phase) {
    p.ExpectWindow? || (p.Collecting? && !Filled(p) && p.inner == [])
  }

  function Accept(p: Phase, num: u32, data: seq<byte>): Phase
    requires p.Collecting?
  {
    if num <= p.prev then Closed(Failed(SeqOutOfOrder(num, p.prev)))
    else p.(events := p.events + [data], prev := num)
  }

  /** The next frame from the wire. */
  function OnFrame(p: Phase, f: Frame): Phase
    requires p.ExpectWindow? || p.Collecting?
  {
    if p.ExpectWindow? then
      if f.Window? then Collecting(f.count, [], [], 0)
      else Closed(Failed(UnexpectedFrame(WindowExpected)))
    else match f
      case Json(num, data) => Accept(p, num, data)
      case Compressed(inner) => p.(inner := inner)
      case _ => Closed(Failed(UnexpectedFrame(EventExpected)))
  }

  /** The wire has no further frame. */
  function OnEnd(p: Phase, end: Ending): Phase
    requires p.ExpectWindow? || p.Collecting?
  {
    match end
    case Fault(e) => Closed(Failed(e))
    case Eof => Closed(if p.ExpectWindow? then Finished else Failed(ConnectionClosed))
  }

  /** The next frame from an unpacked compressed frame. */
  function OnInner(p: Phase, max: nat, z: Zlib): Phase
    requires p.Collecting?
  {
    match Decode(p.inner, max, z)
    case NeedMore => Closed(Failed(InvalidFrame(PayloadTruncated)))
    case Bad(e, _) => Closed(Failed(e))
    case Got(f, rest) =>
      if f.Json? then Accept(p.(inner := rest), f.num, f.data)
      else Closed(Failed(UnexpectedFrame(OnlyEventsInside)))
  }

  /** The window is full; bytes left in a compressed frame are dropped here. */
  function OnFilled(p: Phase): Phase
    requires p.Collecting?
  {
    Dispatching(BatchData(p.events, p.prev))
  }

  datatype Conn = Conn(phase: Phase, dispatched: seq<BatchData>, written: seq<Frame>)

  const FRESH: Conn := Conn(ExpectWindow, [], [])

  function Admit(c: Conn): Conn
    requires c.phase.Dispatching?
  {
    Conn(AwaitAck(c.phase.batch.lastSeq), c.dispatched + [c.phase.batch], c.written)
  }

  function Refuse(c: Conn): Conn {
    c.(phase := Closed(Finished))
  }

  /** The keepalive timer fires; `fate` is what writing the frame comes to. */
  function Tick(c: Conn, fate: Option<Error>): Conn {
    match fate
    case None => c.(written := c.written + [Ack(0)])
    case Some(e) => c.(phase := Closed(Failed(e)))
  }

  function Reply(c: Conn, fate: Option<Error>): Conn
    requires c.phase.AwaitAck?
  {
    match fate
    case None => c.(phase := ExpectWindow, written := c.written + [Ack(c.phase.last)])
    case Some(e) => c.(phase := Closed(Failed(e)))
  }

  /** The three ways of giving up a batch. */
  datatype Consumption = ByAck | ByIntoEvents | ByDrop

  /** What happens while an ack is awaited. */
  datatype Wait =
    | Timer(fate: Option<Error>)
    | Consumed(how: Consumption, fate: Option<Error>)

  /** What the channel does with one batch, and what follows. */
  datatype Encounter = Refused | Admitted(waits: seq<Wait>)

  /** A connection with everything it will still meet. */
  datatype World = World(conn: Conn, feed: Incoming, env: seq<Encounter>, waits: seq<Wait>)

  function Start(feed: Incoming, env: seq<Encounter>): World {
    World(FRESH, feed, env, [])
  }

  /** The handler has returned, or waits for something that the environment does not supply. */
  predicate Stuck(w: World) {
    || w.conn.phase.Closed?
    || (w.conn.phase.Dispatching? && w.env == [])
    || (w.conn.phase.AwaitAck? && w.waits == [])
  }

  function To(w: World, p: Phase): World {
    w.(conn := w.conn.(phase := p))
  }

  function Step(w: World, cfg: Cfg): World
    requires !Stuck(w)
  {
    var p := w.conn.phase;
    if Filled(p) then To(w, OnFilled(p))
    else if p.Collecting? && p.inner != [] then To(w, OnInner(p, cfg.max, cfg.z))
    else if p.ExpectWindow? || p.Collecting? then
      if w.feed.frames == [] then To(w, OnEnd(p, w.feed.end))
      else To(w, OnFrame(p, w.feed.frames[0])).(feed := w.feed.(frames := w.feed.frames[1..]))
    else if p.Dispatching? then
      match w.env[0]
      case Refused => World(Refuse(w.conn), w.feed, w.env[1..], w.waits)
      case Admitted(waits) => World(Admit(w.conn), w.feed, w.env[1..], waits)
    else
      var rest := w.(waits := w.waits[1..]);
      match w.waits[0]
      case Timer(fate) => if cfg.keepalive then rest.(conn := Tick(w.conn, fate)) else rest
      case Consumed(_, fate) => rest.(conn := Reply(w.conn, fate))
  }

  function Rank(w: World): nat {
    match w.conn.phase
    case Collecting(_, inner, _, _) => |inner| + 1
    case AwaitAck(_) => |w.waits| + 1
    case _ => 0
  }

  /** The whole run. It ends although a compressed frame may hold no event. */
  function Drive(w: World, cfg: Cfg): World
    decreases |w.feed.frames|, |w.env|, Rank(w), if w.conn.phase.Closed? then 0 else 1
  {
    if Stuck(w) then w else Drive(Step(w, cfg), cfg)
  }

  lemma Unfold(w: World, cfg: Cfg)
    ensures Drive(w, cfg) == if Stuck(w) then w else Drive(Step(w, cfg), cfg)
  {
  }

  // ---------------------------------------------------------------------------
  // Batch and its one-shot ack
  // ---------------------------------------------------------------------------

  /** A one-shot channel; `sends` counts the deliveries. */
  class Oneshot {
    var slot: Option<u32>
    var sends: nat

    constructor ()
      ensures slot == None && sends == 0
    {
      slot, sends := None, 0;
    }

    method Send(v: u32)
      modifies this
      ensures slot == Some(v) && sends == old(sends) + 1
    {
      slot, sends := Some(v), sends + 1;
    }
  }

  class Batch {
    var events: seq<seq<byte>>
    const lastSeq: u32
    var ack: Oneshot?

    constructor (events: seq<seq<byte>>, lastSeq: u32, tx: Oneshot)
      ensures this.events == events && this.lastSeq == lastSeq && ack == tx
    {
      this.events := events;
      this.lastSeq := lastSeq;
      this.ack := tx;
    }

    function Data(): BatchData
      reads this
    {
      BatchData(events, lastSeq)
    }

    // Whichever way the batch is given up, `lastSeq` has then been delivered, and only once.

    method Ack()
      modifies this, ack
      ensures ack == null
      ensures old(ack) != null ==> old(ack).slot == Some(lastSeq) && old(ack).sends == old(ack.sends) + 1
      ensures events == old(events)
    {
      if ack != null {
        var tx := ack;
        ack := null;
        tx.Send(lastSeq);
      }
      Drop();
    }

    method IntoEvents() returns (taken: seq<seq<byte>>)
      modifies this, ack
      ensures ack == null
      ensures old(ack) != null ==> old(ack).slot == Some(lastSeq) && old(ack).sends == old(ack.sends) + 1
      ensures taken == old(events) && events == []
    {
      taken := events;
      events := [];
      Drop();
    }

    method Drop()
      modifies this, ack
      ensures ack == null
      ensures old(ack) != null ==> old(ack).slot == Some(lastSeq) && old(ack).sends == old(ack.sends) + 1
      ensures events == old(events)
    {
      if ack != null {
        var tx := ack;
        ack := null;
        tx.Send(lastSeq);
      }
    }
  }

  /** The sending half of the bounded channel of batches, with a log of what it admitted. */
  class BatchSender {
    var log: seq<BatchData>

    constructor ()
      ensures log == []
    {
      log := [];
    }

    method Send(batch: Batch, open: bool) returns (ok: bool)
      modifies this
      ensures ok == open
      ensures log == if open then old(log) + [batch.Data()] else old(log)
    {
      if open {
        log := log + [batch.Data()];
      }
      ok := open;
    }
  }

  // ---------------------------------------------------------------------------
  // The code
  // ---------------------------------------------------------------------------

  /** `framed.send(..).await`: feed, then flush. Of a frame whose write fails, some bytes may be gone. */
  method SendFrame(framed: Framed, f: Frame, fate: Option<Error>) returns (r: Option<Error>, ghost torn: seq<byte>)
    requires framed.Valid() && framed.writeBuf.data == []
    modifies framed.writeBuf, framed.io`sent
    ensures r == fate
    ensures fate.None? ==> framed.writeBuf.data == [] && torn == Encode(f, framed.codec.z)
    ensures torn <= Encode(f, framed.codec.z) && framed.io.sent == old(framed.io.sent) + torn
  {
    hide Encode;
    ghost var before := framed.io.sent;
    assert framed.Written() == before;
    r := framed.Feed(f, None);
    r := framed.Flush(fate);
    torn := framed.io.sent[|before|..];
    assert torn + framed.writeBuf.data == framed.Written()[|before|..] == Encode(f, framed.codec.z);
  }

  // `run_connection` is given in four methods: its loops level by level, and a batch's dispatch. A ghost world records
  // how far the machine has come; every statement that meets the environment is one step of it.

  lemma StepOf(w: World, next: World, cfg: Cfg)
    requires !Stuck(w) && next == Step(w, cfg)
    ensures Drive(next, cfg) == Drive(w, cfg)
  {
  }

  lemma AckWritten(before: seq<Frame>, n: u32, z: Zlib)
    ensures EncodeAll(before + [Ack(n)], z) == EncodeAll(before, z) + Encode(Ack(n), z)
  {
    EncodeAllAppend(before, [Ack(n)], z);
    EncodeAllOne(Ack(n), z);
  }

  /** Reads events until the window is full. */
  method CollectWindow(framed: Framed, window: u32, cfg: Cfg, ghost w0: World)
    returns (r: Result<(seq<seq<byte>>, u32)>, ghost w: World)
    requires framed.Valid() && framed.codec.maxFrameSize == cfg.max && framed.codec.z == cfg.z
    requires w0.conn.phase == Collecting(window, [], [], 0) && w0.feed == framed.Remaining()
    modifies framed.readBuf, framed.io`arriving
    ensures Drive(w, cfg) == Drive(w0, cfg)
    ensures w.conn == w0.conn.(phase := w.conn.phase) && w.env == w0.env
    ensures match r
            case Ok((events, lastSeq)) =>
              && w.conn.phase == Dispatching(BatchData(events, lastSeq))
              && w.feed == framed.Remaining() && |w.feed.frames| <= |w0.feed.frames|
            case Err(e) => w.conn.phase == Closed(Failed(e))
  {
    hide Drive, Decode, Read;
    w := w0;
    var events: seq<seq<byte>> := [];
    var received: u32, lastSeq: u32, prevSeq: u32 := 0, 0, 0;
    ghost var inner: seq<byte> := [];
    while received < window
      invariant w == World(w0.conn.(phase := Collecting(window, inner, events, prevSeq)), framed.Remaining(), w0.env, w0.waits)
      invariant received == |events| <= window && lastSeq == prevSeq
      invariant received < window ==> inner == []
      invariant |w.feed.frames| <= |w0.feed.frames|
      invariant Drive(w, cfg) == Drive(w0, cfg)
      decreases |w.feed.frames|
    {
      ghost var before := w;
      w := Step(before, cfg);
      StepOf(before, w, cfg);
      var next := framed.Next();
      if next.None? {
        return Err(ConnectionClosed), w;
      }
      if next.value.Err? {
        return Err(next.value.error), w;
      }
      match next.value.value
      case Json(num, data) =>
        if num <= prevSeq {
          return Err(SeqOutOfOrder(num, prevSeq)), w;
        }
        prevSeq, lastSeq, received, events := num, num, received + 1, events + [data];
      case Compressed(bytes) =>
        var buf := new BytesMut(bytes);
        while buf.data != [] && received < window
          invariant framed.Remaining() == before.feed.(frames := before.feed.frames[1..])
          invariant w == World(w0.conn.(phase := Collecting(window, buf.data, events, prevSeq)), framed.Remaining(), w0.env, w0.waits)
          invariant received == |events| <= window && lastSeq == prevSeq
          invariant Drive(w, cfg) == Drive(w0, cfg)
          decreases |buf.data|
        {
          ghost var packed := w;
          w := Step(packed, cfg);
          StepOf(packed, w, cfg);
          var d := DecodeWithLimit(buf, cfg.max, cfg.z);
          if d.Err? {
            return Err(d.error), w;
          }
          match d.value
          case Some(Json(num, data)) =>
            if num <= prevSeq {
              return Err(SeqOutOfOrder(num, prevSeq)), w;
            }
            prevSeq, lastSeq, received, events := num, num, received + 1, events + [data];
          case Some(_) =>
            return Err(UnexpectedFrame(OnlyEventsInside)), w;
          case None =>
            return Err(InvalidFrame(PayloadTruncated)), w;
        }
        inner := buf.data;
      case _ =>
        return Err(UnexpectedFrame(EventExpected)), w;
    }
    ghost var full := w;
    w := Step(full, cfg);
    StepOf(full, w, cfg);
    r := Ok((events, lastSeq));
  }

  /** Waits for the consumer, sending keepalives, and writes the final ack. `None` is the next round. */
  method AwaitAndReply(framed: Framed, batch: Batch, rx: Oneshot, lastSeq: u32, waits: seq<Wait>, cfg: Cfg,
                       ghost w0: World, ghost base: seq<byte>)
    returns (r: Option<Option<Verdict>>, ghost w: World, ghost torn: seq<byte>)
    requires framed.Valid() && framed.writeBuf.data == [] && framed.codec.z == cfg.z
    requires batch.ack == rx && batch.lastSeq == lastSeq
    requires w0.conn.phase == AwaitAck(lastSeq) && w0.waits == waits
    requires framed.io.sent == base + EncodeAll(w0.conn.written, cfg.z)
    modifies framed.writeBuf, framed.io`sent, batch, rx
    ensures framed.io.sent == base + EncodeAll(w.conn.written, cfg.z) + torn
    ensures Drive(w, cfg) == Drive(w0, cfg)
    ensures w.feed == w0.feed && w.env == w0.env && w.conn.dispatched == w0.conn.dispatched
    ensures match r
            case None => w.conn.phase == ExpectWindow && torn == [] && framed.writeBuf.data == []
            case Some(None) => w.conn.phase.AwaitAck? && Stuck(w) && torn == []
            case Some(Some(v)) =>
              && w.conn.phase == Closed(v) && v.Failed?
              && (torn <= Encode(Ack(0), cfg.z) || torn <= Encode(Ack(lastSeq), cfg.z))
  {
    hide Drive, Encode, EncodeAll;
    w, torn := w0, [];
    var i := 0;
    while i < |waits|
      invariant i <= |waits| && w.waits == waits[i..]
      invariant w.conn.phase == AwaitAck(lastSeq) && batch.ack == rx
      invariant framed.writeBuf.data == [] && framed.io.sent == base + EncodeAll(w.conn.written, cfg.z) && torn == []
      invariant w.feed == w0.feed && w.env == w0.env && w.conn.dispatched == w0.conn.dispatched
      invariant Drive(w, cfg) == Drive(w0, cfg)
      decreases |waits| - i
    {
      ghost var before := w;
      w := Step(before, cfg);
      StepOf(before, w, cfg);
      match waits[i] {
        case Timer(fate) =>
          if cfg.keepalive {
            AckWritten(before.conn.written, 0, cfg.z);
            var failed;
            failed, torn := SendFrame(framed, Ack(0), fate);
            if failed.Some? {
              return Some(Some(Failed(failed.value))), w, torn;
            }
            torn := [];
          }
        case Consumed(how, fate) =>
          match how {
            case ByAck => batch.Ack();
            case ByIntoEvents => var _ := batch.IntoEvents();
            case ByDrop => batch.Drop();
          }
          var acked := match rx.slot case Some(v) => v case None => lastSeq;
          AckWritten(before.conn.written, acked, cfg.z);
          var failed;
          failed, torn := SendFrame(framed, Ack(acked), fate);
          if failed.Some? {
            return Some(Some(Failed(failed.value))), w, torn;
          }
          return None, w, [];
      }
      i := i + 1;
    }
    r := Some(None);
  }

  lemma WindowStep(w: World, cfg: Cfg) returns (next: World)
    requires w.conn.phase.ExpectWindow?
    ensures next.env == w.env && next.conn == w.conn.(phase := next.conn.phase)
    ensures w.feed.frames == [] ==>
              next.conn.phase == Closed(if w.feed.end.Fault? then Failed(w.feed.end.error) else Finished)
    ensures w.feed.frames != [] ==>
              && next.feed == Incoming(w.feed.frames[1..], w.feed.end)
              && next.conn.phase == if w.feed.frames[0].Window? then Collecting(w.feed.frames[0].count, [], [], 0)
                                    else Closed(Failed(UnexpectedFrame(WindowExpected)))
    ensures Drive(w, cfg) == if next.conn.phase.Closed? then next else Drive(next, cfg)
  {
    next := Step(w, cfg);
  }

  lemma ChannelStep(w: World, cfg: Cfg) returns (next: World)
    requires w.conn.phase.Dispatching? && w.env != []
    ensures next.feed == w.feed && next.env == w.env[1..] && next.conn.written == w.conn.written
    ensures w.env[0].Refused? ==>
              next.conn.phase == Closed(Finished) && next.conn.dispatched == w.conn.dispatched
    ensures w.env[0].Admitted? ==>
              && next.conn.phase == AwaitAck(w.conn.phase.batch.lastSeq) && next.waits == w.env[0].waits
              && next.conn.dispatched == w.conn.dispatched + [w.conn.phase.batch]
    ensures Drive(w, cfg) == if next.conn.phase.Closed? then next else Drive(next, cfg)
  {
    next := Step(w, cfg);
  }

  lemma NothingWritten(z: Zlib)
    ensures EncodeAll([], z) == []
  {
  }

  lemma StuckIsFinal(w: World, cfg: Cfg)
    requires Stuck(w) || w.conn.phase.Closed? || (w.conn.phase.Dispatching? && w.env == [])
    ensures Drive(w, cfg) == w
  {
  }

  /** The beginning of a keepalive or of the last batch's ack. */
  ghost predicate TornAck(torn: seq<byte>, c: Conn, z: Zlib) {
    && c.dispatched != []
    && (torn <= Encode(Ack(0), z) || torn <= Encode(Ack(c.dispatched[|c.dispatched| - 1].lastSeq), z))
  }

  /** Dispatches one batch and sees to its ack. `None` is the next round. */
  method DispatchBatch(framed: Framed, out: BatchSender, events: seq<seq<byte>>, lastSeq: u32, encounter: Encounter,
                       cfg: Cfg, ghost w0: World, ghost base: seq<byte>)
    returns (r: Option<Option<Verdict>>, ghost w: World, ghost torn: seq<byte>)
    requires framed.Valid() && framed.writeBuf.data == [] && framed.codec.z == cfg.z
    requires w0.conn.phase == Dispatching(BatchData(events, lastSeq)) && w0.env != [] && w0.env[0] == encounter
    requires framed.io.sent == base + EncodeAll(w0.conn.written, cfg.z)
    modifies framed.writeBuf, framed.io`sent, out
    ensures framed.io.sent == base + EncodeAll(w.conn.written, cfg.z) + torn
    ensures Drive(w, cfg) == Drive(w0, cfg)
    ensures w.feed == w0.feed && w.env == w0.env[1..]
    ensures w.conn.dispatched == w0.conn.dispatched + (if encounter.Admitted? then [BatchData(events, lastSeq)] else [])
    ensures out.log == old(out.log) + if encounter.Admitted? then [BatchData(events, lastSeq)] else []
    ensures torn == [] || TornAck(torn, w.conn, cfg.z)
    ensures match r
            case None => w.conn.phase == ExpectWindow && torn == [] && framed.writeBuf.data == []
            case Some(None) => w.conn.phase.AwaitAck? && Stuck(w) && torn == []
            case Some(Some(v)) => w.conn.phase == Closed(v) && (torn != [] ==> v.Failed?)
  {
    hide Drive, Step, Stuck, Encode, EncodeAll, Admit, Refuse, Decode, Drain, Concat, Read;
    torn := [];
    w := ChannelStep(w0, cfg);
    var channel := new Oneshot();
    var batch := new Batch(events, lastSeq, channel);
    var ok := out.Send(batch, encounter.Admitted?);
    if !ok {
      batch.Drop();
      assert w0.conn.dispatched + [] == w0.conn.dispatched && old(out.log) + [] == old(out.log);
      StuckIsFinal(w, cfg);
      return Some(Some(Finished)), w, [];
    }
    r, w, torn := AwaitAndReply(framed, batch, channel, lastSeq, encounter.waits, cfg, w, base);
  }

  /** One connection, against everything it will meet. `None` is a handler that still waits; `torn` is what
      got out of a frame whose write failed. */
  method RunConnection(stream: Stream, cfg: Cfg, out: BatchSender, env: seq<Encounter>)
    returns (r: Option<Verdict>, ghost torn: seq<byte>)
    modifies stream, out
    ensures var end := Drive(Start(Read(Concat(old(stream.arriving)), cfg.max, cfg.z), env), cfg);
            && out.log == old(out.log) + end.conn.dispatched
            && stream.sent == old(stream.sent) + EncodeAll(end.conn.written, cfg.z) + torn
            && (torn != [] ==> end.conn.phase.Closed? && end.conn.phase.verdict.Failed? && TornAck(torn, end.conn, cfg.z))
            && r == (if end.conn.phase.Closed? then Some(end.conn.phase.verdict) else None)
  {
    hide Drive, Step, Stuck, Read, Decode, Encode, EncodeAll, Concat, Drain, OnFrame, OnEnd, Admit, Refuse;
    ghost var log0, sent0 := out.log, stream.sent;
    NothingWritten(cfg.z);
    torn := [];
    var codec := new LumberjackCodec(cfg.max, cfg.z);
    var framed := new Framed(stream, codec);
    assert framed.Unread() == Concat(old(stream.arriving));
    ghost var w0 := Start(framed.Remaining(), env);
    ghost var w := w0;
    var i := 0;
    while true
      invariant framed.Valid() && fresh(framed.readBuf) && fresh(framed.writeBuf)
      invariant framed.io == stream && framed.codec == codec && framed.writeBuf.data == [] && torn == []
      invariant i <= |env|
      invariant w == World(Conn(ExpectWindow, w.conn.dispatched, w.conn.written), framed.Remaining(), env[i..], w.waits)
      invariant out.log == log0 + w.conn.dispatched
      invariant stream.sent == sent0 + EncodeAll(w.conn.written, cfg.z)
      invariant Drive(w, cfg) == Drive(w0, cfg)
      decreases |w.feed.frames|
    {
      w := WindowStep(w, cfg);
      var next := framed.Next();
      if next.None? {
        return Some(Finished), [];
      }
      if next.value.Err? {
        return Some(Failed(next.value.error)), [];
      }
      if !next.value.value.Window? {
        return Some(Failed(UnexpectedFrame(WindowExpected))), [];
      }
      var collected;
      collected, w := CollectWindow(framed, next.value.value.count, cfg, w);
      if collected.Err? {
        StuckIsFinal(w, cfg);
        return Some(Failed(collected.error)), [];
      }
      var (events, lastSeq) := collected.value;
      if i == |env| {
        StuckIsFinal(w, cfg);
        return None, [];
      }
      ghost var log := w.conn.dispatched;
      var done;
      done, w, torn := DispatchBatch(framed, out, events, lastSeq, env[i], cfg, w, sent0);
      assert log0 + (log + [BatchData(events, lastSeq)]) == log0 + log + [BatchData(events, lastSeq)];
      assert log0 + log + [] == log0 + log && log + [] == log;
      i := i + 1;
      if done.Some? {
        StuckIsFinal(w, cfg);
        return done.value, torn;
      }
    }
  }
}
