/** A client, a server and a consumer on one connection, byte by byte and in every interleaving. */
module Session {
  import opened Bytes
  import opened Frames
  import opened FrameLaws
  import opened Codec
  import opened Connection
  import opened ConnectionLaws
  import opened Client
  import opened Delivery

  /** `Sending(doomed)`: the frames are in the write buffer, all of them or those before the error. A call that
      was stopped returned an error, or none if its caller dropped it. */
  datatype Caller = Idle | Sending(doomed: Option<Error>) | Awaiting | Stopped(error: Option<Error>)

  /** A call of `send`, with those of its frames that got into the write buffer. */
  datatype Call = Call(order: Order, fed: seq<Frame>)

  /** A call that returned Ok, and the ack that it took, counted from the connection's first. */
  datatype Receipt = Receipt(call: nat, frame: nat)

  datatype Sys = Sys(
    caller: Caller,
    sent: seq<Call>,         // the calls that fed at least their window frame, in order
    taken: nat,              // how many frames the client has decoded
    receipts: seq<Receipt>,  // which of the calls returned Ok, in order
    outbox: seq<byte>,       // client's write buffer
    up: seq<byte>,           // on the way to the server
    inbuf: seq<byte>,        // server's read buffer
    conn: Conn,              // the server's machine
    consumed: nat,           // batches that the consumer acked or dropped
    reply: seq<byte>,        // server's write buffer
    down: seq<byte>,         // on the way to the client
    ackbuf: seq<byte>)       // client's read buffer

  datatype Action =
    | Send(order: Order, upto: nat, error: Error)  // the write behind the first `upto` frames fails
    | Transmit(n: nat)
    | Flushed
    | WriteError(error: Error)
    | TimeOut                // the ack timer runs out
    | StreamEnds(end: Ending)  // the client reads end of file or fails to read
    | Abandon                // the caller drops the call
    | Retry                  // the caller goes on after an error or a dropped call
    | Arrive(n: nat)
    | Serve                  // the server's next step over its input
    | AdmitBatch
    | RefuseBatch
    | Consume
    | KeepAlive
    | FinalAck
    | ReadEnds(end: Ending)  // the server reads end of file or fails to read
    | WriteFails(error: Error)
    | PushReply(n: nat)
    | AckArrive(n: nat)
    | Poll                   // the client decodes one frame of its read buffer

  const START: Sys := Sys(Idle, [], 0, [], [], [], [], FRESH, 0, [], [], [])

  function Expected(o: Order): BatchData {
    BatchData(o.events, Truncate32(|o.events|))
  }

  function Moved(src: seq<byte>, n: nat): (seq<byte>, seq<byte>) {
    var k := if n <= |src| then n else |src|;
    (src[..k], src[k..])
  }

  function WithPhase(s: Sys, p: Phase): Sys {
    s.(conn := s.conn.(phase := p))
  }

  /** What the call feeds when the write behind the first `upto` frames fails. */
  function FedFrames(o: Order, upto: nat, z: Zlib): seq<Frame> {
    var frames := PlanOf(o.events, o.packed, z).frames;
    if upto <= |frames| then frames[..upto] else frames
  }

  function SendStep(s: Sys, o: Order, upto: nat, error: Error, z: Zlib): Sys {
    if !s.caller.Idle? || o.events == [] then s
    else
      var plan, fed := PlanOf(o.events, o.packed, z), FedFrames(o, upto, z);
      if fed == [] then s.(caller := Stopped(Some(error)))
      else s.(caller := Sending(if fed == plan.frames then plan.fault else Some(error)),
              sent := s.sent + [Call(o, fed)],
              outbox := s.outbox + EncodeAll(fed, z))
  }

  /** The server reads: a full window waits for the channel, an unpacked frame goes on, or the next frame
      is decoded from what has arrived. */
  function ServeStep(s: Sys, cfg: Cfg): Sys {
    var p := s.conn.phase;
    if Filled(p) then WithPhase(s, OnFilled(p))
    else if p.Collecting? && p.inner != [] then WithPhase(s, OnInner(p, cfg.max, cfg.z))
    else if AtRead(p) then
      match Decode(s.inbuf, cfg.max, cfg.z)
      case NeedMore => s
      case Bad(e, _) => WithPhase(s, Closed(Failed(e)))
      case Got(f, rest) => WithPhase(s, OnFrame(p, f)).(inbuf := rest)
    else s
  }

  /** The client takes one frame while it waits: an ack of the batch, a smaller ack, or an error. */
  function PollStep(s: Sys, z: Zlib): Sys {
    if !s.caller.Awaiting? || s.sent == [] then s
    else match Decode(s.ackbuf, DEFAULT_MAX_FRAME_SIZE, z)
      case NeedMore => s
      case Bad(e, _) => s.(caller := Stopped(Some(e)))
      case Got(f, rest) =>
        var next := s.(ackbuf := rest, taken := s.taken + 1);
        if !f.Ack? then next.(caller := Stopped(Some(UnexpectedFrame(AckExpected))))
        else if f.num >= Count(s) then next.(caller := Idle, receipts := s.receipts + [Receipt(|s.sent| - 1, s.taken)])
        else next
  }

  /** How a stream ends that holds no further frame. */
  predicate FromTransport(end: Ending) {
    end.Eof? || end.error.Io?
  }

  /** The number of events that the current call wants acked. */
  function Count(s: Sys): u32
    requires s.sent != []
  {
    Truncate32(|s.sent[|s.sent| - 1].order.events|)
  }

  /** An action that is not enabled changes nothing. */
  function Next(s: Sys, a: Action, cfg: Cfg): Sys {
    match a
    case Send(o, upto, error) => SendStep(s, o, upto, error, cfg.z)
    case Transmit(n) =>
      if s.caller.Stopped? then s else var (go, stay) := Moved(s.outbox, n); s.(outbox := stay, up := s.up + go)
    case Flushed => if s.caller == Sending(None) && s.outbox == [] then s.(caller := Awaiting) else s
    case WriteError(e) =>
      if s.caller.Sending? then s.(caller := Stopped(if s.caller.doomed.Some? then s.caller.doomed else Some(e))) else s
    case TimeOut => if s.caller.Awaiting? then s.(caller := Stopped(Some(Error.AckTimeout))) else s
    case StreamEnds(end) =>
      if s.caller.Awaiting? && FromTransport(end) && Decode(s.ackbuf, DEFAULT_MAX_FRAME_SIZE, cfg.z).NeedMore? then
        s.(caller := Stopped(Some(if end.Fault? then end.error else ConnectionClosed)))
      else s
    case Abandon => if s.caller.Sending? || s.caller.Awaiting? then s.(caller := Stopped(None)) else s
    case Retry => if s.caller.Stopped? then s.(caller := Idle) else s
    case Arrive(n) => var (go, stay) := Moved(s.up, n); s.(up := stay, inbuf := s.inbuf + go)
    case Serve => ServeStep(s, cfg)
    case AdmitBatch => if s.conn.phase.Dispatching? then s.(conn := Admit(s.conn)) else s
    case RefuseBatch => if s.conn.phase.Dispatching? then s.(conn := Refuse(s.conn)) else s
    case Consume => if s.consumed < |s.conn.dispatched| then s.(consumed := s.consumed + 1) else s
    case KeepAlive =>
      if s.conn.phase.AwaitAck? && cfg.keepalive then
        s.(conn := Tick(s.conn, None), reply := s.reply + Encode(Ack(0), cfg.z))
      else s
    case FinalAck =>
      if s.conn.phase.AwaitAck? && s.consumed == |s.conn.dispatched| then
        s.(conn := Reply(s.conn, None), reply := s.reply + Encode(Ack(s.conn.phase.last), cfg.z))
      else s
    case ReadEnds(end) =>
      if AtRead(s.conn.phase) && FromTransport(end) && Decode(s.inbuf, cfg.max, cfg.z).NeedMore? then
        WithPhase(s, OnEnd(s.conn.phase, end))
      else s
    case WriteFails(e) => if s.conn.phase.AwaitAck? then WithPhase(s, Closed(Failed(e))) else s
    case PushReply(n) => var (go, stay) := Moved(s.reply, n); s.(reply := stay, down := s.down + go)
    case AckArrive(n) => var (go, stay) := Moved(s.down, n); s.(down := stay, ackbuf := s.ackbuf + go)
    case Poll => PollStep(s, cfg.z)
  }

  function Run(s: Sys, actions: seq<Action>, cfg: Cfg): Sys
    decreases |actions|
  {
    if actions == [] then s else Run(Next(s, actions[0], cfg), actions[1..], cfg)
  }

  // ---------------------------------------------------------------------------
  // The invariant
  // ---------------------------------------------------------------------------

  function Upstream(s: Sys): seq<byte> {
    s.inbuf + s.up + s.outbox
  }

  function Downstream(s: Sys): seq<byte> {
    s.ackbuf + s.down + s.reply
  }

  /** The frames of some calls, one call behind the other. */
  function Backlog(calls: seq<Call>): seq<Frame> {
    if calls == [] then [] else calls[0].fed + Backlog(calls[1..])
  }

  /** How many frames of the order the server has read in phase `p`. */
  function FramesRead(p: Phase, o: Order, z: Zlib): nat {
    match p
    case ExpectWindow => 0
    case Collecting(_, inner, _, prev) => if !o.packed then 1 + prev else if inner == [] && prev == 0 then 1 else 2
    case _ => |BatchFrames(o.events, o.packed, z)|
  }

  /** The server has read a part of the order, and holds exactly that part. */
  ghost predicate Midway(p: Phase, o: Order, z: Zlib) {
    match p
    case ExpectWindow => true
    case Collecting(window, inner, events, prev) =>
      && window == |o.events| && prev == |events| <= |o.events| && events == o.events[..prev]
      && inner == (if o.packed && !(inner == [] && prev == 0) then EncodeAll(EventFrames(o.events)[prev..], z) else [])
    case Dispatching(b) => b == Expected(o)
    case _ => false
  }

  /** What the server has still to read of the calls from `d` on, of which it has begun the first. */
  function Unread(p: Phase, calls: seq<Call>, d: nat, z: Zlib): seq<Frame>
    requires d < |calls|
  {
    var k, fed := FramesRead(p, calls[d].order, z), calls[d].fed;
    (if k <= |fed| then fed[k..] else []) + Backlog(calls[d + 1..])
  }

  /** The nonzero acks, in order. */
  function Finals(fs: seq<Frame>): seq<u32> {
    if fs == [] then []
    else
      var last := fs[|fs| - 1];
      Finals(fs[..|fs| - 1]) + if last.Ack? && last.num > 0 then [last.num] else []
  }

  ghost predicate CallOk(c: Call, z: Zlib) {
    && SizedBatch(c.order.events, c.order.packed, z)
    && c.fed != [] && c.fed <= BatchFrames(c.order.events, c.order.packed, z)
  }

  /** The batches are those of the first calls, in order, and the consumer gives them up in order. */
  ghost predicate InOrder(s: Sys, z: Zlib) {
    && s.consumed <= |s.conn.dispatched| <= |s.sent|
    && (forall k :: 0 <= k < |s.conn.dispatched| ==> s.conn.dispatched[k] == Expected(s.sent[k].order))
    && (forall k :: 0 <= k < |s.sent| ==> CallOk(s.sent[k], z))
  }

  /** The bytes under way are those of the frames that the server has still to read. */
  ghost predicate ServerSide(s: Sys, z: Zlib) {
    var p, d := s.conn.phase, |s.conn.dispatched|;
    d <= |s.sent| &&
    match p
    case Closed(_) => true
    case ExpectWindow => s.consumed == d && Upstream(s) == EncodeAll(Backlog(s.sent[d..]), z)
    case AwaitAck(last) =>
      && 0 < d <= s.consumed + 1 && last == s.conn.dispatched[d - 1].lastSeq
      && Upstream(s) == EncodeAll(Backlog(s.sent[d..]), z)
    case _ =>
      && s.consumed == d < |s.sent|
      && Midway(p, s.sent[d].order, z) && FramesRead(p, s.sent[d].order, z) <= |s.sent[d].fed|
      && Upstream(s) == EncodeAll(Unread(p, s.sent, d, z), z)
  }

  /** The nonzero acks written are those of the first batches, which were consumed, and the bytes under way
      are those of the acks that the client has still to take. */
  ghost predicate ReplySide(s: Sys, z: Zlib) {
    var c, finals := s.conn, Finals(s.conn.written);
    && s.taken <= |c.written| && Downstream(s) == EncodeAll(c.written[s.taken..], z)
    && (forall i :: 0 <= i < |c.written| ==> c.written[i].Ack?)
    && finals <= LastSeqs(c.dispatched) && |finals| <= s.consumed
    && (!c.phase.Closed? ==> |finals| == if c.phase.AwaitAck? then |c.dispatched| - 1 else |c.dispatched|)
  }

  /** The batch that a nonzero ack answers. */
  function BatchOfAck(c: Conn, frame: nat): nat
    requires frame <= |c.written|
  {
    |Finals(c.written[..frame])|
  }

  ghost predicate ReceiptOk(s: Sys, r: Receipt) {
    && r.call < |s.sent| && r.frame < s.taken <= |s.conn.written|
    && s.conn.written[r.frame].Ack? && s.conn.written[r.frame].num >= |s.sent[r.call].order.events| > 0
    && BatchOfAck(s.conn, r.frame) <= r.call
  }

  /** Each receipt is for an ack that is large enough, calls and acks in order. */
  ghost predicate ReceiptSide(s: Sys) {
    && (forall i :: 0 <= i < |s.receipts| ==> ReceiptOk(s, s.receipts[i]))
    && (forall i, j :: 0 <= i < j < |s.receipts| ==>
          s.receipts[i].call < s.receipts[j].call && s.receipts[i].frame < s.receipts[j].frame)
    && (s.caller.Sending? || s.caller.Awaiting? ==>
          s.sent != [] && forall i :: 0 <= i < |s.receipts| ==> s.receipts[i].call < |s.sent| - 1)
  }

  ghost predicate Inv(s: Sys, z: Zlib) {
    InOrder(s, z) && ServerSide(s, z) && ReplySide(s, z) && ReceiptSide(s)
  }

  /** No size of the call is cut to 32 bits. */
  ghost predicate Disciplined(a: Action, z: Zlib) {
    a.Send? && a.order.events != [] ==> SizedBatch(a.order.events, a.order.packed, z)
  }

  // ---------------------------------------------------------------------------
  // Every action keeps it
  // ---------------------------------------------------------------------------

  lemma FinalsPush(fs: seq<Frame>, f: Frame)
    ensures Finals(fs + [f]) == Finals(fs) + if f.Ack? && f.num > 0 then [f.num] else []
  {
    assert (fs + [f])[..|fs|] == fs;
  }

  lemma {:induction false} FinalsPrefix(fs: seq<Frame>, k: nat)
    requires k <= |fs|
    ensures Finals(fs[..k]) <= Finals(fs)
    decreases |fs|
  {
    if k < |fs| {
      var front := fs[..|fs| - 1];
      FinalsPrefix(front, k);
      assert front[..k] == fs[..k];
    } else {
      assert fs[..k] == fs;
    }
  }

  /** Where a nonzero ack stands among them. */
  lemma FinalAt(fs: seq<Frame>, k: nat)
    requires k < |fs| && fs[k].Ack? && fs[k].num > 0
    ensures |Finals(fs[..k])| < |Finals(fs)| && Finals(fs)[|Finals(fs[..k])|] == fs[k].num
  {
    FinalsPush(fs[..k], fs[k]);
    assert fs[..k + 1] == fs[..k] + [fs[k]];
    FinalsPrefix(fs, k + 1);
  }

  lemma FinalsRise(fs: seq<Frame>, a: nat, b: nat)
    requires a < b <= |fs| && fs[a].Ack? && fs[a].num > 0
    ensures |Finals(fs[..a])| < |Finals(fs[..b])|
  {
    FinalAt(fs[..b], a);
    assert fs[..b][..a] == fs[..a];
  }

  lemma {:induction false} BacklogPush(calls: seq<Call>, c: Call)
    ensures Backlog(calls + [c]) == Backlog(calls) + c.fed
    decreases |calls|
  {
    if calls == [] {
      assert (calls + [c])[1..] == [];
    } else {
      BacklogPush(calls[1..], c);
      assert (calls + [c])[1..] == calls[1..] + [c];
    }
  }

  lemma BacklogAt(calls: seq<Call>, d: nat)
    requires d < |calls|
    ensures Backlog(calls[d..]) == calls[d].fed + Backlog(calls[d + 1..])
  {
    assert calls[d..][1..] == calls[d + 1..];
  }

  /** A frame that the server reads is the next of the order it has begun. */
  lemma FrameKept(p: Phase, o: Order, z: Zlib)
    requires SizedBatch(o.events, o.packed, z) && Midway(p, o, z) && AtRead(p)
    ensures var fs, k := BatchFrames(o.events, o.packed, z), FramesRead(p, o, z);
            && k < |fs| && Sized(fs[k], z)
            && var q := OnFrame(p, fs[k]);
               q.Collecting? && Midway(q, o, z) && FramesRead(q, o, z) == k + 1
  {
    hide EncodeAll, Encode;
    var all := EventFrames(o.events);
    assert all[0..] == all && o.events[..0] == [];
    if p.Collecting? {
      if o.packed {
        if p.prev > 0 {
          EncodeAllNonempty(all[p.prev..], z);
        }
        EncodeAllNonempty(all, z);
      } else {
        assert BatchFrames(o.events, o.packed, z)[p.prev + 1] == EventFrame(p.prev, o.events[p.prev]);
        assert o.events[..p.prev + 1] == o.events[..p.prev] + [o.events[p.prev]];
      }
    }
  }

  lemma EncodeAllNonempty(fs: seq<Frame>, z: Zlib)
    requires fs != []
    ensures EncodeAll(fs, z) != []
  {
  }

  /** A frame from an unpacked one is the order's next event, if it is within the server's limit. */
  lemma InnerKept(p: Phase, o: Order, max: nat, z: Zlib)
    requires Faithful(z) && SizedBatch(o.events, o.packed, z) && Midway(p, o, z) && !Filled(p)
    requires p.Collecting? && p.inner != []
    ensures var q := OnInner(p, max, z);
            && (q.Closed? || (q.Collecting? && Midway(q, o, z) && FramesRead(q, o, z) == FramesRead(p, o, z)))
            && (NoneAbove(o.events, max) ==> q.Collecting? && |q.inner| < |p.inner|)
  {
    hide EncodeAll, Encode, Faithful, Decode;
    var all := EventFrames(o.events);
    var f := all[p.prev];
    assert all[p.prev..][0] == f && all[p.prev..][1..] == all[p.prev + 1..];
    EncodeAllHead(all[p.prev..], z);
    DecodeEncoded(f, EncodeAll(all[p.prev + 1..], z), max, z);
    assert o.events[..p.prev + 1] == o.events[..p.prev] + [o.events[p.prev]];
  }

  lemma FilledKept(p: Phase, o: Order, z: Zlib)
    requires SizedBatch(o.events, o.packed, z) && Midway(p, o, z) && Filled(p)
    ensures OnFilled(p) == Dispatching(Expected(o))
    ensures FramesRead(p, o, z) == |BatchFrames(o.events, o.packed, z)|
  {
    hide EncodeAll;
    assert o.events[..|o.events|] == o.events;
  }

  /** What the server can decode: the next of the frames under way, unless that is over its limit. */
  lemma HeadArrives(inbuf: seq<byte>, behind: seq<byte>, fs: seq<Frame>, max: nat, z: Zlib)
    requires Faithful(z) && inbuf + behind == EncodeAll(fs, z) && (fs != [] ==> Sized(fs[0], z))
    ensures match Decode(inbuf, max, z)
            case NeedMore => fs == [] || behind != []
            case Bad(_, _) => fs != [] && !Fits(fs[0], max, z)
            case Got(f, rest) => fs != [] && f == fs[0] && rest + behind == EncodeAll(fs[1..], z) && Fits(fs[0], max, z)
  {
    hide Encode, EncodeAll, Decode, Faithful, Sized, Fits;
    if fs == [] {
      EncodeAllNone(z);
      assert inbuf == [];
      DecodeNothing(max, z);
    } else {
      EncodeAllHead(fs, z);
      DecodeOfHead(inbuf, behind, fs[0], EncodeAll(fs[1..], z), max, z);
      if behind == [] {
        DecodeEncoded(fs[0], EncodeAll(fs[1..], z), max, z);
        assert inbuf + behind == inbuf;
        HeadWhole(fs[0], EncodeAll(fs[1..], z), max, z);
      }
    }
  }

  lemma HeadWhole(f: Frame, tail: seq<byte>, max: nat, z: Zlib)
    requires Faithful(z) && Sized(f, z)
    ensures !Decode(Encode(f, z) + tail, max, z).NeedMore?
  {
    hide Encode, Decode, Faithful, Sized, Fits;
    DecodeEncoded(f, tail, max, z);
  }

  lemma ServeKept(s: Sys, cfg: Cfg)
    requires Faithful(cfg.z) && Inv(s, cfg.z)
    ensures Inv(ServeStep(s, cfg), cfg.z)
  {
    hide Decode, Encode, EncodeAll, Faithful, CallOk, ReceiptOk, OnFrame, OnInner, LastSeqs;
    ServeReads(s, cfg);
    hide ServerSide;
    var after := ServeStep(s, cfg);
    assert after.conn == s.conn.(phase := after.conn.phase) && Downstream(after) == Downstream(s);
    assert !after.conn.phase.AwaitAck? || after == s;
    ReceiptsKept(s, after);
  }

  /** Receipts stay good while the server goes on. */
  lemma ReceiptsKept(s: Sys, after: Sys)
    requires ReceiptSide(s) && s.conn.written <= after.conn.written && s.taken <= after.taken <= |after.conn.written|
    requires s.sent <= after.sent && after.receipts == s.receipts
    requires after.caller.Sending? || after.caller.Awaiting? ==>
               after.sent != [] && (|after.sent| > |s.sent| || s.caller.Sending? || s.caller.Awaiting?)
    ensures ReceiptSide(after)
  {
    forall i | 0 <= i < |s.receipts|
      ensures ReceiptOk(after, s.receipts[i])
    {
      assert ReceiptOk(s, s.receipts[i]);
      assert after.conn.written[..s.receipts[i].frame] == s.conn.written[..s.receipts[i].frame];
    }
  }

  lemma ServeReads(s: Sys, cfg: Cfg)
    requires Faithful(cfg.z) && InOrder(s, cfg.z) && ServerSide(s, cfg.z)
    ensures ServerSide(ServeStep(s, cfg), cfg.z)
    ensures s.conn.phase.Closed? || s.conn.phase.AwaitAck? || s.conn.phase.Dispatching? ==> ServeStep(s, cfg) == s
    ensures var q := ServeStep(s, cfg).conn.phase; q.AwaitAck? ==> s.conn.phase.AwaitAck?
    ensures var q := ServeStep(s, cfg).conn.phase; q.ExpectWindow? ==> s.conn.phase.ExpectWindow?
  {
    hide Decode, Encode, EncodeAll, Faithful, OnFrame, OnInner, Sized, Fits, SizedBatch, BatchFrames, Midway, FramesRead;
    var p, d, z := s.conn.phase, |s.conn.dispatched|, cfg.z;
    if d < |s.sent| && (p.Collecting? || p.ExpectWindow?) {
      var o := s.sent[d].order;
      assert CallOk(s.sent[d], z);
      if Filled(p) {
        FilledKept(p, o, z);
        DispatchingRead(o, z);
      } else if p.Collecting? && p.inner != [] {
        InnerKept(p, o, cfg.max, z);
      } else {
        ServeFrame(s, cfg);
      }
    } else if p.ExpectWindow? {
      assert s.inbuf + (s.up + s.outbox) == Upstream(s);
      HeadArrives(s.inbuf, s.up + s.outbox, [], cfg.max, z);
    }
  }

  lemma DispatchingRead(o: Order, z: Zlib)
    ensures Midway(Dispatching(Expected(o)), o, z)
    ensures FramesRead(Dispatching(Expected(o)), o, z) == |BatchFrames(o.events, o.packed, z)|
  {
  }

  lemma ServeFrame(s: Sys, cfg: Cfg)
    requires Faithful(cfg.z) && InOrder(s, cfg.z) && ServerSide(s, cfg.z)
    requires AtRead(s.conn.phase) && |s.conn.dispatched| < |s.sent|
    ensures ServerSide(ServeStep(s, cfg), cfg.z)
    ensures var q, c, k := ServeStep(s, cfg).conn.phase, s.sent[|s.conn.dispatched|],
                           FramesRead(s.conn.phase, s.sent[|s.conn.dispatched|].order, cfg.z);
            || (q == s.conn.phase && ServeStep(s, cfg) == s) || q.Closed?
            || (q.Collecting? && k < |c.fed| && FramesRead(q, c.order, cfg.z) == k + 1 && Fits(c.fed[k], cfg.max, cfg.z))
    ensures var c := s.sent[|s.conn.dispatched|];
            && c.fed == BatchFrames(c.order.events, c.order.packed, cfg.z)
            && AllFit(c.fed, cfg.max, cfg.z) && s.up == [] && s.outbox == [] ==>
              ServeStep(s, cfg).conn.phase.Collecting? && |ServeStep(s, cfg).inbuf| < |s.inbuf|
  {
    hide Decode, Encode, EncodeAll, Faithful, OnFrame, Sized, Fits, SizedBatch, BatchFrames, Midway, FramesRead, Backlog;
    var p, d, z := s.conn.phase, |s.conn.dispatched|, cfg.z;
    var c, behind := s.sent[d], s.up + s.outbox;
    assert CallOk(c, z);
    UnreadAt(p, s.sent, d, z);
    var fs, k := Unread(p, s.sent, d, z), FramesRead(p, c.order, z);
    assert s.inbuf + behind == EncodeAll(fs, z);
    FrameKept(p, c.order, z);
    if k < |c.fed| {
      assert fs[0] == c.fed[k] == BatchFrames(c.order.events, c.order.packed, z)[k];
      HeadArrives(s.inbuf, behind, fs, cfg.max, z);
      ServeOne(s, cfg);
      assert fs[1..] == c.fed[k + 1..] + Backlog(s.sent[d + 1..]);
      if c.fed == BatchFrames(c.order.events, c.order.packed, z) && AllFit(c.fed, cfg.max, z) && behind == [] {
        assert Fits(c.fed[k], cfg.max, z);
      }
    } else if d + 1 < |s.sent| {
      assert CallOk(s.sent[d + 1], z);
      BacklogAt(s.sent, d + 1);
      WindowFirst(s.sent[d + 1], z);
      assert fs[0] == s.sent[d + 1].fed[0];
      HeadArrives(s.inbuf, behind, fs, cfg.max, z);
      ServeOne(s, cfg);
      WindowInside(p, fs[0]);
    } else {
      BacklogNone(s.sent[d + 1..]);
      HeadArrives(s.inbuf, behind, fs, cfg.max, z);
    }
  }

  lemma UnreadAt(p: Phase, calls: seq<Call>, d: nat, z: Zlib)
    requires d < |calls|
    ensures p.ExpectWindow? ==> Unread(p, calls, d, z) == Backlog(calls[d..]) && FramesRead(p, calls[d].order, z) == 0
    ensures p.ExpectWindow? ==> Midway(p, calls[d].order, z)
  {
    BacklogAt(calls, d);
    assert calls[d].fed[0..] == calls[d].fed;
  }

  lemma BacklogNone(calls: seq<Call>)
    requires calls == []
    ensures Backlog(calls) == []
  {
  }

  lemma WindowFirst(c: Call, z: Zlib)
    requires CallOk(c, z)
    ensures c.fed[0].Window? && Sized(c.fed[0], z)
  {
  }

  lemma WindowInside(p: Phase, f: Frame)
    requires p.Collecting? && f.Window?
    ensures OnFrame(p, f).Closed?
  {
  }

  lemma ServeOne(s: Sys, cfg: Cfg)
    requires AtRead(s.conn.phase)
    ensures ServeStep(s, cfg) == match Decode(s.inbuf, cfg.max, cfg.z)
                                 case NeedMore => s
                                 case Bad(e, _) => WithPhase(s, Closed(Failed(e)))
                                 case Got(f, rest) => WithPhase(s, OnFrame(s.conn.phase, f)).(inbuf := rest)
  {
  }

  lemma MovedJoins(src: seq<byte>, n: nat)
    ensures Moved(src, n).0 + Moved(src, n).1 == src
  {
  }

  lemma Rejoined(a: seq<byte>, b: seq<byte>, go: seq<byte>, stay: seq<byte>)
    requires go + stay == b
    ensures a + go + stay == a + b
  {
    assert a + go + stay == a + (go + stay);
  }

  /** Only the bytes' places and the caller's mind differ. */
  lemma SameStreamsKept(s: Sys, after: Sys, z: Zlib)
    requires Inv(s, z)
    requires Upstream(after) == Upstream(s) && Downstream(after) == Downstream(s)
    requires after.conn == s.conn && after.sent == s.sent && after.receipts == s.receipts
    requires after.consumed == s.consumed && after.taken == s.taken
    requires after.caller.Sending? || after.caller.Awaiting? ==> s.caller.Sending? || s.caller.Awaiting?
    ensures Inv(after, z)
  {
    hide EncodeAll, Midway, Unread, CallOk, ReceiptOk, FramesRead;
    ReceiptsKept(s, after);
  }

  /** An action that moves bytes along, or changes only what the caller does. */
  predicate OfClientOrWire(a: Action) {
    || a.Transmit? || a.Arrive? || a.PushReply? || a.AckArrive?
    || a.Flushed? || a.WriteError? || a.TimeOut? || a.StreamEnds? || a.Abandon? || a.Retry?
  }

  lemma TransportKept(s: Sys, a: Action, cfg: Cfg)
    requires Inv(s, cfg.z)
    requires OfClientOrWire(a)
    ensures Inv(Next(s, a, cfg), cfg.z)
  {
    TransportMoves(s, a, cfg);
    hide Inv, Next;
    SameStreamsKept(s, Next(s, a, cfg), cfg.z);
  }

  lemma TransportMoves(s: Sys, a: Action, cfg: Cfg)
    requires OfClientOrWire(a)
    ensures var after := Next(s, a, cfg);
            && Upstream(after) == Upstream(s) && Downstream(after) == Downstream(s)
            && after.conn == s.conn && after.sent == s.sent && after.receipts == s.receipts
            && after.consumed == s.consumed && after.taken == s.taken
            && (after.caller.Sending? || after.caller.Awaiting? ==> s.caller.Sending? || s.caller.Awaiting?)
  {
    hide Moved, Decode;
    match a {
      case Transmit(n) =>
        MovedJoins(s.outbox, n);
        Rejoined(s.inbuf + s.up, s.outbox, Moved(s.outbox, n).0, Moved(s.outbox, n).1);
        assert s.inbuf + (s.up + Moved(s.outbox, n).0) == s.inbuf + s.up + Moved(s.outbox, n).0;
      case Arrive(n) =>
        MovedJoins(s.up, n);
        Rejoined(s.inbuf, s.up, Moved(s.up, n).0, Moved(s.up, n).1);
      case PushReply(n) =>
        MovedJoins(s.reply, n);
        Rejoined(s.ackbuf + s.down, s.reply, Moved(s.reply, n).0, Moved(s.reply, n).1);
        assert s.ackbuf + (s.down + Moved(s.reply, n).0) == s.ackbuf + s.down + Moved(s.reply, n).0;
      case AckArrive(n) =>
        MovedJoins(s.down, n);
        Rejoined(s.ackbuf, s.down, Moved(s.down, n).0, Moved(s.down, n).1);
      case _ =>
    }
  }

  lemma SendKept(s: Sys, o: Order, upto: nat, error: Error, z: Zlib)
    requires Faithful(z) && Inv(s, z) && (o.events != [] ==> SizedBatch(o.events, o.packed, z))
    ensures Inv(SendStep(s, o, upto, error, z), z)
  {
    hide EncodeAll, SizedBatch, PlanOf, Faithful, BatchFrames, ServerSide, ReceiptOk, Finals;
    var after, fed := SendStep(s, o, upto, error, z), FedFrames(o, upto, z);
    ReceiptsKept(s, after);
    if s.caller.Idle? && o.events != [] && fed != [] {
      PlanIsPart(o.events, o.packed, z);
      assert CallOk(Call(o, fed), z);
      SendServer(s, after, Call(o, fed), z);
    } else {
      assert Upstream(after) == Upstream(s);
      SameServer(s, after, z);
    }
  }

  /** A new call's frames are under way behind those of the calls before it. */
  lemma SendServer(s: Sys, after: Sys, c: Call, z: Zlib)
    requires ServerSide(s, z) && after.conn == s.conn && after.consumed == s.consumed && after.sent == s.sent + [c]
    requires Upstream(after) == Upstream(s) + EncodeAll(c.fed, z)
    ensures ServerSide(after, z)
  {
    hide EncodeAll, Midway, Backlog, FramesRead;
    var p, d := s.conn.phase, |s.conn.dispatched|;
    BacklogPush(s.sent[d..], c);
    assert after.sent[d..] == s.sent[d..] + [c];
    EncodeAllAppend(Backlog(s.sent[d..]), c.fed, z);
    if d < |s.sent| && FramesRead(p, s.sent[d].order, z) <= |s.sent[d].fed| {
      BacklogPush(s.sent[d + 1..], c);
      assert after.sent[d + 1..] == s.sent[d + 1..] + [c];
      assert Unread(p, after.sent, d, z) == Unread(p, s.sent, d, z) + c.fed;
      EncodeAllAppend(Unread(p, s.sent, d, z), c.fed, z);
    }
  }

  /** Actions of the channel and the consumer, and failures of the server's side. */
  lemma ChannelKept(s: Sys, a: Action, cfg: Cfg)
    requires Inv(s, cfg.z)
    requires a.AdmitBatch? || a.RefuseBatch? || a.Consume? || a.ReadEnds? || a.WriteFails?
    ensures Inv(Next(s, a, cfg), cfg.z)
  {
    hide EncodeAll, CallOk, ReceiptOk, Backlog, Finals, BatchFrames;
    var after, d := Next(s, a, cfg), |s.conn.dispatched|;
    ReceiptsKept(s, after);
    if a.AdmitBatch? && s.conn.phase.Dispatching? {
      WholeRead(s.conn.phase, s.sent, d, cfg.z);
    }
  }

  lemma WholeRead(p: Phase, calls: seq<Call>, d: nat, z: Zlib)
    requires d < |calls| && CallOk(calls[d], z) && p.Dispatching?
    requires FramesRead(p, calls[d].order, z) <= |calls[d].fed|
    ensures Unread(p, calls, d, z) == Backlog(calls[d + 1..])
  {
    hide BatchFrames;
    var k := FramesRead(p, calls[d].order, z);
    assert calls[d].fed[k..] + Backlog(calls[d + 1..]) == Backlog(calls[d + 1..]);
  }

  lemma AnswerKept(s: Sys, a: Action, cfg: Cfg)
    requires Inv(s, cfg.z) && (a.KeepAlive? || a.FinalAck?)
    ensures Inv(Next(s, a, cfg), cfg.z)
  {
    hide Encode, EncodeAll, CallOk, ReceiptOk, Backlog, Finals;
    var after := Next(s, a, cfg);
    if after != s {
      var c := s.conn;
      var f := if a.KeepAlive? then Ack(0) else Ack(c.phase.last);
      assert after.conn.written == c.written + [f];
      assert after.conn.written[s.taken..] == c.written[s.taken..] + [f];
      assert Downstream(after) == Downstream(s) + Encode(f, cfg.z);
      AckWritten(c.written[s.taken..], f.num, cfg.z);
      FinalsPush(c.written, f);
      if a.FinalAck? {
        LastIsPositive(s, cfg.z);
      }
      ReceiptsKept(s, after);
    }
  }

  lemma LastIsPositive(s: Sys, z: Zlib)
    requires Inv(s, z) && s.conn.phase.AwaitAck?
    ensures s.conn.phase.last == LastSeqs(s.conn.dispatched)[|s.conn.dispatched| - 1] > 0
  {
    hide ReplySide, ReceiptSide, EncodeAll, BatchFrames, Backlog;
    assert CallOk(s.sent[|s.conn.dispatched| - 1], z);
  }

  /** What the client takes next is the next ack that was written. */
  lemma AckTaken(s: Sys, z: Zlib)
    requires Faithful(z) && Inv(s, z)
    ensures match Decode(s.ackbuf, DEFAULT_MAX_FRAME_SIZE, z)
            case NeedMore => s.taken == |s.conn.written| || s.down + s.reply != []
            case Bad(_, _) => false
            case Got(f, rest) =>
              && s.taken < |s.conn.written| && f == s.conn.written[s.taken] && f.Ack?
              && rest + (s.down + s.reply) == EncodeAll(s.conn.written[s.taken + 1..], z)
  {
    hide Encode, EncodeAll, Decode, Faithful, CallOk, ReceiptOk, Backlog, Finals, ServerSide, ReceiptSide;
    var fs := s.conn.written[s.taken..];
    assert s.ackbuf + (s.down + s.reply) == Downstream(s);
    HeadArrives(s.ackbuf, s.down + s.reply, fs, DEFAULT_MAX_FRAME_SIZE, z);
    if s.taken < |s.conn.written| {
      assert fs[1..] == s.conn.written[s.taken + 1..];
    }
  }

  predicate CanTake(s: Sys) {
    s.caller.Awaiting? && s.sent != [] && s.taken < |s.conn.written| && s.conn.written[s.taken].Ack?
  }

  /** The next ack is taken, and it may confirm the current call. */
  function Take(s: Sys, ackbuf: seq<byte>): Sys
    requires CanTake(s)
  {
    var next := s.(ackbuf := ackbuf, taken := s.taken + 1);
    if s.conn.written[s.taken].num < Count(s) then next
    else next.(caller := Idle, receipts := s.receipts + [Receipt(|s.sent| - 1, s.taken)])
  }

  /** What a poll comes to. */
  lemma PollMeans(s: Sys, z: Zlib)
    requires Faithful(z) && Inv(s, z)
    ensures var after := PollStep(s, z);
            || after == s
            || (&& CanTake(s) && after == Take(s, after.ackbuf)
                && Upstream(after) == Upstream(s) && Downstream(after) == EncodeAll(s.conn.written[s.taken + 1..], z))
  {
    hide Decode, Faithful, Inv, EncodeAll;
    AckTaken(s, z);
    var after := PollStep(s, z);
    assert Downstream(after) == after.ackbuf + (s.down + s.reply);
  }

  lemma PollKept(s: Sys, cfg: Cfg)
    requires Faithful(cfg.z) && Inv(s, cfg.z)
    ensures Inv(PollStep(s, cfg.z), cfg.z)
  {
    PollMeans(s, cfg.z);
    hide Faithful, PollStep, EncodeAll, InOrder, ServerSide, ReplySide, ReceiptSide, Upstream, Downstream, Count, Finals;
    var after := PollStep(s, cfg.z);
    if after != s {
      SameServer(s, after, cfg.z);
      AcksLeft(s, after, cfg.z);
      TakenKept(s, after.ackbuf, cfg.z);
    }
  }

  lemma SameServer(s: Sys, after: Sys, z: Zlib)
    requires InOrder(s, z) && ServerSide(s, z) && Upstream(after) == Upstream(s)
    requires after.conn == s.conn && after.sent == s.sent && after.consumed == s.consumed
    ensures InOrder(after, z) && ServerSide(after, z)
  {
    hide EncodeAll, CallOk, Midway, Unread, FramesRead, Backlog;
  }

  lemma AcksLeft(s: Sys, after: Sys, z: Zlib)
    requires ReplySide(s, z) && after.conn == s.conn && after.consumed == s.consumed
    requires after.taken <= |s.conn.written| && Downstream(after) == EncodeAll(s.conn.written[after.taken..], z)
    ensures ReplySide(after, z)
  {
    hide EncodeAll, Finals;
  }

  lemma TakenKept(s: Sys, ackbuf: seq<byte>, z: Zlib)
    requires Inv(s, z) && CanTake(s)
    ensures ReceiptSide(Take(s, ackbuf))
  {
    hide ServerSide, EncodeAll, BatchFrames, ReceiptOk, Finals, Midway;
    var after := Take(s, ackbuf);
    ReceiptsKept(s, s.(ackbuf := ackbuf, taken := s.taken + 1));
    if after.caller.Idle? {
      NewReceiptOk(s, after, z);
      forall i | 0 <= i < |s.receipts|
        ensures ReceiptOk(after, s.receipts[i]) && s.receipts[i].frame < s.taken
      {
        OldReceiptOk(s, after, s.receipts[i]);
      }
    }
  }

  lemma OldReceiptOk(s: Sys, after: Sys, r: Receipt)
    requires ReceiptOk(s, r) && after.conn == s.conn && after.sent == s.sent
    requires s.taken < after.taken <= |s.conn.written|
    ensures ReceiptOk(after, r) && r.frame < s.taken
  {
  }

  lemma NewReceiptOk(s: Sys, after: Sys, z: Zlib)
    requires Inv(s, z) && s.caller.Awaiting? && s.taken < |s.conn.written| && s.conn.written[s.taken].Ack?
    requires s.conn.written[s.taken].num >= Count(s)
    requires after.conn == s.conn && after.sent == s.sent && after.taken == s.taken + 1
    ensures ReceiptOk(after, Receipt(|s.sent| - 1, s.taken))
  {
    hide ServerSide, EncodeAll, BatchFrames, Finals;
    assert CallOk(s.sent[|s.sent| - 1], z);
    FinalAt(s.conn.written, s.taken);
  }

  lemma NextKept(s: Sys, a: Action, cfg: Cfg)
    requires Faithful(cfg.z) && Inv(s, cfg.z) && Disciplined(a, cfg.z)
    ensures Inv(Next(s, a, cfg), cfg.z)
  {
    hide Inv, Faithful;
    match a
    case Send(o, upto, error) => SendKept(s, o, upto, error, cfg.z);
    case Serve => ServeKept(s, cfg);
    case Poll => PollKept(s, cfg);
    case KeepAlive => AnswerKept(s, a, cfg);
    case FinalAck => AnswerKept(s, a, cfg);
    case AdmitBatch => ChannelKept(s, a, cfg);
    case RefuseBatch => ChannelKept(s, a, cfg);
    case Consume => ChannelKept(s, a, cfg);
    case ReadEnds(_) => ChannelKept(s, a, cfg);
    case WriteFails(_) => ChannelKept(s, a, cfg);
    case _ => TransportKept(s, a, cfg);
  }

  lemma StartKept(z: Zlib)
    ensures Inv(START, z)
  {
  }

  ghost predicate AllDisciplined(actions: seq<Action>, z: Zlib) {
    forall a :: a in actions ==> Disciplined(a, z)
  }

  lemma {:induction false} RunKept(s: Sys, actions: seq<Action>, cfg: Cfg)
    requires Faithful(cfg.z) && Inv(s, cfg.z) && AllDisciplined(actions, cfg.z)
    ensures Inv(Run(s, actions, cfg), cfg.z)
    decreases |actions|
  {
    hide Inv, Faithful, Disciplined, Next;
    if actions != [] {
      NextKept(s, actions[0], cfg);
      RunKept(Next(s, actions[0], cfg), actions[1..], cfg);
    }
  }

  // ---------------------------------------------------------------------------
  // Session safety
  // ---------------------------------------------------------------------------

  /** The k-th call that returned Ok was the k-th call and took the k-th batch's ack, which is no keepalive; that
      batch held exactly its events, and the consumer had given the batch up; and no batch, confirmed or not, is
      anything but the next call's. */
  ghost predicate Safe(s: Sys) {
    && |s.receipts| <= s.consumed <= |s.conn.dispatched| <= |s.sent|
    && (forall k :: 0 <= k < |s.receipts| ==>
          && s.receipts[k].call == k && s.receipts[k].frame < |s.conn.written|
          && BatchOfAck(s.conn, s.receipts[k].frame) == k
          && s.conn.written[s.receipts[k].frame] == Ack(s.conn.dispatched[k].lastSeq)
          && s.conn.dispatched[k].lastSeq > 0
          && s.conn.dispatched[k].events == s.sent[k].order.events)
    && (forall k :: 0 <= k < |s.conn.dispatched| ==>
          && s.conn.dispatched[k].events == s.sent[k].order.events
          && s.conn.dispatched[k].lastSeq == |s.sent[k].order.events|)
  }

  /** What a caller that stops at its first error keeps besides: it is behind by at most the current call. */
  ghost predicate Punctual(s: Sys) {
    && |s.receipts| <= |s.sent| <= |s.receipts| + 1
    && (s.caller.Idle? ==> |s.sent| == |s.receipts|)
    && (s.caller.Sending? || s.caller.Awaiting? ==> |s.sent| == |s.receipts| + 1)
    && s.taken <= |s.conn.written| && BatchOfAck(s.conn, s.taken) == |s.receipts|
    && forall k :: 0 <= k < |s.receipts| ==>
         && s.receipts[k].call == k && s.receipts[k].frame < s.taken && BatchOfAck(s.conn, s.receipts[k].frame) == k
  }

  lemma PunctualGrows(s: Sys, after: Sys)
    requires Punctual(s) && s.conn.written <= after.conn.written && after.taken == s.taken
    requires after.receipts == s.receipts
    requires after.sent == s.sent || (s.caller.Idle? && |after.sent| == |s.sent| + 1)
    requires after.caller.Idle? ==> s.caller.Idle? && after.sent == s.sent
    requires after.caller.Sending? || after.caller.Awaiting? ==>
               |after.sent| > |s.sent| || s.caller.Sending? || s.caller.Awaiting?
    ensures Punctual(after)
  {
    hide Finals;
    assert after.conn.written[..s.taken] == s.conn.written[..s.taken];
    forall k | 0 <= k < |s.receipts|
      ensures after.conn.written[..s.receipts[k].frame] == s.conn.written[..s.receipts[k].frame]
    {
    }
  }

  lemma PollPunctual(s: Sys, cfg: Cfg)
    requires Faithful(cfg.z) && Inv(s, cfg.z) && Punctual(s)
    ensures Punctual(PollStep(s, cfg.z))
  {
    PollMeans(s, cfg.z);
    hide Faithful, PollStep, Inv, Finals, EncodeAll, Punctual;
    if PollStep(s, cfg.z) != s {
      NextFinal(s, cfg.z);
      TakenPunctual(s, PollStep(s, cfg.z).ackbuf);
    }
  }

  lemma TakenPunctual(s: Sys, ackbuf: seq<byte>)
    requires Punctual(s) && CanTake(s)
    requires s.conn.written[s.taken].num == 0 || s.conn.written[s.taken].num == Count(s)
    requires Count(s) > 0
    ensures Punctual(Take(s, ackbuf))
  {
    hide Finals;
    var written := s.conn.written;
    assert written[..s.taken + 1] == written[..s.taken] + [written[s.taken]];
    FinalsPush(written[..s.taken], written[s.taken]);
  }

  /** To such a caller, the next nonzero ack is the current call's. */
  lemma NextFinal(s: Sys, z: Zlib)
    requires Inv(s, z) && Punctual(s) && s.caller.Awaiting? && s.taken < |s.conn.written| && s.conn.written[s.taken].Ack?
    ensures s.conn.written[s.taken].num == 0 || s.conn.written[s.taken].num == Count(s)
    ensures Count(s) > 0
  {
    hide ServerSide, ReceiptSide, EncodeAll, BatchFrames, Finals;
    assert CallOk(s.sent[|s.sent| - 1], z);
    if s.conn.written[s.taken].num > 0 {
      FinalAt(s.conn.written, s.taken);
    }
  }

  lemma NextPunctual(s: Sys, a: Action, cfg: Cfg)
    requires Faithful(cfg.z) && Inv(s, cfg.z) && Punctual(s) && !a.Retry?
    ensures Punctual(Next(s, a, cfg))
  {
    hide Faithful, Inv, Punctual, Decode, Encode, EncodeAll, Moved, FedFrames, OnFrame, OnInner, PollStep;
    if a.Poll? {
      PollPunctual(s, cfg);
    } else {
      PunctualGrows(s, Next(s, a, cfg));
    }
  }

  lemma {:induction false} RunPunctual(s: Sys, actions: seq<Action>, cfg: Cfg)
    requires Faithful(cfg.z) && Inv(s, cfg.z) && Punctual(s) && Allowed(actions, false, cfg.z)
    ensures Inv(Run(s, actions, cfg), cfg.z) && Punctual(Run(s, actions, cfg))
    decreases |actions|
  {
    hide Inv, Faithful, Disciplined, Next, Punctual;
    if actions != [] {
      assert actions[0] in actions;
      NextKept(s, actions[0], cfg);
      NextPunctual(s, actions[0], cfg);
      RunPunctual(Next(s, actions[0], cfg), actions[1..], cfg);
    }
  }

  /** The calls are within the 32-bit sizes; without `retries`, the caller stops at its first error. */
  ghost predicate Allowed(actions: seq<Action>, retries: bool, z: Zlib) {
    AllDisciplined(actions, z) && (!retries ==> forall a :: a in actions ==> !a.Retry?)
  }

  lemma StartPunctual()
    ensures Punctual(START)
  {
  }

  lemma SessionSafety(actions: seq<Action>, cfg: Cfg)
    requires Faithful(cfg.z) && Allowed(actions, false, cfg.z)
    ensures Safe(Run(START, actions, cfg))
  {
    StartKept(cfg.z);
    StartPunctual();
    RunPunctual(START, actions, cfg);
    hide Run, Faithful;
    PunctualIsSafe(Run(START, actions, cfg), cfg.z);
  }

  lemma PunctualIsSafe(s: Sys, z: Zlib)
    requires Inv(s, z) && Punctual(s)
    ensures Safe(s)
  {
    hide Finals, ServerSide, EncodeAll, BatchFrames, ReceiptOk, ReceiptFound;
    FinalsPrefix(s.conn.written, s.taken);
    forall k | 0 <= k < |s.conn.dispatched|
      ensures s.conn.dispatched[k].lastSeq == |s.sent[k].order.events|
    {
      assert CallOk(s.sent[k], z);
    }
    forall k | 0 <= k < |s.receipts|
      ensures s.conn.written[s.receipts[k].frame] == Ack(s.conn.dispatched[k].lastSeq) && s.conn.dispatched[k].lastSeq > 0
    {
      ReceiptMeans(s, s.receipts[k], z);
      FoundAck(s, s.receipts[k]);
    }
  }

  lemma FoundAck(s: Sys, r: Receipt)
    requires ReceiptFound(s, r)
    ensures var batch := BatchOfAck(s.conn, r.frame);
            && batch < |s.conn.dispatched|
            && s.conn.written[r.frame] == Ack(s.conn.dispatched[batch].lastSeq) && s.conn.dispatched[batch].lastSeq > 0
  {
  }

  /** A call that returned Ok took the ack, and no keepalive, of a batch that was consumed, its own or an earlier
      one of at least as many events; no ack confirms two calls; and the batches are those of the first calls, in order. */
  ghost predicate LargeEnough(s: Sys) {
    && |s.conn.dispatched| <= |s.sent|
    && (forall k :: 0 <= k < |s.conn.dispatched| ==> s.conn.dispatched[k].events == s.sent[k].order.events)
    && (forall i :: 0 <= i < |s.receipts| ==> ReceiptFound(s, s.receipts[i]))
    && (forall i, j :: 0 <= i < j < |s.receipts| ==>
          && s.receipts[i].call < s.receipts[j].call
          && BatchOfAck(s.conn, s.receipts[i].frame) < BatchOfAck(s.conn, s.receipts[j].frame))
  }

  ghost predicate ReceiptFound(s: Sys, r: Receipt) {
    && r.frame < |s.conn.written| && BatchOfAck(s.conn, r.frame) <= r.call < |s.sent|
    && var batch := BatchOfAck(s.conn, r.frame);
       && batch < s.consumed <= |s.conn.dispatched|
       && s.conn.written[r.frame] == Ack(s.conn.dispatched[batch].lastSeq) && s.conn.dispatched[batch].lastSeq > 0
       && |s.conn.dispatched[batch].events| >= |s.sent[r.call].order.events|
  }

  /** Callers that go on after their errors. */
  lemma RetriesKeepAcksLargeEnough(actions: seq<Action>, cfg: Cfg)
    requires Faithful(cfg.z) && Allowed(actions, true, cfg.z)
    ensures LargeEnough(Run(START, actions, cfg))
  {
    StartKept(cfg.z);
    RunKept(START, actions, cfg);
    hide Run, Faithful;
    InvMeans(Run(START, actions, cfg), cfg.z);
  }

  lemma InvMeans(s: Sys, z: Zlib)
    requires Inv(s, z)
    ensures LargeEnough(s)
  {
    hide ServerSide, ReplySide, ReceiptOk, ReceiptFound, Finals;
    forall i | 0 <= i < |s.receipts|
      ensures ReceiptFound(s, s.receipts[i]) && s.receipts[i].frame < |s.conn.written|
    {
      ReceiptMeans(s, s.receipts[i], z);
    }
    forall i, j | 0 <= i < j < |s.receipts|
      ensures BatchOfAck(s.conn, s.receipts[i].frame) < BatchOfAck(s.conn, s.receipts[j].frame)
    {
      ReceiptsRise(s, s.receipts[i], s.receipts[j]);
    }
  }

  lemma ReceiptsRise(s: Sys, r: Receipt, q: Receipt)
    requires ReceiptOk(s, r) && ReceiptOk(s, q) && r.frame < q.frame
    ensures BatchOfAck(s.conn, r.frame) < BatchOfAck(s.conn, q.frame)
  {
    FinalsRise(s.conn.written, r.frame, q.frame);
  }

  lemma ReceiptMeans(s: Sys, r: Receipt, z: Zlib)
    requires Inv(s, z) && ReceiptOk(s, r)
    ensures ReceiptFound(s, r) && r.frame < |s.conn.written|
  {
    hide Finals, ServerSide, EncodeAll, BatchFrames;
    FinalAt(s.conn.written, r.frame);
    assert CallOk(s.sent[BatchOfAck(s.conn, r.frame)], z);
  }
}
