/** Many connections on one bounded channel: the accept loop, the consumer and the gauge. */
module Cluster {
  import opened Bytes
  import opened Frames
  import opened Codec
  import opened Connection
  import opened ConnectionLaws

  /** Batch `k` of connection `id`. */
  datatype Token = Token(id: nat, k: nat)

  /** A connection, how many of its batches were given up, and whether its handler still runs. */
  datatype Handler = Handler(conn: Conn, consumed: nat, live: bool)

  datatype Hub = Hub(
    handlers: seq<Handler>,
    queue: seq<Token>,       // in the channel
    held: set<Token>,        // with the consumer
    admitted: seq<Token>,    // everything the channel ever took, in order
    taken: seq<Token>,       // everything the consumer ever received, in order
    active: int,             // the gauge
    accepting: bool,         // the accept loop runs
    receiving: bool)         // the server's receiver exists

  const BEGIN: Hub := Hub([], [], {}, [], [], 0, true, true)

  datatype Action =
    | AcceptConnection
    | AcceptLoopEnds
    | Decoded(id: nat, f: Frame)
    | InputEnds(id: nat, end: Ending)
    | Unpack(id: nat)
    | WindowFull(id: nat)
    | AdmitBatch(id: nat)
    | RefuseBatch(id: nat)
    | Receive
    | Consume(t: Token)
    | KeepAlive(id: nat, fate: Option<Error>)
    | FinalAck(id: nat, fate: Option<Error>)
    | HandlerReturns(id: nat)
    | DropServer

  function Update(s: Hub, id: nat, c: Conn): Hub
    requires id < |s.handlers|
  {
    s.(handlers := s.handlers[id := s.handlers[id].(conn := c)])
  }

  function Move(s: Hub, id: nat, p: Phase): Hub
    requires id < |s.handlers|
  {
    Update(s, id, s.handlers[id].conn.(phase := p))
  }

  function GiveUp(handlers: seq<Handler>, t: Token): seq<Handler> {
    if t.id < |handlers| then handlers[t.id := handlers[t.id].(consumed := handlers[t.id].consumed + 1)] else handlers
  }

  /** Dropping the receiver drops the batches in the channel, and each drop acks. */
  function GiveUpAll(handlers: seq<Handler>, ts: seq<Token>): seq<Handler>
    decreases |ts|
  {
    if ts == [] then handlers else GiveUpAll(GiveUp(handlers, ts[0]), ts[1..])
  }

  /** The connection's own step, with no effect on the channel. */
  function OwnPhase(p: Phase, a: Action, cfg: Cfg): Phase {
    match a
    case Decoded(_, f) => if AtRead(p) then OnFrame(p, f) else p
    case InputEnds(_, end) => if AtRead(p) then OnEnd(p, end) else p
    case Unpack(_) => if p.Collecting? && !Filled(p) && p.inner != [] then OnInner(p, cfg.max, cfg.z) else p
    case WindowFull(_) => if Filled(p) then OnFilled(p) else p
    case _ => p
  }

  /** There is a batch to send, a receiver, and room in the channel. */
  predicate CanAdmit(s: Hub, id: nat, capacity: nat) {
    id < |s.handlers| && s.handlers[id].conn.phase.Dispatching? && s.receiving && |s.queue| < capacity
  }

  /** An action that is not enabled changes nothing. */
  function Next(s: Hub, a: Action, capacity: nat, cfg: Cfg): Hub {
    match a
    case AcceptConnection =>
      if s.accepting then s.(handlers := s.handlers + [Handler(FRESH, 0, true)], active := s.active + 1) else s
    case AcceptLoopEnds => s.(accepting := false)
    case Decoded(id, _) => if id < |s.handlers| then Move(s, id, OwnPhase(s.handlers[id].conn.phase, a, cfg)) else s
    case InputEnds(id, _) => if id < |s.handlers| then Move(s, id, OwnPhase(s.handlers[id].conn.phase, a, cfg)) else s
    case Unpack(id) => if id < |s.handlers| then Move(s, id, OwnPhase(s.handlers[id].conn.phase, a, cfg)) else s
    case WindowFull(id) => if id < |s.handlers| then Move(s, id, OwnPhase(s.handlers[id].conn.phase, a, cfg)) else s
    case AdmitBatch(id) =>
      if CanAdmit(s, id, capacity) then
        var t := Token(id, |s.handlers[id].conn.dispatched|);
        Update(s, id, Admit(s.handlers[id].conn)).(queue := s.queue + [t], admitted := s.admitted + [t])
      else s
    case RefuseBatch(id) =>
      if id < |s.handlers| && s.handlers[id].conn.phase.Dispatching? && !s.receiving then
        Update(s, id, Refuse(s.handlers[id].conn))
      else s
    case Receive =>
      if s.receiving && s.queue != [] then
        s.(queue := s.queue[1..], held := s.held + {s.queue[0]}, taken := s.taken + [s.queue[0]])
      else s
    case Consume(t) => if t in s.held then s.(held := s.held - {t}, handlers := GiveUp(s.handlers, t)) else s
    case KeepAlive(id, fate) =>
      if id < |s.handlers| && s.handlers[id].conn.phase.AwaitAck? && cfg.keepalive then
        Update(s, id, Tick(s.handlers[id].conn, fate))
      else s
    case FinalAck(id, fate) =>
      if id < |s.handlers| && s.handlers[id].conn.phase.AwaitAck?
         && s.handlers[id].consumed == |s.handlers[id].conn.dispatched| then
        Update(s, id, Reply(s.handlers[id].conn, fate))
      else s
    case HandlerReturns(id) =>
      if id < |s.handlers| && s.handlers[id].conn.phase.Closed? && s.handlers[id].live then
        s.(handlers := s.handlers[id := s.handlers[id].(live := false)], active := s.active - 1)
      else s
    case DropServer => s.(receiving := false, queue := [], handlers := GiveUpAll(s.handlers, s.queue))
  }

  function Run(s: Hub, actions: seq<Action>, capacity: nat, cfg: Cfg): Hub
    decreases |actions|
  {
    if actions == [] then s else Run(Next(s, actions[0], capacity, cfg), actions[1..], capacity, cfg)
  }

  // ---------------------------------------------------------------------------
  // The invariant
  // ---------------------------------------------------------------------------

  function Live(handlers: seq<Handler>): nat {
    if handlers == [] then 0
    else Live(handlers[..|handlers| - 1]) + if handlers[|handlers| - 1].live then 1 else 0
  }

  /** The tokens of one connection, in order. */
  function OfId(ts: seq<Token>, id: nat): seq<nat> {
    if ts == [] then []
    else
      var n := |ts| - 1;
      OfId(ts[..n], id) + if ts[n].id == id then [ts[n].k] else []
  }

  function UpTo(n: nat): seq<nat> {
    seq(n, i requires 0 <= i => i)
  }

  ghost predicate Distinct(ts: seq<Token>) {
    forall i, j :: 0 <= i < j < |ts| ==> ts[i] != ts[j]
  }

  /** One connection: at most one batch is dispatched and not given up, and then it awaits its ack or is closed. */
  ghost predicate HandlerOk(h: Handler) {
    && h.consumed <= |h.conn.dispatched| <= h.consumed + 1
    && (h.consumed < |h.conn.dispatched| ==> h.conn.phase.AwaitAck? || h.conn.phase.Closed?)
    && (!h.live ==> h.conn.phase.Closed?)
    && Kept(h.conn)
  }

  /** The batch is dispatched and not given up. */
  ghost predicate Unconsumed(handlers: seq<Handler>, t: Token) {
    t.id < |handlers| && t.k == handlers[t.id].consumed < |handlers[t.id].conn.dispatched|
  }

  /** The batches not given up are those in the channel and with the consumer, each in one place. */
  ghost predicate Conserved(s: Hub) {
    && Distinct(s.queue)
    && (forall t :: t in s.queue ==> t !in s.held)
    && (forall t :: t in s.queue || t in s.held <==> Unconsumed(s.handlers, t))
  }

  /** The channel took every connection's batches in order, and hands out what it took in order. */
  ghost predicate Fifo(s: Hub) {
    && (forall id :: 0 <= id < |s.handlers| ==> OfId(s.admitted, id) == UpTo(|s.handlers[id].conn.dispatched|))
    && (forall t :: t in s.admitted ==> t.id < |s.handlers|)
    && (if s.receiving then s.admitted == s.taken + s.queue else s.taken <= s.admitted && s.queue == [])
  }

  ghost predicate Inv(s: Hub, capacity: nat) {
    && (forall i :: 0 <= i < |s.handlers| ==> HandlerOk(s.handlers[i]))
    && Conserved(s)
    && Fifo(s)
    && |s.queue| <= capacity
    && s.active == Live(s.handlers)
  }

  // ---------------------------------------------------------------------------
  // Every action keeps it
  // ---------------------------------------------------------------------------

  lemma {:induction false} LiveUpdate(handlers: seq<Handler>, id: nat, h: Handler)
    requires id < |handlers|
    ensures Live(handlers[id := h]) ==
            Live(handlers) - (if handlers[id].live then 1 else 0) + if h.live then 1 else 0
    decreases |handlers|
  {
    var n := |handlers| - 1;
    if id == n {
      assert handlers[id := h][..n] == handlers[..n];
    } else {
      LiveUpdate(handlers[..n], id, h);
      assert handlers[id := h][..n] == handlers[..n][id := h];
    }
  }

  lemma {:induction false} OfIdAppend(a: seq<Token>, b: seq<Token>, id: nat)
    ensures OfId(a + b, id) == OfId(a, id) + OfId(b, id)
    decreases |b|
  {
    if b == [] {
      assert a + b == a;
    } else {
      var n := |b| - 1;
      OfIdAppend(a, b[..n], id);
      assert (a + b)[..|a| + n] == a + b[..n];
    }
  }

  lemma {:induction false} OfIdAbsent(ts: seq<Token>, id: nat)
    requires forall t :: t in ts ==> t.id != id
    ensures OfId(ts, id) == []
    decreases |ts|
  {
    if ts != [] {
      OfIdAbsent(ts[..|ts| - 1], id);
    }
  }

  lemma OfIdOne(t: Token, id: nat)
    ensures OfId([t], id) == if t.id == id then [t.k] else []
  {
    assert [t][..0] == [];
  }

  /** A connection's own step changes nothing that the channel or the gauge can see. */
  lemma SameCountsKept(s: Hub, id: nat, c: Conn, capacity: nat)
    requires Inv(s, capacity) && id < |s.handlers|
    requires c.dispatched == s.handlers[id].conn.dispatched
    requires HandlerOk(s.handlers[id].(conn := c))
    ensures Inv(Update(s, id, c), capacity)
  {
    hide Kept, Distinct, Live;
    var after := Update(s, id, c);
    LiveUpdate(s.handlers, id, after.handlers[id]);
    assert forall t :: Unconsumed(s.handlers, t) <==> Unconsumed(after.handlers, t);
  }

  lemma OwnKept(s: Hub, id: nat, a: Action, capacity: nat, cfg: Cfg)
    requires Inv(s, capacity) && id < |s.handlers|
    ensures Inv(Move(s, id, OwnPhase(s.handlers[id].conn.phase, a, cfg)), capacity)
  {
    hide Kept, OnFrame, OnEnd, OnInner, OnFilled;
    var h := s.handlers[id];
    assert HandlerOk(h);
    var p, q := h.conn.phase, OwnPhase(s.handlers[id].conn.phase, a, cfg);
    if p == q {
      assert h.conn.(phase := p) == h.conn;
    } else {
      ReadingOf(h.conn);
      ReadingKeeps(p, q, cfg);
      PhaseKept(h.conn, q);
      OwnIsOpen(p, q);
    }
    SameCountsKept(s, id, h.conn.(phase := q), capacity);
  }

  lemma OwnIsOpen(p: Phase, q: Phase)
    requires p.ExpectWindow? || p.Collecting?
    ensures !p.AwaitAck? && !p.Closed?
  {
  }

  lemma AcceptInOrder(s: Hub, capacity: nat, cfg: Cfg)
    requires Inv(s, capacity)
    ensures Fifo(Next(s, AcceptConnection, capacity, cfg))
  {
    hide HandlerOk, Conserved, Live, OfId;
    OfIdAbsent(s.admitted, |s.handlers|);
    assert UpTo(0) == [];
  }

  lemma AcceptKept(s: Hub, a: Action, capacity: nat, cfg: Cfg)
    requires Inv(s, capacity) && (a.AcceptConnection? || a.AcceptLoopEnds?)
    ensures Inv(Next(s, a, capacity, cfg), capacity)
  {
    if a.AcceptConnection? && s.accepting {
      AcceptInOrder(s, capacity, cfg);
      FreshKept();
      hide Kept, Distinct, Fifo;
      var after := Next(s, a, capacity, cfg);
      assert after.handlers[..|s.handlers|] == s.handlers;
      assert forall t :: Unconsumed(s.handlers, t) <==> Unconsumed(after.handlers, t);
    }
  }

  lemma AdmitConserves(s: Hub, id: nat, capacity: nat, cfg: Cfg)
    requires Inv(s, capacity) && CanAdmit(s, id, capacity)
    ensures Conserved(Next(s, AdmitBatch(id), capacity, cfg))
  {
    hide Kept, Fifo, Live;
    var after := Next(s, AdmitBatch(id), capacity, cfg);
    var t := Token(id, |s.handlers[id].conn.dispatched|);
    assert HandlerOk(s.handlers[id]);
    assert !Unconsumed(s.handlers, t);
    assert forall u :: Unconsumed(after.handlers, u) <==> Unconsumed(s.handlers, u) || u == t;
    assert forall u :: u in after.queue <==> u in s.queue || u == t;
  }

  lemma OneMoreInOrder(ts: seq<Token>, t: Token, id: nat)
    requires t.id == id ==> OfId(ts, id) == UpTo(t.k)
    ensures OfId(ts + [t], id) == if t.id == id then UpTo(t.k + 1) else OfId(ts, id)
  {
    hide OfId;
    OfIdAppend(ts, [t], id);
    OfIdOne(t, id);
    assert UpTo(t.k + 1) == UpTo(t.k) + [t.k];
    assert OfId(ts, id) + [] == OfId(ts, id);
  }

  lemma AdmitInOrder(s: Hub, id: nat, capacity: nat, cfg: Cfg)
    requires Inv(s, capacity) && CanAdmit(s, id, capacity)
    ensures Fifo(Next(s, AdmitBatch(id), capacity, cfg))
  {
    hide Kept, Live, HandlerOk, Conserved;
    var after := Next(s, AdmitBatch(id), capacity, cfg);
    var n := |s.handlers[id].conn.dispatched|;
    var t := Token(id, n);
    hide OfId, UpTo;
    forall i | 0 <= i < |after.handlers|
      ensures OfId(after.admitted, i) == UpTo(|after.handlers[i].conn.dispatched|)
    {
      assert OfId(s.admitted, i) == UpTo(|s.handlers[i].conn.dispatched|);
      OneMoreInOrder(s.admitted, t, i);
    }
    assert s.taken + (s.queue + [t]) == s.taken + s.queue + [t];
  }

  lemma AdmitBatchKept(s: Hub, id: nat, capacity: nat, cfg: Cfg)
    requires Inv(s, capacity)
    ensures Inv(Next(s, AdmitBatch(id), capacity, cfg), capacity)
  {
    if CanAdmit(s, id, capacity) {
      AdmitConserves(s, id, capacity, cfg);
      AdmitInOrder(s, id, capacity, cfg);
      AdmitOk(s.handlers[id]);
      hide HandlerOk, Live, Fifo, Conserved;
      var after := Next(s, AdmitBatch(id), capacity, cfg);
      LiveUpdate(s.handlers, id, after.handlers[id]);
    }
  }

  lemma AdmitOk(h: Handler)
    requires HandlerOk(h) && h.conn.phase.Dispatching?
    ensures HandlerOk(h.(conn := Admit(h.conn)))
  {
    hide Kept;
    AdmitKept(h.conn);
  }

  lemma ReceiveKept(s: Hub, capacity: nat, cfg: Cfg)
    requires Inv(s, capacity)
    ensures Inv(Next(s, Receive, capacity, cfg), capacity)
  {
    hide HandlerOk, Live, OfId, UpTo, Unconsumed;
    var after := Next(s, Receive, capacity, cfg);
    if after != s {
      assert s.queue == [s.queue[0]] + after.queue;
      assert after.taken + after.queue == s.taken + s.queue;
      assert forall t :: t in s.queue <==> t == s.queue[0] || t in after.queue;
    }
  }

  /** Giving a batch up makes its handler's count catch up. */
  lemma GiveUpCounts(handlers: seq<Handler>, t: Token)
    requires Unconsumed(handlers, t) && forall i :: 0 <= i < |handlers| ==> HandlerOk(handlers[i])
    ensures var after := GiveUp(handlers, t);
            && |after| == |handlers| && Live(after) == Live(handlers)
            && (forall i :: 0 <= i < |after| ==> HandlerOk(after[i]) && after[i].conn == handlers[i].conn)
            && (forall u :: Unconsumed(after, u) <==> Unconsumed(handlers, u) && u != t)
  {
    hide Kept, Live;
    var after := GiveUp(handlers, t);
    assert HandlerOk(handlers[t.id]);
    LiveUpdate(handlers, t.id, after[t.id]);
  }

  lemma ConsumeKept(s: Hub, t: Token, capacity: nat, cfg: Cfg)
    requires Inv(s, capacity)
    ensures Inv(Next(s, Consume(t), capacity, cfg), capacity)
  {
    hide HandlerOk, Live, GiveUp;
    if t in s.held {
      GiveUpCounts(s.handlers, t);
    }
  }

  lemma {:induction false} GiveUpAllCounts(handlers: seq<Handler>, ts: seq<Token>)
    requires Distinct(ts) && forall t :: t in ts ==> Unconsumed(handlers, t)
    requires forall i :: 0 <= i < |handlers| ==> HandlerOk(handlers[i])
    ensures var after := GiveUpAll(handlers, ts);
            && |after| == |handlers| && Live(after) == Live(handlers)
            && (forall i :: 0 <= i < |after| ==> HandlerOk(after[i]) && after[i].conn == handlers[i].conn)
            && (forall u :: Unconsumed(after, u) <==> Unconsumed(handlers, u) && u !in ts)
    decreases |ts|
  {
    hide HandlerOk, Live, GiveUp, Unconsumed;
    if ts != [] {
      GiveUpCounts(handlers, ts[0]);
      forall t | t in ts[1..]
        ensures Unconsumed(GiveUp(handlers, ts[0]), t)
      {
        var i :| 0 <= i < |ts[1..]| && ts[1..][i] == t;
        assert ts[i + 1] == t && ts[0] != ts[i + 1];
      }
      assert Distinct(ts[1..]);
      GiveUpAllCounts(GiveUp(handlers, ts[0]), ts[1..]);
      assert forall u :: u in ts <==> u == ts[0] || u in ts[1..];
    }
  }

  lemma DropServerKept(s: Hub, capacity: nat, cfg: Cfg)
    requires Inv(s, capacity)
    ensures Inv(Next(s, DropServer, capacity, cfg), capacity)
  {
    hide HandlerOk, Live, GiveUpAll, Unconsumed;
    GiveUpAllCounts(s.handlers, s.queue);
  }

  lemma AnswerKept(s: Hub, a: Action, capacity: nat, cfg: Cfg)
    requires Inv(s, capacity) && (a.KeepAlive? || a.FinalAck? || a.RefuseBatch?)
    ensures Inv(Next(s, a, capacity, cfg), capacity)
  {
    hide Kept, Conserved, Fifo, Live;
    var after := Next(s, a, capacity, cfg);
    if after != s {
      var h := s.handlers[a.id];
      assert HandlerOk(h);
      match a {
        case KeepAlive(id, fate) => TickKept(h.conn, fate);
        case FinalAck(id, fate) => ReplyKept(h.conn, fate);
        case RefuseBatch(id) => AdmitKept(h.conn);
      }
      SameCountsKept(s, a.id, after.handlers[a.id].conn, capacity);
    }
  }

  lemma HandlerReturnsKept(s: Hub, id: nat, capacity: nat, cfg: Cfg)
    requires Inv(s, capacity)
    ensures Inv(Next(s, HandlerReturns(id), capacity, cfg), capacity)
  {
    hide Kept, Distinct, OfId, UpTo, Live;
    var after := Next(s, HandlerReturns(id), capacity, cfg);
    if after != s {
      assert HandlerOk(s.handlers[id]);
      LiveUpdate(s.handlers, id, after.handlers[id]);
      assert forall t :: Unconsumed(s.handlers, t) <==> Unconsumed(after.handlers, t);
    }
  }

  lemma NextKept(s: Hub, a: Action, capacity: nat, cfg: Cfg)
    requires Inv(s, capacity)
    ensures Inv(Next(s, a, capacity, cfg), capacity)
  {
    hide Inv, OwnPhase, Move;
    match a
    case AcceptConnection => AcceptKept(s, a, capacity, cfg);
    case AcceptLoopEnds => AcceptKept(s, a, capacity, cfg);
    case AdmitBatch(id) => AdmitBatchKept(s, id, capacity, cfg);
    case Receive => ReceiveKept(s, capacity, cfg);
    case Consume(t) => ConsumeKept(s, t, capacity, cfg);
    case DropServer => DropServerKept(s, capacity, cfg);
    case HandlerReturns(id) => HandlerReturnsKept(s, id, capacity, cfg);
    case RefuseBatch(_) => AnswerKept(s, a, capacity, cfg);
    case KeepAlive(_, _) => AnswerKept(s, a, capacity, cfg);
    case FinalAck(_, _) => AnswerKept(s, a, capacity, cfg);
    case _ =>
      if a.id < |s.handlers| {
        OwnKept(s, a.id, a, capacity, cfg);
      }
  }

  lemma {:induction false} RunKept(s: Hub, actions: seq<Action>, capacity: nat, cfg: Cfg)
    requires Inv(s, capacity)
    ensures Inv(Run(s, actions, capacity, cfg), capacity)
    decreases |actions|
  {
    hide Inv, Next;
    if actions != [] {
      NextKept(s, actions[0], capacity, cfg);
      RunKept(Next(s, actions[0], capacity, cfg), actions[1..], capacity, cfg);
    }
  }

  lemma BeginKept(capacity: nat)
    ensures Inv(BEGIN, capacity)
  {
  }

  // ---------------------------------------------------------------------------
  // Main result
  // ---------------------------------------------------------------------------

  /** In every interleaving of any number of connections: the channel stays within its capacity; each
      connection has at most one batch dispatched and not given up, and that batch is in exactly one of the
      channel and the consumer's hands; the consumer receives each connection's batches in order, each once;
      and the gauge counts the handlers that have not returned. */
  lemma ClusterSafety(actions: seq<Action>, capacity: nat, cfg: Cfg)
    ensures var s := Run(BEGIN, actions, capacity, cfg);
            && |s.queue| <= capacity
            && s.active == Live(s.handlers)
            && (forall id :: 0 <= id < |s.handlers| ==>
                  var h := s.handlers[id];
                  var next := Token(id, h.consumed);
                  && h.consumed <= |h.conn.dispatched| <= h.consumed + 1
                  && (|h.conn.dispatched| == h.consumed + 1 <==> next in s.queue || next in s.held)
                  && !(next in s.queue && next in s.held)
                  && OfId(s.taken, id) <= UpTo(|h.conn.dispatched|)
                  && Kept(h.conn))
            && (forall t :: t in s.queue || t in s.held ==> t.id < |s.handlers| && t.k == s.handlers[t.id].consumed)
  {
    BeginKept(capacity);
    RunKept(BEGIN, actions, capacity, cfg);
    hide Run, Kept, Live, OfId, UpTo;
    var s := Run(BEGIN, actions, capacity, cfg);
    forall id | 0 <= id < |s.handlers|
      ensures OfId(s.taken, id) <= UpTo(|s.handlers[id].conn.dispatched|)
      ensures HandlerOk(s.handlers[id])
    {
      var untaken := s.admitted[|s.taken|..];
      assert s.admitted == s.taken + untaken;
      OfIdAppend(s.taken, untaken, id);
    }
    assert forall t :: t in s.queue || t in s.held <==> Unconsumed(s.handlers, t);
  }
}
