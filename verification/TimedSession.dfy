/** One wait of a session in discrete time: the bounds of `Keepalive` on the machines that carry the frames. */
module TimedSession {
  import opened Bytes
  import opened Frames
  import opened Connection
  import opened Client
  import opened Delivery
  import opened Session
  import opened SessionRuns
  import Keepalive

  datatype Timed = Timed(sys: Sys, clock: Keepalive.Clock)

  datatype TimedAction = Pass | Do(act: Action)

  /** The timers: a keepalive is sent when the interval has passed, and the wait is given up when the timeout has.
      The caller makes no other call. */
  predicate Enabled(c: Keepalive.Clock, a: Action, b: Keepalive.Bounds) {
    match a
    case KeepAlive => c.server.Holding? && c.server.since >= b.keepalive
    case TimeOut => c.caller.Waiting? && c.caller.idle >= b.timeout
    case _ => !a.Send? && !a.Retry?
  }

  /** What an action of the session is to the clock. */
  function Event(s: Sys, a: Action, next: Sys): Option<Keepalive.Action> {
    match a
    case Serve => if next.conn.phase.Dispatching? && !s.conn.phase.Dispatching? then Some(Keepalive.RequestArrives) else None
    case AdmitBatch => if s.conn.phase.Dispatching? then Some(Keepalive.Admitted) else None
    case KeepAlive => if next.conn != s.conn then Some(Keepalive.SendKeepalive) else None
    case FinalAck => if next.conn != s.conn then Some(Keepalive.Consume) else None
    case Poll => if next.taken > s.taken then Some(Keepalive.AckArrives) else None
    case TimeOut => if s.caller.Awaiting? then Some(Keepalive.Expire) else None
    case _ => None
  }

  function Advance(c: Keepalive.Clock, e: Option<Keepalive.Action>, b: Keepalive.Bounds): Keepalive.Clock {
    match e
    case None => c
    case Some(a) => Keepalive.Next(c, a, b)
  }

  /** Time passes unless something is due; nothing is due from a server that has closed. */
  function TimedNext(t: Timed, a: TimedAction, cfg: Cfg, b: Keepalive.Bounds): Timed {
    match a
    case Pass =>
      if t.sys.conn.phase.Closed? then t.(clock := Silence(t.clock))
      else t.(clock := Keepalive.Next(t.clock, Keepalive.Tick, b))
    case Do(act) =>
      if !Enabled(t.clock, act, b) then t
      else
        var next := Next(t.sys, act, cfg);
        Timed(next, Advance(t.clock, Event(t.sys, act, next), b))
  }

  function Silence(c: Keepalive.Clock): Keepalive.Clock {
    if c.caller.Waiting? then c.(caller := Keepalive.Waiting(c.caller.idle + 1)) else c
  }

  function TimedRun(t: Timed, actions: seq<TimedAction>, cfg: Cfg, b: Keepalive.Bounds): Timed
    decreases |actions|
  {
    if actions == [] then t else TimedRun(TimedNext(t, actions[0], cfg, b), actions[1..], cfg, b)
  }

  // ---------------------------------------------------------------------------
  // The clock tells where the session is
  // ---------------------------------------------------------------------------

  /** The server has at most the current call to answer, and the client has taken the acks of all others. */
  ghost predicate AtLastCall(s: Sys) {
    && s.sent != [] && |s.conn.dispatched| >= |s.sent| - 1
    && s.taken <= |s.conn.written| && BatchOfAck(s.conn, s.taken) >= |s.sent| - 1
  }

  ghost predicate ServerTold(s: Sys, c: Keepalive.Clock) {
    match s.conn.phase
    case Closed(_) => true
    case Dispatching(_) => c.server.Blocked?
    case AwaitAck(_) => c.server.Holding?
    case _ => if |s.conn.dispatched| < |s.sent| then c.server.Requested? else c.server.Replied?
  }

  ghost predicate AcksTold(s: Sys, c: Keepalive.Clock) {
    s.taken <= |s.conn.written| && Tell(c.acks, s.conn.written[s.taken..])
  }

  ghost predicate Tell(acks: seq<Keepalive.Flight>, fs: seq<Frame>) {
    && |acks| == |fs|
    && forall i :: 0 <= i < |acks| ==> fs[i].Ack? && (acks[i].final <==> fs[i].num > 0)
  }

  ghost predicate CallerTold(s: Sys, c: Keepalive.Clock) {
    && (s.caller.Awaiting? ==> c.caller.Waiting?)
    && (s.caller == Stopped(Some(Error.AckTimeout)) ==> c.caller.TimedOut?)
    && !s.caller.Sending?
  }

  ghost predicate Told(s: Sys, c: Keepalive.Clock) {
    AtLastCall(s) && ServerTold(s, c) && AcksTold(s, c) && CallerTold(s, c)
  }

  ghost predicate Coupled(t: Timed, z: Zlib) {
    Inv(t.sys, z) && Told(t.sys, t.clock)
  }

  /** Neither the connection nor the wait has changed. */
  lemma SameTold(s: Sys, after: Sys, c: Keepalive.Clock)
    requires Told(s, c) && after.conn == s.conn && after.sent == s.sent && after.taken == s.taken
    requires after.caller.Awaiting? ==> s.caller.Awaiting?
    requires after.caller == Stopped(Some(Error.AckTimeout)) ==> after.caller == s.caller
    requires !after.caller.Sending?
    ensures Told(after, c)
  {
    hide Finals;
  }

  lemma QuietTold(s: Sys, a: Action, c: Keepalive.Clock, cfg: Cfg)
    requires Told(s, c) && !a.TimeOut? && !a.Retry? && (a.Consume? || OfClientOrWire(a))
    ensures Told(Next(s, a, cfg), c)
  {
    hide Told, Decode, Moved;
    NotSending(s, c);
    SameTold(s, Next(s, a, cfg), c);
  }

  lemma NotSending(s: Sys, c: Keepalive.Clock)
    requires Told(s, c)
    ensures !s.caller.Sending?
  {
  }

  lemma TimeOutTold(s: Sys, c: Keepalive.Clock, cfg: Cfg, b: Keepalive.Bounds)
    requires Told(s, c) && Enabled(c, TimeOut, b)
    ensures Told(Next(s, TimeOut, cfg), Advance(c, Event(s, TimeOut, Next(s, TimeOut, cfg)), b))
  {
    hide Finals;
  }

  /** The server closes, or the action is not enabled. */
  lemma FailureTold(s: Sys, a: Action, c: Keepalive.Clock, cfg: Cfg)
    requires Told(s, c) && (a.RefuseBatch? || a.ReadEnds? || a.WriteFails?)
    ensures Told(Next(s, a, cfg), c)
  {
    hide Finals, Decode;
  }

  lemma PassTold(s: Sys, c: Keepalive.Clock, b: Keepalive.Bounds)
    requires Told(s, c)
    ensures Told(s, Keepalive.Next(c, Keepalive.Tick, b))
    ensures s.conn.phase.Closed? ==> Told(s, Silence(c))
  {
    hide Finals, Keepalive.Due;
    var after := Keepalive.Next(c, Keepalive.Tick, b);
    assert |after.acks| == |c.acks| && forall i :: 0 <= i < |c.acks| ==> after.acks[i].final == c.acks[i].final;
  }

  lemma ServeTold(s: Sys, c: Keepalive.Clock, cfg: Cfg, b: Keepalive.Bounds)
    requires Faithful(cfg.z) && Inv(s, cfg.z) && Told(s, c)
    ensures var next := ServeStep(s, cfg); Told(next, Advance(c, Event(s, Serve, next), b))
  {
    ServeKeeps(s, cfg);
    LastCallRead(s, cfg.z);
    hide *;
    var next := ServeStep(s, cfg);
    if next.conn.phase.Dispatching? && !s.conn.phase.Dispatching? {
      RequestTold(s, next, c, b);
    } else {
      StillTold(s, next, c);
      NothingServed(s, next, c, b);
    }
  }

  lemma RequestTold(s: Sys, after: Sys, c: Keepalive.Clock, b: Keepalive.Bounds)
    requires Told(s, c) && s.conn.phase.Collecting? && |s.conn.dispatched| < |s.sent|
    requires after == s.(inbuf := after.inbuf, conn := s.conn.(phase := after.conn.phase)) && after.conn.phase.Dispatching?
    ensures Told(after, Advance(c, Event(s, Serve, after), b))
  {
    hide Finals;
  }

  lemma StillTold(s: Sys, after: Sys, c: Keepalive.Clock)
    requires Told(s, c) && (s.conn.phase.Collecting? ==> |s.conn.dispatched| < |s.sent|)
    requires after == s.(inbuf := after.inbuf, conn := s.conn.(phase := after.conn.phase))
    requires || after == s || after.conn.phase.Closed?
             || (after.conn.phase.Collecting? && (s.conn.phase.Collecting? || s.conn.phase.ExpectWindow?))
    ensures Told(after, c)
  {
    hide Finals;
  }

  lemma NothingServed(s: Sys, after: Sys, c: Keepalive.Clock, b: Keepalive.Bounds)
    requires !after.conn.phase.Dispatching? || s.conn.phase.Dispatching?
    ensures Advance(c, Event(s, Serve, after), b) == c
  {
  }

  /** The server's reading changes its buffer and its phase, from one that reads. */
  lemma ServeKeeps(s: Sys, cfg: Cfg)
    ensures var p, next := s.conn.phase, ServeStep(s, cfg);
            && next == s.(inbuf := next.inbuf, conn := s.conn.(phase := next.conn.phase))
            && (|| next == s || next.conn.phase.Closed?
                || (next.conn.phase.Collecting? && (p.Collecting? || p.ExpectWindow?))
                || (next.conn.phase.Dispatching? && p.Collecting?))
  {
    hide Decode;
  }

  lemma LastCallRead(s: Sys, z: Zlib)
    requires Inv(s, z)
    ensures s.conn.phase.Collecting? || s.conn.phase.Dispatching? ==> |s.conn.dispatched| < |s.sent|
  {
    hide ReplySide, ReceiptSide, InOrder, Midway, Unread, EncodeAll;
  }

  lemma AdmitTold(s: Sys, c: Keepalive.Clock, cfg: Cfg, b: Keepalive.Bounds)
    requires Told(s, c)
    ensures var next := Next(s, AdmitBatch, cfg); Told(next, Advance(c, Event(s, AdmitBatch, next), b))
  {
    hide Finals;
  }

  /** An ack is written, a keepalive or the final one. */
  lemma WrittenTold(s: Sys, after: Sys, f: Frame, c: Keepalive.Clock, next: Keepalive.Clock)
    requires Told(s, c) && s.conn.phase.AwaitAck? && f.Ack?
    requires after.conn == Conn(after.conn.phase, s.conn.dispatched, s.conn.written + [f])
    requires after.sent == s.sent && after.taken == s.taken && after.caller == s.caller
    requires next == Keepalive.Clock(next.server, c.acks + [Keepalive.Flight(0, f.num > 0)], c.caller)
    requires ServerTold(after, next)
    ensures Told(after, next)
  {
    hide Finals, ServerTold;
    assert after.conn.written[..s.taken] == s.conn.written[..s.taken];
    assert after.conn.written[s.taken..] == s.conn.written[s.taken..] + [f];
  }

  lemma KeepAliveTold(s: Sys, c: Keepalive.Clock, cfg: Cfg, b: Keepalive.Bounds)
    requires Told(s, c) && Enabled(c, KeepAlive, b)
    ensures var next := Next(s, KeepAlive, cfg); Told(next, Advance(c, Event(s, KeepAlive, next), b))
  {
    hide AtLastCall, AcksTold, Encode;
    var next := Next(s, KeepAlive, cfg);
    if next.conn != s.conn {
      WrittenTold(s, next, Ack(0), c, Advance(c, Event(s, KeepAlive, next), b));
    } else {
      NotTicked(s.conn);
      assert next == s;
    }
  }

  lemma NotTicked(c: Conn)
    ensures Tick(c, None) != c
  {
    assert |c.written + [Ack(0)]| == |c.written| + 1;
  }

  lemma FinalAckTold(s: Sys, c: Keepalive.Clock, cfg: Cfg, b: Keepalive.Bounds)
    requires Inv(s, cfg.z) && Told(s, c)
    ensures var next := Next(s, FinalAck, cfg); Told(next, Advance(c, Event(s, FinalAck, next), b))
  {
    var next := Next(s, FinalAck, cfg);
    if next.conn != s.conn {
      LastIsPositive(s, cfg.z);
      Replied(s, cfg.z);
      hide Inv, AtLastCall, AcksTold, Encode;
      WrittenTold(s, next, Ack(s.conn.phase.last), c, Advance(c, Event(s, FinalAck, next), b));
    } else {
      hide Inv, AtLastCall, AcksTold, Encode;
    }
  }

  /** What is acked is the current call's batch. */
  lemma Replied(s: Sys, z: Zlib)
    requires Inv(s, z) && AtLastCall(s) && s.conn.phase.AwaitAck?
    ensures |s.conn.dispatched| == |s.sent|
  {
    hide ServerSide, ReceiptSide, EncodeAll, BatchFrames;
    FinalsPrefix(s.conn.written, s.taken);
  }

  lemma PollTold(s: Sys, c: Keepalive.Clock, cfg: Cfg, b: Keepalive.Bounds)
    requires Faithful(cfg.z) && Inv(s, cfg.z) && Told(s, c)
    ensures var next := PollStep(s, cfg.z); Told(next, Advance(c, Event(s, Poll, next), b))
  {
    PollTakes(s, cfg.z);
    hide *;
    var next := PollStep(s, cfg.z);
    if next == s {
      NoEvent(s, c, b);
    } else {
      LastCallsAck(s, c, cfg.z);
      Arrives(s, next, c, b);
      TakenTold(s, next, s.conn.written[s.taken], c, Keepalive.Next(c, Keepalive.AckArrives, b));
    }
  }

  lemma NoEvent(s: Sys, c: Keepalive.Clock, b: Keepalive.Bounds)
    ensures Advance(c, Event(s, Poll, s), b) == c
  {
  }

  lemma PollTakes(s: Sys, z: Zlib)
    requires Faithful(z) && Inv(s, z)
    ensures var next := PollStep(s, z);
            || next == s
            || (&& s.caller.Awaiting? && s.taken < |s.conn.written| && s.conn.written[s.taken].Ack? && s.sent != []
                && next.conn == s.conn && next.sent == s.sent && next.taken == s.taken + 1
                && next.caller == if s.conn.written[s.taken].num < Count(s) then Awaiting else Idle)
  {
    PollMeans(s, z);
  }

  lemma Arrives(s: Sys, after: Sys, c: Keepalive.Clock, b: Keepalive.Bounds)
    requires c.caller.Waiting? && c.acks != [] && after.taken == s.taken + 1
    ensures Event(s, Poll, after) == Some(Keepalive.AckArrives)
    ensures Advance(c, Some(Keepalive.AckArrives), b) == Keepalive.Next(c, Keepalive.AckArrives, b)
            == Keepalive.Clock(c.server, c.acks[1..],
                               if c.acks[0].final then Keepalive.Confirmed else Keepalive.Waiting(0))
  {
  }

  lemma TakenTold(s: Sys, after: Sys, f: Frame, c: Keepalive.Clock, next: Keepalive.Clock)
    requires Told(s, c) && s.caller.Awaiting? && s.taken < |s.conn.written| && s.conn.written[s.taken] == f
    requires after.conn == s.conn && after.sent == s.sent && after.taken == s.taken + 1
    requires after.caller == if f.Ack? && f.num == 0 then Awaiting else Idle
    requires f.Ack?
    requires c.acks != [] &&
             next == Keepalive.Clock(c.server, c.acks[1..],
                                     if c.acks[0].final then Keepalive.Confirmed else Keepalive.Waiting(0))
    ensures Told(after, next)
  {
    hide Finals;
    FinalsPrefix(s.conn.written[..s.taken + 1], s.taken);
    assert s.conn.written[..s.taken + 1][..s.taken] == s.conn.written[..s.taken];
    assert s.conn.written[s.taken..][1..] == s.conn.written[s.taken + 1..];
  }

  /** The next nonzero ack is the current call's. */
  lemma LastCallsAck(s: Sys, c: Keepalive.Clock, z: Zlib)
    requires Inv(s, z) && Told(s, c) && s.caller.Awaiting? && s.taken < |s.conn.written| && s.conn.written[s.taken].Ack?
    ensures s.conn.written[s.taken].num == 0 || s.conn.written[s.taken].num == Count(s)
    ensures s.sent != [] && Count(s) > 0 && c.caller.Waiting? && c.acks != []
  {
    hide ServerSide, ReceiptSide, EncodeAll, BatchFrames, Finals, ServerTold;
    assert CallOk(s.sent[|s.sent| - 1], z);
    if s.conn.written[s.taken].num > 0 {
      FinalAt(s.conn.written, s.taken);
    }
  }

  lemma TimedKept(t: Timed, a: TimedAction, cfg: Cfg, b: Keepalive.Bounds)
    requires Faithful(cfg.z) && Coupled(t, cfg.z)
    ensures Coupled(TimedNext(t, a, cfg, b), cfg.z)
  {
    hide Faithful, Inv, Told, Keepalive.Next, Disciplined;
    if a.Pass? {
      PassTold(t.sys, t.clock, b);
    } else if Enabled(t.clock, a.act, b) {
      DoKept(t.sys, a.act, t.clock, cfg, b);
    }
  }

  lemma DoKept(s: Sys, a: Action, c: Keepalive.Clock, cfg: Cfg, b: Keepalive.Bounds)
    requires Faithful(cfg.z) && Inv(s, cfg.z) && Told(s, c) && Enabled(c, a, b)
    ensures var next := Next(s, a, cfg); Inv(next, cfg.z) && Told(next, Advance(c, Event(s, a, next), b))
  {
    NextKept(s, a, cfg);
    hide Faithful, Inv, Told, Keepalive.Next;
    match a
    case Serve => ServeTold(s, c, cfg, b);
    case Poll => PollTold(s, c, cfg, b);
    case KeepAlive => KeepAliveTold(s, c, cfg, b);
    case FinalAck => FinalAckTold(s, c, cfg, b);
    case AdmitBatch => AdmitTold(s, c, cfg, b);
    case TimeOut => TimeOutTold(s, c, cfg, b);
    case RefuseBatch => FailureTold(s, a, c, cfg);
    case ReadEnds(_) => FailureTold(s, a, c, cfg);
    case WriteFails(_) => FailureTold(s, a, c, cfg);
    case _ => QuietTold(s, a, c, cfg);
  }

  /** While the server is open, the clock of a timed session runs as the clock does alone. */
  lemma TimedIsClock(t: Timed, a: TimedAction, cfg: Cfg, b: Keepalive.Bounds)
    requires Keepalive.Bounded(t.clock, b) && b.keepalive + b.blocked + 2 * b.delay < b.timeout
    ensures t.sys.conn.phase.Closed? ==> TimedNext(t, a, cfg, b).sys.conn.phase.Closed?
    ensures !t.sys.conn.phase.Closed? ==> Keepalive.Bounded(TimedNext(t, a, cfg, b).clock, b)
  {
    hide Keepalive.Bounded, Keepalive.Next, Event, Decode;
    if a.Pass? {
      Keepalive.NextBounded(t.clock, Keepalive.Tick, b);
    } else {
      var e := Event(t.sys, a.act, Next(t.sys, a.act, cfg));
      if e.Some? {
        Keepalive.NextBounded(t.clock, e.value, b);
      }
    }
  }

  lemma ClosedStays(t: Timed, a: TimedAction, cfg: Cfg, b: Keepalive.Bounds)
    requires t.sys.conn.phase.Closed?
    ensures TimedNext(t, a, cfg, b).sys.conn.phase.Closed?
  {
    hide Decode, Event;
  }

  lemma {:induction false} TimedRunKept(t: Timed, actions: seq<TimedAction>, cfg: Cfg, b: Keepalive.Bounds)
    requires Faithful(cfg.z) && Coupled(t, cfg.z)
    requires t.sys.conn.phase.Closed? || Keepalive.Bounded(t.clock, b)
    requires b.keepalive + b.blocked + 2 * b.delay < b.timeout
    ensures var after := TimedRun(t, actions, cfg, b);
            Coupled(after, cfg.z) && (after.sys.conn.phase.Closed? || Keepalive.Bounded(after.clock, b))
    decreases |actions|
  {
    hide Faithful, Coupled, Keepalive.Bounded, TimedNext;
    if actions != [] {
      TimedKept(t, actions[0], cfg, b);
      if t.sys.conn.phase.Closed? {
        ClosedStays(t, actions[0], cfg, b);
      } else {
        TimedIsClock(t, actions[0], cfg, b);
      }
      TimedRunKept(TimedNext(t, actions[0], cfg, b), actions[1..], cfg, b);
    }
  }

  /** Where the keepalive interval, the wait for room in the channel and two delays are below the ack timeout, no
      wait times out while the server's end is open, however long the consumer holds the batch. */
  lemma NoTimeoutInSession(t: Timed, actions: seq<TimedAction>, cfg: Cfg, b: Keepalive.Bounds)
    requires Faithful(cfg.z) && cfg.keepalive && Coupled(t, cfg.z) && Keepalive.Bounded(t.clock, b)
    requires b.keepalive + b.blocked + 2 * b.delay < b.timeout
    ensures var after := TimedRun(t, actions, cfg, b);
            after.sys.conn.phase.Closed? || after.sys.caller != Stopped(Some(Error.AckTimeout))
  {
    TimedRunKept(t, actions, cfg, b);
    hide TimedRun, Faithful, Inv, Finals;
  }

  // ---------------------------------------------------------------------------
  // The wait of any call
  // ---------------------------------------------------------------------------

  /** While the server reads, the last frame that it wrote is a final ack. */
  ghost predicate RoundsClosed(c: Conn) {
    !c.phase.AwaitAck? && !c.phase.Closed? && c.written != [] ==>
      c.written[|c.written| - 1].Ack? && c.written[|c.written| - 1].num > 0
  }

  lemma NextClosesRounds(s: Sys, a: Action, cfg: Cfg)
    requires Inv(s, cfg.z) && RoundsClosed(s.conn)
    ensures RoundsClosed(Next(s, a, cfg).conn)
  {
    if a.FinalAck? {
      FinalClosesRound(s, cfg);
    } else {
      hide Inv, RoundsClosed;
      SameWritten(s, a, cfg);
      SameRounds(s.conn, Next(s, a, cfg).conn);
    }
  }

  lemma SameWritten(s: Sys, a: Action, cfg: Cfg)
    requires !a.FinalAck?
    ensures var c, next := s.conn, Next(s, a, cfg).conn;
            || (c.phase.AwaitAck? && (next.phase.AwaitAck? || next.phase.Closed?))
            || (!c.phase.AwaitAck? && next.written == c.written && (c.phase.Closed? ==> next.phase.Closed?))
  {
    hide Decode, Encode, EncodeAll, OnFrame, OnInner, Moved, FedFrames;
  }

  lemma SameRounds(c: Conn, next: Conn)
    requires RoundsClosed(c)
    requires || (c.phase.AwaitAck? && (next.phase.AwaitAck? || next.phase.Closed?))
             || (!c.phase.AwaitAck? && next.written == c.written && (c.phase.Closed? ==> next.phase.Closed?))
    ensures RoundsClosed(next)
  {
  }

  lemma FinalClosesRound(s: Sys, cfg: Cfg)
    requires Inv(s, cfg.z) && RoundsClosed(s.conn)
    ensures RoundsClosed(Next(s, FinalAck, cfg).conn)
  {
    if s.conn.phase.AwaitAck? {
      LastIsPositive(s, cfg.z);
      hide Inv, Encode;
    } else {
      hide Inv;
    }
  }

  lemma {:induction false} RunClosesRounds(s: Sys, actions: seq<Action>, cfg: Cfg)
    requires Faithful(cfg.z) && Inv(s, cfg.z) && RoundsClosed(s.conn) && AllDisciplined(actions, cfg.z)
    ensures RoundsClosed(Run(s, actions, cfg).conn)
    decreases |actions|
  {
    hide Inv, Faithful, Disciplined, Next, RoundsClosed;
    if actions != [] {
      assert actions[0] in actions;
      NextKept(s, actions[0], cfg);
      NextClosesRounds(s, actions[0], cfg);
      RunClosesRounds(Next(s, actions[0], cfg), actions[1..], cfg);
    }
  }

  /** Between two calls of a session without errors nothing is under way. */
  lemma NothingUnderWay(s: Sys, z: Zlib)
    requires Inv(s, z) && Punctual(s) && s.caller.Idle? && RoundsClosed(s.conn) && !s.conn.phase.Closed?
    ensures s.conn.phase.ExpectWindow? && |s.conn.dispatched| == |s.sent| && s.taken == |s.conn.written|
    ensures BatchOfAck(s.conn, s.taken) == |s.sent|
  {
    hide Finals, EncodeAll, ReceiptSide, CallOk, Midway, Unread;
    var written := s.conn.written;
    FinalsPrefix(written, s.taken);
    if s.taken < |written| {
      assert written[..|written| - 1][..s.taken] == written[..s.taken];
      FinalsPrefix(written[..|written| - 1], s.taken);
      FinalAt(written, |written| - 1);
    }
  }

  /** The call's bytes are with the server, and its wait begins. */
  function Awaited(s: Sys, o: Order, z: Zlib): Timed {
    var made := Made(s, o, z);
    Timed(made.(caller := Awaiting, outbox := [], up := [], inbuf := Upstream(made)), Keepalive.BEGIN)
  }

  lemma AwaitedCoupled(before: seq<Action>, o: Order, cfg: Cfg)
    requires Faithful(cfg.z) && Allowed(before, false, cfg.z) && Deliverable(o, cfg.max, cfg.z)
    requires var s := Run(START, before, cfg); s.caller.Idle? && !s.conn.phase.Closed?
    ensures var t := Awaited(Run(START, before, cfg), o, cfg.z);
            && Coupled(t, cfg.z) && t.sys.conn.phase.ExpectWindow? && |t.sys.conn.dispatched| == |t.sys.sent| - 1
  {
    DeliverableFeeds(o, cfg);
    StartKept(cfg.z);
    StartPunctual();
    RunPunctual(START, before, cfg);
    hide Run, Faithful, Inv, Punctual, RoundsClosed, Deliverable, Feedable;
    NoRounds();
    RunClosesRounds(START, before, cfg);
    var s := Run(START, before, cfg);
    NothingUnderWay(s, cfg.z);
    MadeKept(s, o, cfg);
    var begin := Begun(s, o, cfg);
    WithinKept(Made(s, o, cfg.z), begin, cfg);
    NowTold(s, o, cfg.z);
  }

  lemma NoRounds()
    ensures RoundsClosed(START.conn)
  {
  }

  lemma NowTold(s: Sys, o: Order, z: Zlib)
    requires s.conn.phase.ExpectWindow? && |s.conn.dispatched| == |s.sent| && s.taken == |s.conn.written|
    requires BatchOfAck(s.conn, s.taken) == |s.sent|
    ensures Told(Awaited(s, o, z).sys, Awaited(s, o, z).clock)
  {
    hide Finals, EncodeAll, BatchFrames;
  }

  // ---------------------------------------------------------------------------
  // The slowest of them
  // ---------------------------------------------------------------------------

  lemma {:induction false} TimedAppend(t: Timed, one: seq<TimedAction>, two: seq<TimedAction>, cfg: Cfg, b: Keepalive.Bounds)
    ensures TimedRun(t, one + two, cfg, b) == TimedRun(TimedRun(t, one, cfg, b), two, cfg, b)
    decreases |one|
  {
    hide TimedNext;
    if one == [] {
      assert one + two == two;
    } else {
      TimedAppend(TimedNext(t, one[0], cfg, b), one[1..], two, cfg, b);
      assert (one + two)[1..] == one[1..] + two;
    }
  }

  /** One run is continued by another, which begins where it ends. */
  lemma Joined(t: Timed, before: seq<TimedAction>, middle: Timed, more: seq<TimedAction>, cfg: Cfg, b: Keepalive.Bounds)
    returns (actions: seq<TimedAction>)
    requires middle == TimedRun(t, before, cfg, b)
    ensures TimedRun(t, actions, cfg, b) == TimedRun(middle, more, cfg, b)
  {
    TimedAppend(t, before, more, cfg, b);
    actions := before + more;
  }

  lemma TimedOne(t: Timed, a: TimedAction, cfg: Cfg, b: Keepalive.Bounds)
    ensures TimedRun(t, [a], cfg, b) == TimedNext(t, a, cfg, b)
  {
    hide TimedNext;
    assert [a][1..] == [];
  }

  function Passes(n: nat): seq<TimedAction> {
    seq(n, _ => Pass)
  }

  lemma {:induction false} PassesAreTicks(t: Timed, n: nat, cfg: Cfg, b: Keepalive.Bounds)
    requires !t.sys.conn.phase.Closed?
    ensures TimedRun(t, Passes(n), cfg, b) == t.(clock := Keepalive.Run(t.clock, Keepalive.Ticks(n), b))
    decreases n
  {
    hide Keepalive.Next;
    if n > 0 {
      assert Keepalive.Ticks(n)[0] == Keepalive.Tick && Keepalive.Ticks(n)[1..] == Keepalive.Ticks(n - 1);
      assert Passes(n)[0] == Pass && Passes(n)[1..] == Passes(n - 1);
      PassesAreTicks(TimedNext(t, Pass, cfg, b), n - 1, cfg, b);
    }
  }

  /** The server reads the call in no time, and its window is full. */
  lemma {:induction false} ReadAtOnce(t: Timed, cfg: Cfg, b: Keepalive.Bounds) returns (actions: seq<TimedAction>)
    requires Faithful(cfg.z) && Inv(t.sys, cfg.z) && t.sys.up == [] && t.sys.outbox == []
    requires t.sys.conn.phase.ExpectWindow? || t.sys.conn.phase.Collecting?
    requires |t.sys.conn.dispatched| < |t.sys.sent| && Wholesome(t.sys.sent[|t.sys.conn.dispatched|], cfg)
    ensures Passed(actions) == 0
    ensures var after := TimedRun(t, actions, cfg, b);
            && after.sys == t.sys.(inbuf := after.sys.inbuf, conn := t.sys.conn.(phase := after.sys.conn.phase))
            && after.sys.conn.phase.Dispatching? && Inv(after.sys, cfg.z)
            && after.clock == Keepalive.Next(t.clock, Keepalive.RequestArrives, b)
    decreases |t.sys.inbuf|, Distance(t.sys)
  {
    ServeOneOnward(t, cfg, b);
    NextKept(t.sys, Serve, cfg);
    hide Faithful, Inv, Wholesome, Keepalive.Next, TimedNext, ServeStep;
    var next := TimedNext(t, Do(Serve), cfg, b);
    TimedOne(t, Do(Serve), cfg, b);
    if next.sys.conn.phase.Dispatching? {
      actions := [Do(Serve)];
    } else {
      var rest := ReadAtOnce(next, cfg, b);
      TimedAppend(t, [Do(Serve)], rest, cfg, b);
      PassedAppend([Do(Serve)], rest);
      actions := [Do(Serve)] + rest;
    }
  }

  lemma ServeOneOnward(t: Timed, cfg: Cfg, b: Keepalive.Bounds)
    requires Faithful(cfg.z) && Inv(t.sys, cfg.z) && t.sys.up == [] && t.sys.outbox == []
    requires t.sys.conn.phase.ExpectWindow? || t.sys.conn.phase.Collecting?
    requires |t.sys.conn.dispatched| < |t.sys.sent| && Wholesome(t.sys.sent[|t.sys.conn.dispatched|], cfg)
    ensures var next := TimedNext(t, Do(Serve), cfg, b);
            && next.sys == ServeStep(t.sys, cfg) == Next(t.sys, Serve, cfg)
            && next.sys == t.sys.(inbuf := next.sys.inbuf, conn := t.sys.conn.(phase := next.sys.conn.phase))
            && Closer(next.sys, t.sys)
            && if next.sys.conn.phase.Dispatching? then next.clock == Keepalive.Next(t.clock, Keepalive.RequestArrives, b)
               else next.sys.conn.phase.Collecting? && next.clock == t.clock
  {
    ServeOnward(t.sys, cfg);
    hide Faithful, Inv, ServeStep, Keepalive.Next, Wholesome, Distance;
  }

  /** A batch that waits for the channel is admitted; then it is consumed and its ack written. */
  lemma AdmittedNext(t: Timed, cfg: Cfg, b: Keepalive.Bounds)
    requires t.sys.conn.phase.Dispatching?
    ensures var next := TimedNext(t, Do(AdmitBatch), cfg, b);
            && next.sys.conn.phase.AwaitAck? && next.sys == t.sys.(conn := next.sys.conn)
            && next.clock == Keepalive.Next(t.clock, Keepalive.Admitted, b)
  {
    hide Keepalive.Next;
  }

  lemma AnsweredNext(t: Timed, cfg: Cfg, b: Keepalive.Bounds) returns (actions: seq<TimedAction>)
    requires t.sys.conn.phase.AwaitAck? && |t.sys.conn.dispatched| <= t.sys.consumed + 1
    requires t.sys.consumed <= |t.sys.conn.dispatched|
    ensures var after := TimedRun(t, actions, cfg, b);
            && after.sys.conn.phase.ExpectWindow? && after.sys.caller == t.sys.caller
            && after.clock == Keepalive.Next(t.clock, Keepalive.Consume, b)
  {
    hide Keepalive.Next, Encode;
    TimedOne(t, Do(Consume), cfg, b);
    var middle := TimedNext(t, Do(Consume), cfg, b);
    TimedOne(middle, Do(FinalAck), cfg, b);
    assert |t.sys.conn.written + [Ack(t.sys.conn.phase.last)]| > |t.sys.conn.written|;
    actions := Joined(t, [Do(Consume)], middle, [Do(FinalAck)], cfg, b);
  }

  lemma ConsumedSoFar(s: Sys, z: Zlib)
    requires Inv(s, z) && s.conn.phase.AwaitAck?
    ensures s.consumed <= |s.conn.dispatched| <= s.consumed + 1
  {
    hide ReplySide, ReceiptSide, EncodeAll, CallOk;
  }

  lemma Arrived(c: Keepalive.Clock, b: Keepalive.Bounds)
    requires c.server.Requested?
    ensures Keepalive.Next(c, Keepalive.RequestArrives, b) == c.(server := Keepalive.Blocked(0))
  {
  }

  /** Every delay in full, as far as the batch's wait for the channel. */
  lemma SlowlyRead(t: Timed, cfg: Cfg, b: Keepalive.Bounds) returns (actions: seq<TimedAction>)
    requires Faithful(cfg.z) && Inv(t.sys, cfg.z) && t.clock == Keepalive.BEGIN
    requires t.sys.conn.phase.ExpectWindow? && t.sys.up == [] && t.sys.outbox == []
    requires |t.sys.conn.dispatched| < |t.sys.sent| && Wholesome(t.sys.sent[|t.sys.conn.dispatched|], cfg)
    ensures var after := TimedRun(t, actions, cfg, b);
            && after.sys.conn.phase.Dispatching? && after.sys.caller == t.sys.caller && Inv(after.sys, cfg.z)
            && after.clock == Keepalive.Clock(Keepalive.Blocked(0), [], Keepalive.Waiting(b.delay))
  {
    Keepalive.TicksPass(Keepalive.BEGIN, b.delay, b);
    PassesAreTicks(t, b.delay, cfg, b);
    Arrived(Keepalive.Run(Keepalive.BEGIN, Keepalive.Ticks(b.delay), b), b);
    hide Faithful, Inv, Wholesome, TimedRun, Keepalive.Run, Keepalive.Next, TimedNext;
    var late := TimedRun(t, Passes(b.delay), cfg, b);
    var read := ReadAtOnce(late, cfg, b);
    actions := Joined(t, Passes(b.delay), late, read, cfg, b);
  }

  /** And as far as its admission. */
  lemma SlowlyAdmitted(t: Timed, cfg: Cfg, b: Keepalive.Bounds) returns (actions: seq<TimedAction>)
    requires Faithful(cfg.z) && Inv(t.sys, cfg.z) && t.clock == Keepalive.BEGIN
    requires t.sys.conn.phase.ExpectWindow? && t.sys.up == [] && t.sys.outbox == []
    requires |t.sys.conn.dispatched| < |t.sys.sent| && Wholesome(t.sys.sent[|t.sys.conn.dispatched|], cfg)
    ensures var after := TimedRun(t, actions, cfg, b);
            && after.sys.conn.phase.AwaitAck? && after.sys.caller == t.sys.caller && Inv(after.sys, cfg.z)
            && after.clock == Keepalive.Clock(Keepalive.Holding(0), [], Keepalive.Waiting(b.delay + b.blocked))
  {
    hide Faithful, Inv, Wholesome, TimedRun, Keepalive.Run, TimedNext;
    actions := SlowlyRead(t, cfg, b);
    var full := TimedRun(t, actions, cfg, b);
    Keepalive.TicksPass(full.clock, b.blocked, b);
    PassesAreTicks(full, b.blocked, cfg, b);
    actions := Joined(t, actions, full, Passes(b.blocked), cfg, b);
    var waited := TimedRun(t, actions, cfg, b);
    AdmittedNext(waited, cfg, b);
    TimedOne(waited, Do(AdmitBatch), cfg, b);
    AdmitDone(waited, cfg, b);
    actions := Joined(t, actions, waited, [Do(AdmitBatch)], cfg, b);
  }

  lemma AdmitDone(t: Timed, cfg: Cfg, b: Keepalive.Bounds)
    requires Faithful(cfg.z) && Inv(t.sys, cfg.z)
    ensures Inv(TimedNext(t, Do(AdmitBatch), cfg, b).sys, cfg.z)
  {
    hide Faithful, Inv, Next, Event, Advance;
    NextKept(t.sys, AdmitBatch, cfg);
  }

  /** With a longer silence possible than the timeout, some wait has it, and times out at an open server. */
  lemma SlowestWait(t: Timed, cfg: Cfg, b: Keepalive.Bounds) returns (actions: seq<TimedAction>)
    requires Faithful(cfg.z) && Inv(t.sys, cfg.z) && t.clock == Keepalive.BEGIN
    requires t.sys.conn.phase.ExpectWindow? && t.sys.up == [] && t.sys.outbox == [] && t.sys.caller.Awaiting?
    requires |t.sys.conn.dispatched| < |t.sys.sent| && Wholesome(t.sys.sent[|t.sys.conn.dispatched|], cfg)
    requires b.keepalive + b.blocked + 2 * b.delay >= b.timeout
    ensures var after := TimedRun(t, actions, cfg, b);
            !after.sys.conn.phase.Closed? && after.sys.caller == Stopped(Some(Error.AckTimeout))
  {
    hide Faithful, Inv, Wholesome, TimedRun, Keepalive.Run, TimedNext;
    actions := SlowlyAdmitted(t, cfg, b);
    var held := TimedRun(t, actions, cfg, b);
    Keepalive.TicksPass(held.clock, b.keepalive, b);
    PassesAreTicks(held, b.keepalive, cfg, b);
    actions := Joined(t, actions, held, Passes(b.keepalive), cfg, b);
    var kept := TimedRun(t, actions, cfg, b);
    ConsumedSoFar(kept.sys, cfg.z);
    var answer := AnsweredNext(kept, cfg, b);
    actions := Joined(t, actions, kept, answer, cfg, b);
    var answered := TimedRun(t, actions, cfg, b);
    Keepalive.TicksPass(answered.clock, b.delay, b);
    PassesAreTicks(answered, b.delay, cfg, b);
    actions := Joined(t, actions, answered, Passes(b.delay), cfg, b);
    var over := TimedRun(t, actions, cfg, b);
    TimedOne(over, Do(TimeOut), cfg, b);
    GivesUp(over, cfg, b);
    actions := Joined(t, actions, over, [Do(TimeOut)], cfg, b);
  }

  lemma GivesUp(t: Timed, cfg: Cfg, b: Keepalive.Bounds)
    requires t.sys.caller.Awaiting? && Enabled(t.clock, TimeOut, b)
    ensures TimedNext(t, Do(TimeOut), cfg, b).sys == t.sys.(caller := Stopped(Some(Error.AckTimeout)))
  {
  }

  /** For any call of a session without errors so far: no wait for it ends in an ack timeout while the server's
      end is open, if and only if the timeout exceeds the keepalive interval, the wait for the channel and two
      delays. */
  lemma SessionNoTimeoutIff(before: seq<Action>, o: Order, cfg: Cfg, b: Keepalive.Bounds)
    requires Faithful(cfg.z) && cfg.keepalive && Allowed(before, false, cfg.z) && Deliverable(o, cfg.max, cfg.z)
    requires var s := Run(START, before, cfg); s.caller.Idle? && !s.conn.phase.Closed?
    ensures var t := Awaited(Run(START, before, cfg), o, cfg.z);
            (forall actions :: var after := TimedRun(t, actions, cfg, b);
               after.sys.conn.phase.Closed? || after.sys.caller != Stopped(Some(Error.AckTimeout)))
            <==> b.keepalive + b.blocked + 2 * b.delay < b.timeout
  {
    AwaitedCoupled(before, o, cfg);
    hide Run, TimedRun, Faithful, Inv, Told;
    var t := Awaited(Run(START, before, cfg), o, cfg.z);
    if b.keepalive + b.blocked + 2 * b.delay < b.timeout {
      forall actions: seq<TimedAction>
        ensures var after := TimedRun(t, actions, cfg, b);
                after.sys.conn.phase.Closed? || after.sys.caller != Stopped(Some(Error.AckTimeout))
      {
        NoTimeoutInSession(t, actions, cfg, b);
      }
    } else {
      AwaitedWholesome(Run(START, before, cfg), o, cfg);
      var actions := SlowestWait(t, cfg, b);
      assert TimedRun(t, actions, cfg, b).sys.caller == Stopped(Some(Error.AckTimeout));
    }
  }

  lemma AwaitedWholesome(s: Sys, o: Order, cfg: Cfg)
    requires Deliverable(o, cfg.max, cfg.z)
    ensures var t := Awaited(s, o, cfg.z); Wholesome(t.sys.sent[|t.sys.sent| - 1], cfg)
  {
    hide Deliverable, BatchFrames;
  }

  // ---------------------------------------------------------------------------
  // A batch that is held for long
  // ---------------------------------------------------------------------------

  /** How much time passes. */
  function Passed(actions: seq<TimedAction>): nat {
    if actions == [] then 0 else (if actions[0].Pass? then 1 else 0) + Passed(actions[1..])
  }

  lemma {:induction false} PassedAppend(one: seq<TimedAction>, two: seq<TimedAction>)
    ensures Passed(one + two) == Passed(one) + Passed(two)
    decreases |one|
  {
    if one == [] {
      assert one + two == two;
    } else {
      PassedAppend(one[1..], two);
      assert (one + two)[1..] == one[1..] + two;
    }
  }

  lemma {:induction false} PassesPass(n: nat)
    ensures Passed(Passes(n)) == n
  {
    if n > 0 {
      assert Passes(n)[1..] == Passes(n - 1);
      PassesPass(n - 1);
    }
  }

  /** The current call's batch is with the consumer, and the client has taken all that was written. */
  ghost predicate WithConsumer(t: Timed, z: Zlib) {
    && Coupled(t, z) && t.sys.caller.Awaiting? && t.sys.conn.phase.AwaitAck?
    && t.clock.server == Keepalive.Holding(0) && t.clock.acks == []
  }

  lemma NothingInFlight(t: Timed, z: Zlib)
    requires WithConsumer(t, z)
    ensures t.sys.taken == |t.sys.conn.written| && t.sys.consumed <= |t.sys.conn.dispatched| <= t.sys.consumed + 1
    ensures t.clock == Keepalive.Clock(Keepalive.Holding(0), [], Keepalive.Waiting(t.clock.caller.idle))
  {
    ConsumedSoFar(t.sys, z);
    hide Inv, Finals;
  }

  lemma QuietDo(t: Timed, a: Action, cfg: Cfg, b: Keepalive.Bounds)
    requires a.PushReply? || a.AckArrive? || a.Consume?
    ensures TimedNext(t, Do(a), cfg, b) == t.(sys := Next(t.sys, a, cfg))
  {
    hide Moved;
  }

  lemma RepliesMove(s: Sys, cfg: Cfg)
    ensures var pushed := Next(s, PushReply(|s.reply|), cfg);
            Next(pushed, AckArrive(|pushed.down|), cfg) == s.(reply := [], down := [], ackbuf := Downstream(s))
  {
    hide Moved;
    MovedAll(s.reply);
    MovedAll(s.down + s.reply);
    assert s.ackbuf + (s.down + s.reply) == Downstream(s);
  }

  /** The replies arrive, and the client takes the one ack that it has not taken yet. */
  lemma OneAckArrives(t: Timed, cfg: Cfg, b: Keepalive.Bounds) returns (actions: seq<TimedAction>)
    requires Faithful(cfg.z) && Coupled(t, cfg.z) && t.sys.caller.Awaiting? && |t.sys.conn.written| == t.sys.taken + 1
    ensures Passed(actions) == 0
    ensures var s, after := t.sys, TimedRun(t, actions, cfg, b);
            && Coupled(after, cfg.z) && after.clock == Keepalive.Next(t.clock, Keepalive.AckArrives, b)
            && after.sys.conn == s.conn && after.sys.sent == s.sent && after.sys.consumed == s.consumed
            && CanTake(s) && after.sys.caller == (if s.conn.written[s.taken].num > 0 then Idle else Awaiting)
            && after.sys.receipts == s.receipts
                 + if s.conn.written[s.taken].num > 0 then [Receipt(|s.sent| - 1, s.taken)] else []
  {
    hide Faithful, Coupled, Next, Keepalive.Next, TimedNext, PollStep;
    var push := PushReply(|t.sys.reply|);
    QuietDo(t, push, cfg, b);
    TimedKept(t, Do(push), cfg, b);
    TimedOne(t, Do(push), cfg, b);
    var pushed := TimedNext(t, Do(push), cfg, b);
    var come := AckArrive(|pushed.sys.down|);
    QuietDo(pushed, come, cfg, b);
    TimedKept(pushed, Do(come), cfg, b);
    TimedOne(pushed, Do(come), cfg, b);
    var ready := TimedNext(pushed, Do(come), cfg, b);
    RepliesMove(t.sys, cfg);
    TakesLast(ready, cfg, b);
    TimedKept(ready, Do(Poll), cfg, b);
    TimedOne(ready, Do(Poll), cfg, b);
    TimedAppend(t, [Do(push)], [Do(come)], cfg, b);
    TimedAppend(t, [Do(push)] + [Do(come)], [Do(Poll)], cfg, b);
    actions := [Do(push)] + [Do(come)] + [Do(Poll)];
    PassedAppend([Do(push)], [Do(come)]);
    PassedAppend([Do(push)] + [Do(come)], [Do(Poll)]);
  }

  lemma TakesLast(t: Timed, cfg: Cfg, b: Keepalive.Bounds)
    requires Faithful(cfg.z) && Coupled(t, cfg.z) && t.sys.caller.Awaiting? && |t.sys.conn.written| == t.sys.taken + 1
    requires t.sys.down == [] && t.sys.reply == []
    ensures var s, after := t.sys, TimedNext(t, Do(Poll), cfg, b);
            && after.clock == Keepalive.Next(t.clock, Keepalive.AckArrives, b)
            && after.sys.conn == s.conn && after.sys.sent == s.sent && after.sys.consumed == s.consumed
            && CanTake(s) && after.sys.caller == (if s.conn.written[s.taken].num > 0 then Idle else Awaiting)
            && after.sys.receipts == s.receipts
                 + if s.conn.written[s.taken].num > 0 then [Receipt(|s.sent| - 1, s.taken)] else []
  {
    var s := t.sys;
    PollTakesIt(s, cfg.z);
    LastCallsAck(s, t.clock, cfg.z);
    Arrives(s, PollStep(s, cfg.z), t.clock, b);
    hide Faithful, Inv, Told, PollStep, Keepalive.Next;
  }

  lemma PollTakesIt(s: Sys, z: Zlib)
    requires Faithful(z) && Inv(s, z) && s.caller.Awaiting? && s.taken < |s.conn.written| && s.down == [] && s.reply == []
    requires s.sent != []
    ensures CanTake(s) && PollStep(s, z) == Take(s, PollStep(s, z).ackbuf)
  {
    hide Faithful, Inv, Decode, EncodeAll;
    AckTaken(s, z);
    assert s.down + s.reply == [];
  }

  /** The interval has passed. */
  ghost predicate KeepaliveDue(t: Timed, z: Zlib, b: Keepalive.Bounds) {
    && Coupled(t, z) && t.sys.caller.Awaiting? && t.clock.caller.Waiting? && t.sys.conn.phase.AwaitAck?
    && t.clock.server == Keepalive.Holding(b.keepalive) && t.clock.acks == []
    && t.sys.taken == |t.sys.conn.written|
  }

  lemma IntervalPasses(t: Timed, cfg: Cfg, b: Keepalive.Bounds)
    requires Faithful(cfg.z) && WithConsumer(t, cfg.z)
    ensures var late := TimedRun(t, Passes(b.keepalive), cfg, b);
            KeepaliveDue(late, cfg.z, b) && late.sys == t.sys
  {
    NothingInFlight(t, cfg.z);
    Keepalive.TicksPass(t.clock, b.keepalive, b);
    PassesAreTicks(t, b.keepalive, cfg, b);
    CoupledRun(t, Passes(b.keepalive), cfg, b);
    hide Faithful, Inv, Told, TimedRun, Keepalive.Run;
  }

  /** A keepalive reaches the client. */
  lemma KeepaliveArrives(t: Timed, cfg: Cfg, b: Keepalive.Bounds) returns (actions: seq<TimedAction>)
    requires Faithful(cfg.z) && cfg.keepalive && KeepaliveDue(t, cfg.z, b)
    ensures Passed(actions) == 0
    ensures var after := TimedRun(t, actions, cfg, b);
            WithConsumer(after, cfg.z) && after.sys.sent == t.sys.sent && after.sys.receipts == t.sys.receipts
  {
    KeptAlive(t, cfg, b);
    hide Faithful, Coupled, TimedRun, TimedNext, Keepalive.Next;
    TimedKept(t, Do(KeepAlive), cfg, b);
    TimedOne(t, Do(KeepAlive), cfg, b);
    var told := TimedNext(t, Do(KeepAlive), cfg, b);
    var take := OneAckArrives(told, cfg, b);
    TakenWithConsumer(told, TimedRun(told, take, cfg, b), cfg, b);
    TimedAppend(t, [Do(KeepAlive)], take, cfg, b);
    actions := [Do(KeepAlive)] + take;
    PassedAppend([Do(KeepAlive)], take);
  }

  lemma TakenWithConsumer(t: Timed, after: Timed, cfg: Cfg, b: Keepalive.Bounds)
    requires t.clock.server == Keepalive.Holding(0) && t.clock.acks == [Keepalive.Flight(0, false)] && t.clock.caller.Waiting?
    requires after.clock == Keepalive.Next(t.clock, Keepalive.AckArrives, b)
    requires Coupled(after, cfg.z) && after.sys.caller.Awaiting? && after.sys.conn.phase.AwaitAck?
    ensures WithConsumer(after, cfg.z)
  {
    hide Coupled;
    assert t.clock.acks[1..] == [];
  }

  /** One interval passes, and a keepalive reaches the client. */
  lemma IntervalHeld(t: Timed, cfg: Cfg, b: Keepalive.Bounds) returns (actions: seq<TimedAction>)
    requires Faithful(cfg.z) && cfg.keepalive && WithConsumer(t, cfg.z)
    ensures Passed(actions) == b.keepalive
    ensures var after := TimedRun(t, actions, cfg, b);
            WithConsumer(after, cfg.z) && after.sys.sent == t.sys.sent && after.sys.receipts == t.sys.receipts
  {
    hide Faithful, WithConsumer, KeepaliveDue, TimedRun, TimedNext;
    IntervalPasses(t, cfg, b);
    PassesPass(b.keepalive);
    var more := KeepaliveArrives(TimedRun(t, Passes(b.keepalive), cfg, b), cfg, b);
    TimedAppend(t, Passes(b.keepalive), more, cfg, b);
    actions := Passes(b.keepalive) + more;
    PassedAppend(Passes(b.keepalive), more);
  }

  lemma KeptAlive(t: Timed, cfg: Cfg, b: Keepalive.Bounds)
    requires cfg.keepalive && t.sys.conn.phase.AwaitAck? && t.sys.caller.Awaiting?
    requires t.clock.server == Keepalive.Holding(b.keepalive) && t.clock.acks == []
    ensures var after := TimedNext(t, Do(KeepAlive), cfg, b);
            && after.sys == t.sys.(conn := Tick(t.sys.conn, None), reply := after.sys.reply)
            && after.clock == t.clock.(server := Keepalive.Holding(0), acks := [Keepalive.Flight(0, false)])
  {
    hide Encode;
    NotTicked(t.sys.conn);
    assert [] + [Keepalive.Flight(0, false)] == [Keepalive.Flight(0, false)];
  }

  lemma {:induction false} CoupledRun(t: Timed, actions: seq<TimedAction>, cfg: Cfg, b: Keepalive.Bounds)
    requires Faithful(cfg.z) && Coupled(t, cfg.z)
    ensures Coupled(TimedRun(t, actions, cfg, b), cfg.z)
    decreases |actions|
  {
    hide Faithful, Coupled, TimedNext;
    if actions != [] {
      TimedKept(t, actions[0], cfg, b);
      CoupledRun(TimedNext(t, actions[0], cfg, b), actions[1..], cfg, b);
    }
  }

  lemma {:induction false} IntervalsHeld(t: Timed, n: nat, cfg: Cfg, b: Keepalive.Bounds) returns (actions: seq<TimedAction>)
    requires Faithful(cfg.z) && cfg.keepalive && WithConsumer(t, cfg.z)
    ensures Passed(actions) == n * b.keepalive
    ensures var after := TimedRun(t, actions, cfg, b);
            WithConsumer(after, cfg.z) && after.sys.sent == t.sys.sent && after.sys.receipts == t.sys.receipts
    decreases n
  {
    hide Faithful, WithConsumer, TimedNext;
    if n == 0 {
      actions := [];
    } else {
      hide TimedRun;
      var before := IntervalsHeld(t, n - 1, cfg, b);
      var one := IntervalHeld(TimedRun(t, before, cfg, b), cfg, b);
      TimedAppend(t, before, one, cfg, b);
      PassedAppend(before, one);
      actions := before + one;
      assert (n - 1) * b.keepalive + b.keepalive == n * b.keepalive;
    }
  }

  /** The consumer gives the batch up, and the call is confirmed. */
  lemma GivenUpThenConfirmed(t: Timed, cfg: Cfg, b: Keepalive.Bounds) returns (actions: seq<TimedAction>)
    requires Faithful(cfg.z) && WithConsumer(t, cfg.z)
    ensures Passed(actions) == 0
    ensures var after := TimedRun(t, actions, cfg, b);
            && after.sys.caller == Idle && after.sys.sent == t.sys.sent
            && |after.sys.receipts| == |t.sys.receipts| + 1
  {
    NothingInFlight(t, cfg.z);
    AckWrittenNow(t, cfg, b);
    hide Faithful, Inv, Told, TimedRun, TimedNext;
    var given := TimedNext(t, Do(Consume), cfg, b);
    var acked := TimedNext(given, Do(FinalAck), cfg, b);
    TimedKept(t, Do(Consume), cfg, b);
    TimedKept(given, Do(FinalAck), cfg, b);
    TimedOne(t, Do(Consume), cfg, b);
    TimedOne(given, Do(FinalAck), cfg, b);
    var take := OneAckArrives(acked, cfg, b);
    TimedAppend(t, [Do(Consume)], [Do(FinalAck)], cfg, b);
    TimedAppend(t, [Do(Consume)] + [Do(FinalAck)], take, cfg, b);
    actions := [Do(Consume)] + [Do(FinalAck)] + take;
    PassedAppend([Do(Consume)], [Do(FinalAck)]);
    PassedAppend([Do(Consume)] + [Do(FinalAck)], take);
  }

  lemma AckWrittenNow(t: Timed, cfg: Cfg, b: Keepalive.Bounds)
    requires Inv(t.sys, cfg.z) && t.sys.conn.phase.AwaitAck?
    requires t.sys.consumed <= |t.sys.conn.dispatched| <= t.sys.consumed + 1
    ensures var s, after := t.sys, TimedNext(TimedNext(t, Do(Consume), cfg, b), Do(FinalAck), cfg, b).sys;
            && after == s.(consumed := |s.conn.dispatched|, conn := after.conn, reply := after.reply)
            && s.conn.phase.last > 0 && after.conn.written == s.conn.written + [Ack(s.conn.phase.last)]
  {
    LastIsPositive(t.sys, cfg.z);
    QuietDo(t, Consume, cfg, b);
    hide Inv;
    ConsumeGives(t.sys, cfg);
    FinalAckWrites(TimedNext(t, Do(Consume), cfg, b), cfg, b);
    hide *;
  }

  lemma ConsumeGives(s: Sys, cfg: Cfg)
    requires s.consumed <= |s.conn.dispatched| <= s.consumed + 1
    ensures Next(s, Consume, cfg) == s.(consumed := |s.conn.dispatched|)
  {
  }

  lemma FinalAckWrites(t: Timed, cfg: Cfg, b: Keepalive.Bounds)
    requires t.sys.conn.phase.AwaitAck? && t.sys.consumed == |t.sys.conn.dispatched|
    ensures var s, after := t.sys, TimedNext(t, Do(FinalAck), cfg, b).sys;
            && after == s.(conn := after.conn, reply := after.reply)
            && after.conn.written == s.conn.written + [Ack(s.conn.phase.last)]
  {
    hide Encode, Event, Advance;
  }

  /** For any call of a session without errors so far: a run in which the consumer holds the batch for `n` intervals,
      however many, and the call is confirmed. */
  lemma HeldCallConfirmed(before: seq<Action>, o: Order, n: nat, cfg: Cfg, b: Keepalive.Bounds)
    returns (actions: seq<TimedAction>)
    requires Faithful(cfg.z) && cfg.keepalive && Allowed(before, false, cfg.z) && Deliverable(o, cfg.max, cfg.z)
    requires var s := Run(START, before, cfg); s.caller.Idle? && !s.conn.phase.Closed?
    ensures Passed(actions) == n * b.keepalive
    ensures var s := Run(START, before, cfg);
            var after := TimedRun(Awaited(s, o, cfg.z), actions, cfg, b).sys;
            after.caller == Idle && |after.sent| == |s.sent| + 1 && |after.receipts| == |s.receipts| + 1
  {
    AwaitedCoupled(before, o, cfg);
    var s := Run(START, before, cfg);
    AwaitedWholesome(s, o, cfg);
    hide Run, TimedRun, Faithful, Inv, Told, Wholesome, Keepalive.Next, TimedNext, Deliverable, WithConsumer;
    var t := Awaited(s, o, cfg.z);
    var admit := AdmittedAtOnce(t, cfg, b);
    var held := IntervalsHeld(TimedRun(t, admit, cfg, b), n, cfg, b);
    TimedAppend(t, admit, held, cfg, b);
    var ack := GivenUpThenConfirmed(TimedRun(t, admit + held, cfg, b), cfg, b);
    TimedAppend(t, admit + held, ack, cfg, b);
    actions := admit + held + ack;
    PassedAppend(admit, held);
    PassedAppend(admit + held, ack);
  }

  lemma AdmittedAtOnce(t: Timed, cfg: Cfg, b: Keepalive.Bounds) returns (actions: seq<TimedAction>)
    requires Faithful(cfg.z) && Coupled(t, cfg.z) && t.clock == Keepalive.BEGIN
    requires t.sys.conn.phase.ExpectWindow? && t.sys.up == [] && t.sys.outbox == [] && t.sys.caller.Awaiting?
    requires |t.sys.conn.dispatched| < |t.sys.sent| && Wholesome(t.sys.sent[|t.sys.conn.dispatched|], cfg)
    ensures Passed(actions) == 0
    ensures var after := TimedRun(t, actions, cfg, b);
            WithConsumer(after, cfg.z) && after.sys.sent == t.sys.sent && after.sys.receipts == t.sys.receipts
  {
    Arrived(Keepalive.BEGIN, b);
    hide Faithful, Inv, Wholesome, TimedRun, TimedNext, Told;
    var read := ReadAtOnce(t, cfg, b);
    CoupledRun(t, read, cfg, b);
    var full := TimedRun(t, read, cfg, b);
    AdmittedNext(full, cfg, b);
    TimedKept(full, Do(AdmitBatch), cfg, b);
    TimedOne(full, Do(AdmitBatch), cfg, b);
    TimedAppend(t, read, [Do(AdmitBatch)], cfg, b);
    actions := read + [Do(AdmitBatch)];
    PassedAppend(read, [Do(AdmitBatch)]);
  }
}
