/** The two ends of a session are the machines of the server's and the client's code. */
module SessionRefinement {
  import opened Bytes
  import opened Frames
  import opened FrameLaws
  import opened Codec
  import opened Connection
  import opened ConnectionLaws
  import opened Client
  import opened Delivery
  import opened Session
  import opened SessionRuns

  // ---------------------------------------------------------------------------
  // The server's end
  // ---------------------------------------------------------------------------

  /** What the client adds to the stream. */
  function Fresh(s: Sys, a: Action, cfg: Cfg): seq<byte> {
    if a.Send? && s.caller.Idle? && a.order.events != [] then EncodeAll(FedFrames(a.order, a.upto, cfg.z), cfg.z) else []
  }

  function FreshOfRun(s: Sys, actions: seq<Action>, cfg: Cfg): seq<byte>
    decreases |actions|
  {
    if actions == [] then [] else Fresh(s, actions[0], cfg) + FreshOfRun(Next(s, actions[0], cfg), actions[1..], cfg)
  }

  /** The connection of `w` is the session's, it waits for nothing unless an ack is awaited, and it will read
      what the stream decodes to: all of it, or a beginning where the stream is cut short. */
  ghost predicate Matches(w: World, s: Sys, more: seq<byte>, whole: bool, cfg: Cfg) {
    && w.conn == s.conn && (!s.conn.phase.AwaitAck? ==> w.waits == [])
    && var feed := Read(Upstream(s) + more, cfg.max, cfg.z);
       w.feed.frames <= feed.frames && (whole ==> w.feed == feed)
  }

  /** The action ends the server's stream. */
  predicate Cuts(s: Sys, a: Action, cfg: Cfg) {
    a.ReadEnds? && Next(s, a, cfg) != s
  }

  /** Going back over one action: the machine takes a step, or the action is none of the server's. */
  lemma ActionIsStep(s: Sys, a: Action, after: World, more: seq<byte>, whole: bool, cfg: Cfg) returns (before: World)
    requires Matches(after, Next(s, a, cfg), more, whole, cfg)
    ensures Matches(before, s, Fresh(s, a, cfg) + more, whole && !Cuts(s, a, cfg), cfg)
    ensures Drive(before, cfg).conn == Drive(after, cfg).conn
  {
    hide Drive, Decode, Encode, EncodeAll, OnFrame, OnInner, Read, FedFrames, Moved;
    var p, next := s.conn.phase, Next(s, a, cfg);
    var quiet := after.(conn := s.conn, waits := []);
    before := after;
    if a.Serve? {
      before := ServeIsStep(s, after, more, whole, cfg);
    } else if a.AdmitBatch? && p.Dispatching? {
      before := quiet.(env := [Admitted(after.waits)] + after.env);
      StepOf(before, after, cfg);
    } else if a.RefuseBatch? && p.Dispatching? {
      before := quiet.(env := [Refused] + after.env);
      StepOf(before, after, cfg);
    } else if a.KeepAlive? && next != s {
      before := quiet.(waits := [Timer(None)] + after.waits);
      StepOf(before, after, cfg);
    } else if a.FinalAck? && next != s {
      before := quiet.(waits := [Consumed(ByAck, None)]);
      StepOf(before, after, cfg);
    } else if a.WriteFails? && p.AwaitAck? {
      before := quiet.(waits := [Consumed(ByAck, Some(a.error))]);
      StepOf(before, after, cfg);
    } else if Cuts(s, a, cfg) {
      before := quiet.(feed := Incoming([], a.end));
      EndIsStep(before, a.end, after, cfg);
    }
    SameStream(s, a, more, cfg);
  }

  /** Actions other than the server's reading leave the stream as it is, but for what the client adds. */
  lemma SameStream(s: Sys, a: Action, more: seq<byte>, cfg: Cfg)
    ensures !a.Serve? ==> Upstream(s) + (Fresh(s, a, cfg) + more) == Upstream(Next(s, a, cfg)) + more
    ensures !a.Send? ==> Fresh(s, a, cfg) + more == more
  {
    hide Decode, Encode, EncodeAll, OnFrame, OnInner, FedFrames;
    assert !a.Send? ==> Fresh(s, a, cfg) + more == more;
    if a.Transmit? || a.Arrive? {
      TransportMoves(s, a, cfg);
    } else if a.Send? {
      SendStream(s, a, more, cfg);
    }
  }

  lemma SendStream(s: Sys, a: Action, more: seq<byte>, cfg: Cfg)
    requires a.Send?
    ensures Upstream(s) + (Fresh(s, a, cfg) + more) == Upstream(Next(s, a, cfg)) + more
  {
    hide FedFrames, Encode, PlanOf;
    var fed := FedFrames(a.order, a.upto, cfg.z);
    EncodeAllNone(cfg.z);
    assert Upstream(Next(s, a, cfg)) == Upstream(s) + Fresh(s, a, cfg);
  }

  lemma ServeIsStep(s: Sys, after: World, more: seq<byte>, whole: bool, cfg: Cfg) returns (before: World)
    requires Matches(after, ServeStep(s, cfg), more, whole, cfg)
    ensures Matches(before, s, more, whole, cfg)
    ensures Drive(before, cfg).conn == Drive(after, cfg).conn
  {
    hide Drive, Decode, Read;
    var p := s.conn.phase;
    before := after.(conn := s.conn);
    if Filled(p) || (p.Collecting? && p.inner != []) {
      StepOf(before, after, cfg);
    } else if AtRead(p) {
      var behind := s.up + s.outbox + more;
      assert s.inbuf + behind == Upstream(s) + more;
      DecodeAppend(s.inbuf, behind, cfg.max, cfg.z);
      ReadHead(Upstream(s) + more, cfg.max, cfg.z);
      match Decode(s.inbuf, cfg.max, cfg.z)
      case NeedMore =>
      case Bad(e, _) =>
        before := before.(feed := Incoming([], Fault(e)));
        EndIsStep(before, Fault(e), after, cfg);
      case Got(f, rest) =>
        assert rest + behind == Upstream(ServeStep(s, cfg)) + more;
        before := before.(feed := after.feed.(frames := [f] + after.feed.frames));
        assert before.feed.frames[1..] == after.feed.frames;
        StepOf(before, after, cfg);
    }
  }

  /** No action of the run ends the server's stream. */
  ghost predicate Uncut(s: Sys, actions: seq<Action>, cfg: Cfg)
    decreases |actions|
  {
    actions == [] || (!Cuts(s, actions[0], cfg) && Uncut(Next(s, actions[0], cfg), actions[1..], cfg))
  }

  lemma {:induction false} RunIsDrive(s: Sys, actions: seq<Action>, after: World, more: seq<byte>, cfg: Cfg)
    returns (before: World)
    requires Matches(after, Run(s, actions, cfg), more, true, cfg)
    ensures Matches(before, s, FreshOfRun(s, actions, cfg) + more, Uncut(s, actions, cfg), cfg)
    ensures Drive(before, cfg).conn == Drive(after, cfg).conn
    decreases |actions|
  {
    hide Drive, Next, Matches, Fresh, Cuts;
    if actions == [] {
      assert [] + more == more;
      before := after;
    } else {
      var a, rest := actions[0], actions[1..];
      var next := Next(s, a, cfg);
      var middle := RunIsDrive(next, rest, after, more, cfg);
      before := ActionIsStep(s, a, middle, FreshOfRun(next, rest, cfg) + more, Uncut(next, rest, cfg), cfg);
      assert Fresh(s, a, cfg) + (FreshOfRun(next, rest, cfg) + more) == FreshOfRun(s, actions, cfg) + more;
    }
  }

  lemma FreshIsCalls(s: Sys, a: Action, cfg: Cfg)
    ensures s.sent <= Next(s, a, cfg).sent
    ensures EncodeAll(Backlog(Next(s, a, cfg).sent[|s.sent|..]), cfg.z) == Fresh(s, a, cfg)
  {
    hide Decode, Encode, OnFrame, OnInner, FedFrames, PlanOf, Moved;
    var calls := Next(s, a, cfg).sent[|s.sent|..];
    EncodeAllNone(cfg.z);
    BacklogNone([]);
    if calls != [] {
      BacklogPush([], calls[0]);
      assert calls == [] + [calls[0]];
      assert [] + calls[0].fed == calls[0].fed;
    } else {
      assert calls == [];
    }
  }

  lemma {:induction false} FreshOfRunIsCalls(s: Sys, actions: seq<Action>, cfg: Cfg)
    ensures var after := Run(s, actions, cfg);
            s.sent <= after.sent && FreshOfRun(s, actions, cfg) == EncodeAll(Backlog(after.sent[|s.sent|..]), cfg.z)
    decreases |actions|
  {
    hide Next, EncodeAll, Fresh, Backlog;
    if actions == [] {
      EncodeAllNone(cfg.z);
      BacklogNone([]);
      assert s.sent[|s.sent|..] == [];
    } else {
      var next, after := Next(s, actions[0], cfg), Run(s, actions, cfg);
      FreshIsCalls(s, actions[0], cfg);
      FreshOfRunIsCalls(next, actions[1..], cfg);
      BacklogAppend(next.sent[|s.sent|..], after.sent[|next.sent|..]);
      assert after.sent[|s.sent|..] == next.sent[|s.sent|..] + after.sent[|next.sent|..];
      EncodeAllAppend(Backlog(next.sent[|s.sent|..]), Backlog(after.sent[|next.sent|..]), cfg.z);
    }
  }

  lemma {:induction false} BacklogAppend(a: seq<Call>, b: seq<Call>)
    ensures Backlog(a + b) == Backlog(a) + Backlog(b)
    decreases |a|
  {
    if a == [] {
      assert a + b == b;
    } else {
      BacklogAppend(a[1..], b);
      assert (a + b)[1..] == a[1..] + b;
    }
  }

  /** Whatever the interleaving, the server of a session has dispatched and written what the connection handler
      does for some environment over what the calls' bytes decode to, errors included; or over a beginning of
      it, if the stream ended before the server had read it all. */
  lemma ServerIsHandler(actions: seq<Action>, cfg: Cfg) returns (feed: Incoming, env: seq<Encounter>)
    ensures var s, c := Run(START, actions, cfg), Drive(Start(feed, env), cfg).conn;
            var bytes := EncodeAll(Backlog(s.sent), cfg.z);
            && c.dispatched == s.conn.dispatched && c.written == s.conn.written
            && (s.conn.phase.Closed? ==> c.phase == s.conn.phase)
            && feed.frames <= Read(bytes, cfg.max, cfg.z).frames
            && (Uncut(START, actions, cfg) ==> feed == Read(bytes, cfg.max, cfg.z))
  {
    hide Drive, Run, Read, EncodeAll, Backlog, Uncut;
    var s := Run(START, actions, cfg);
    var after := World(s.conn, Read(Upstream(s) + [], cfg.max, cfg.z), [], []);
    QuietDrive(after, cfg);
    Unfold(after, cfg);
    var before := RunIsDrive(START, actions, after, [], cfg);
    FreshOfRunIsCalls(START, actions, cfg);
    assert s.sent[0..] == s.sent;
    assert [] + [] + [] + (EncodeAll(Backlog(s.sent), cfg.z) + []) == EncodeAll(Backlog(s.sent), cfg.z);
    feed, env := before.feed, before.env;
    assert before == Start(feed, env);
  }

  // ---------------------------------------------------------------------------
  // The client's end
  // ---------------------------------------------------------------------------

  function FromServer(s: Sys, more: seq<byte>, z: Zlib): Incoming {
    Read(Downstream(s) + more, DEFAULT_MAX_FRAME_SIZE, z)
  }

  /** The frames that an action writes to the client. */
  function NewReplies(s: Sys, after: Sys): seq<Frame> {
    if s.conn.written <= after.conn.written then after.conn.written[|s.conn.written|..] else []
  }

  /** A wait that timed out did so behind the frames taken in it. */
  function Patience(s: Sys, after: Sys): Option<nat> {
    if after.caller == Stopped(Some(Error.AckTimeout)) && s.taken <= after.taken then Some(after.taken - s.taken)
    else None
  }

  /** What the ack loop comes to over `feed` is what became of the wait; `left` is what is still to be read. A
      call that was dropped has no result. */
  ghost predicate Computes(s: Sys, feed: Incoming, after: Sys, left: Incoming)
    requires s.sent != []
  {
    var o := AckLoop(Count(s), feed, Patience(s, after));
    match after.caller
    case Idle => o == AckOutcome(Ok(Count(s)), left)
    case Awaiting => o == AckLoop(Count(s), left, None)
    case Stopped(None) => true
    case Stopped(Some(e)) => o.result == Err(e) && (e == Error.AckTimeout ==> o.left == left)
    case Sending(_) => false
  }

  ghost predicate CutFrom(feed: Incoming, all: Incoming, whole: bool) {
    feed.frames <= all.frames && (whole ==> feed == all)
  }

  lemma SameReplies(s: Sys, a: Action, more: seq<byte>, cfg: Cfg)
    requires s.caller.Awaiting? && s.sent != [] && !a.Send? && !a.Retry?
    ensures var after := Next(s, a, cfg);
            && s.conn.written <= after.conn.written && after.sent == s.sent && s.taken <= after.taken
            && (a.Poll? ==> EncodeAll(NewReplies(s, after), cfg.z) + more == more)
            && (!a.Poll? ==> after.taken == s.taken
                             && Downstream(s) + (EncodeAll(NewReplies(s, after), cfg.z) + more) == Downstream(after) + more)
  {
    hide Decode, Encode, EncodeAll, OnFrame, OnInner;
    var after := Next(s, a, cfg);
    EncodeAllNone(cfg.z);
    if a.KeepAlive? || a.FinalAck? {
      AnswerStream(s, a, more, cfg);
    } else {
      assert NewReplies(s, after) == [];
      assert [] + more == more;
      if a.PushReply? || a.AckArrive? {
        TransportMoves(s, a, cfg);
      }
    }
  }

  lemma AnswerStream(s: Sys, a: Action, more: seq<byte>, cfg: Cfg)
    requires a.KeepAlive? || a.FinalAck?
    ensures var after := Next(s, a, cfg);
            Downstream(s) + (EncodeAll(NewReplies(s, after), cfg.z) + more) == Downstream(after) + more
  {
    hide Encode, EncodeAll;
    var after := Next(s, a, cfg);
    var n := if a.KeepAlive? || !s.conn.phase.AwaitAck? then 0 else s.conn.phase.last;
    EncodeAllNone(cfg.z);
    EncodeAllOne(Ack(n), cfg.z);
    if after != s {
      assert NewReplies(s, after) == [Ack(n)];
      assert Downstream(s) + (Encode(Ack(n), cfg.z) + more) == Downstream(after) + more;
    } else {
      assert NewReplies(s, after) == [];
    }
  }

  /** Going back over one action within the wait: the loop goes round once, or nothing happens to the client. */
  lemma ActionIsRound(s: Sys, a: Action, later: Incoming, more: seq<byte>, whole: bool, last: Sys, left: Incoming, cfg: Cfg)
    returns (feed: Incoming)
    requires s.caller.Awaiting? && s.sent != [] && !a.Send? && !a.Retry?
    requires var next := Next(s, a, cfg);
             && next.caller.Awaiting? && next.sent == s.sent && next.taken <= last.taken
             && CutFrom(later, FromServer(next, more, cfg.z), whole) && Computes(next, later, last, left)
    ensures var all := EncodeAll(NewReplies(s, Next(s, a, cfg)), cfg.z) + more;
            CutFrom(feed, FromServer(s, all, cfg.z), whole) && Computes(s, feed, last, left)
  {
    SameReplies(s, a, more, cfg);
    PollIsPollStep(s, cfg);
    hide *;
    if a.Poll? {
      feed := PollIsRound(s, later, more, whole, last, left, cfg);
    } else {
      var next := Next(s, a, cfg);
      SameRound(s, next, later, EncodeAll(NewReplies(s, next), cfg.z) + more, more, whole, last, left, cfg);
      feed := later;
    }
  }

  lemma SameRound(s: Sys, next: Sys, later: Incoming, all: seq<byte>, more: seq<byte>, whole: bool, last: Sys,
                  left: Incoming, cfg: Cfg)
    requires s.sent != [] && next.sent == s.sent && next.taken == s.taken && Downstream(s) + all == Downstream(next) + more
    requires CutFrom(later, FromServer(next, more, cfg.z), whole) && Computes(next, later, last, left)
    ensures CutFrom(later, FromServer(s, all, cfg.z), whole) && Computes(s, later, last, left)
  {
    hide Read, AckLoop, Downstream;
  }

  lemma PollIsPollStep(s: Sys, cfg: Cfg)
    ensures Next(s, Poll, cfg) == PollStep(s, cfg.z)
  {
  }

  lemma PollIsRound(s: Sys, later: Incoming, more: seq<byte>, whole: bool, last: Sys, left: Incoming, cfg: Cfg)
    returns (feed: Incoming)
    requires s.caller.Awaiting? && s.sent != []
    requires var next := PollStep(s, cfg.z);
             && next.caller.Awaiting? && next.sent == s.sent && next.taken <= last.taken
             && CutFrom(later, FromServer(next, more, cfg.z), whole) && Computes(next, later, last, left)
    ensures CutFrom(feed, FromServer(s, more, cfg.z), whole) && Computes(s, feed, last, left)
  {
    hide Decode, Read;
    var behind := s.down + s.reply + more;
    assert s.ackbuf + behind == Downstream(s) + more;
    DecodeAppend(s.ackbuf, behind, DEFAULT_MAX_FRAME_SIZE, cfg.z);
    ReadHead(Downstream(s) + more, DEFAULT_MAX_FRAME_SIZE, cfg.z);
    feed := later;
    match Decode(s.ackbuf, DEFAULT_MAX_FRAME_SIZE, cfg.z)
    case NeedMore =>
    case Bad(_, _) =>
    case Got(f, rest) =>
      assert rest + behind == Downstream(PollStep(s, cfg.z)) + more;
      feed := later.(frames := [f] + later.frames);
      assert feed.frames[1..] == later.frames;
  }

  /** The action that ends the wait is where the loop ends. */
  lemma LastActionIsRound(s: Sys, a: Action, more: seq<byte>, cfg: Cfg) returns (feed: Incoming)
    requires s.caller.Awaiting? && s.sent != [] && !a.Send? && !a.Retry? && !Next(s, a, cfg).caller.Awaiting?
    ensures var after := Next(s, a, cfg);
            var all := EncodeAll(NewReplies(s, after), cfg.z) + more;
            && CutFrom(feed, FromServer(s, all, cfg.z), !a.StreamEnds?)
            && Computes(s, feed, after, FromServer(after, more, cfg.z))
  {
    SameReplies(s, a, more, cfg);
    var after := Next(s, a, cfg);
    feed := FromServer(s, EncodeAll(NewReplies(s, after), cfg.z) + more, cfg.z);
    if a.Poll? {
      hide EncodeAll, Computes, Read, PollStep;
      LastPoll(s, more, cfg);
    } else {
      StoppedBy(s, a, cfg);
      hide Next, EncodeAll, Read;
      if a.StreamEnds? {
        feed := Incoming([], a.end);
      }
    }
  }

  lemma StoppedBy(s: Sys, a: Action, cfg: Cfg)
    requires s.caller.Awaiting? && !a.Send? && !a.Retry? && !a.Poll? && !Next(s, a, cfg).caller.Awaiting?
    ensures var after := Next(s, a, cfg);
            && after == s.(caller := after.caller)
            && match a
               case TimeOut => after.caller == Stopped(Some(Error.AckTimeout))
               case StreamEnds(end) =>
                 FromTransport(end) && after.caller == Stopped(Some(if end.Fault? then end.error else ConnectionClosed))
               case Abandon => after.caller == Stopped(None)
               case _ => false
  {
    hide Decode, Encode, OnFrame, OnInner, Moved;
  }

  lemma LastPoll(s: Sys, more: seq<byte>, cfg: Cfg)
    requires s.caller.Awaiting? && s.sent != [] && !PollStep(s, cfg.z).caller.Awaiting?
    ensures var after := PollStep(s, cfg.z);
            Computes(s, FromServer(s, more, cfg.z), after, FromServer(after, more, cfg.z))
  {
    hide Decode, Read;
    var behind := s.down + s.reply + more;
    assert s.ackbuf + behind == Downstream(s) + more;
    DecodeAppend(s.ackbuf, behind, DEFAULT_MAX_FRAME_SIZE, cfg.z);
    ReadHead(Downstream(s) + more, DEFAULT_MAX_FRAME_SIZE, cfg.z);
    var d := Decode(s.ackbuf, DEFAULT_MAX_FRAME_SIZE, cfg.z);
    if d.Got? {
      assert d.rest + behind == Downstream(PollStep(s, cfg.z)) + more;
      assert FromServer(s, more, cfg.z).frames[1..] == Read(d.rest + behind, DEFAULT_MAX_FRAME_SIZE, cfg.z).frames;
    }
  }

  /** The client waits up to the last of the actions. */
  ghost predicate WaitsThrough(s: Sys, actions: seq<Action>, cfg: Cfg)
    decreases |actions|
  {
    actions == [] || (s.caller.Awaiting? && WaitsThrough(Next(s, actions[0], cfg), actions[1..], cfg))
  }

  /** The wait ends with the stream. */
  ghost predicate EndsWithStream(actions: seq<Action>, after: Sys) {
    !after.caller.Awaiting? && actions != [] && actions[|actions| - 1].StreamEnds?
  }

  /** The polls of one wait, in every interleaving, compute what the ack loop of `send` does over what was under
      way and what the server wrote meanwhile: the same success, or the same error, an ack timeout behind the
      same frames. If the stream ended, the loop goes over the frames that were taken before. */
  lemma {:induction false} WaitIsAckLoop(s: Sys, actions: seq<Action>, more: seq<byte>, cfg: Cfg)
    returns (feed: Incoming)
    requires s.caller.Awaiting? && s.sent != [] && WithinCall(actions) && WaitsThrough(s, actions, cfg)
    ensures var after := Run(s, actions, cfg);
            var all := EncodeAll(NewReplies(s, after), cfg.z) + more;
            && s.conn.written <= after.conn.written && s.taken <= after.taken
            && CutFrom(feed, FromServer(s, all, cfg.z), !EndsWithStream(actions, after))
            && Computes(s, feed, after, FromServer(after, more, cfg.z))
    decreases |actions|
  {
    hide Next, AckLoop, FromServer, EncodeAll, Computes;
    if actions == [] {
      EncodeAllNone(cfg.z);
      assert NewReplies(s, s) == [] && [] + more == more;
      feed := FromServer(s, more, cfg.z);
      WaitsOn(s, feed);
      return;
    }
    var a, rest := actions[0], actions[1..];
    assert a in actions;
    var next, after := Next(s, a, cfg), Run(s, actions, cfg);
    RunOfCall(next, rest, cfg);
    SameReplies(s, a, more, cfg);
    if !next.caller.Awaiting? {
      feed := LastActionIsRound(s, a, more, cfg);
    } else {
      var later := WaitIsAckLoop(next, rest, more, cfg);
      var behind := EncodeAll(NewReplies(next, after), cfg.z) + more;
      feed := ActionIsRound(s, a, later, behind, !EndsWithStream(rest, after), after, FromServer(after, more, cfg.z), cfg);
      assert NewReplies(s, after) == NewReplies(s, next) + NewReplies(next, after);
      EncodeAllAppend(NewReplies(s, next), NewReplies(next, after), cfg.z);
      assert EncodeAll(NewReplies(s, next), cfg.z) + behind == EncodeAll(NewReplies(s, after), cfg.z) + more;
    }
  }

  lemma WaitsOn(s: Sys, feed: Incoming)
    requires s.caller.Awaiting? && s.sent != []
    ensures Computes(s, feed, s, feed)
  {
  }

  // ---------------------------------------------------------------------------
  // The other way round: whatever the code does, the session does
  // ---------------------------------------------------------------------------

  /** A stream that holds `bytes` and then ends, with the decoder's error or in the transport. */
  ghost predicate EndsAs(feed: Incoming, bytes: seq<byte>, max: nat, z: Zlib) {
    var d := Drain(bytes, max, z);
    feed.frames == d.frames && if d.fault.Some? then feed.end == Fault(d.fault.value) else FromTransport(feed.end)
  }

  /** The machine `w` is at the session's server, whose input has all arrived. */
  ghost predicate AtServer(w: World, s: Sys, cfg: Cfg) {
    && w.conn == s.conn && EndsAs(w.feed, s.inbuf, cfg.max, cfg.z)
    && s.consumed <= |s.conn.dispatched| <= s.consumed + 1
    && (s.consumed < |s.conn.dispatched| ==> s.conn.phase.AwaitAck? || s.conn.phase.Closed?)
  }

  lemma ReadIsAction(s: Sys, w: World, cfg: Cfg) returns (a: Action)
    requires AtServer(w, s, cfg) && (w.conn.phase.ExpectWindow? || w.conn.phase.Collecting?)
    ensures WithinCall([a]) && AtServer(Step(w, cfg), Next(s, a, cfg), cfg)
  {
    hide Decode, Drain, OnFrame, OnInner;
    var p := w.conn.phase;
    a := Serve;
    DrainHead(s.inbuf, cfg.max, cfg.z);
    ReadingGoesOn(w, cfg);
    if AtRead(p) && w.feed.frames == [] && Decode(s.inbuf, cfg.max, cfg.z).NeedMore? {
      a := ReadEnds(w.feed.end);
    }
  }

  lemma ReadingGoesOn(w: World, cfg: Cfg)
    requires w.conn.phase.ExpectWindow? || w.conn.phase.Collecting?
    ensures !Step(w, cfg).conn.phase.AwaitAck? && Step(w, cfg).conn.dispatched == w.conn.dispatched
  {
    hide Decode;
  }

  lemma WaitIsActions(s: Sys, w: World, cfg: Cfg) returns (actions: seq<Action>)
    requires AtServer(w, s, cfg) && w.conn.phase.AwaitAck? && w.waits != []
    ensures WithinCall(actions) && AtServer(Step(w, cfg), Run(s, actions, cfg), cfg)
  {
    hide Drain, Encode, EndsAs;
    match w.waits[0]
    case Timer(fate) =>
      actions := if !cfg.keepalive then [] else if fate.None? then [KeepAlive] else [WriteFails(fate.value)];
      if cfg.keepalive {
        RunOne(s, actions[0], cfg);
      }
    case Consumed(_, fate) =>
      var last := if fate.None? then FinalAck else WriteFails(fate.value);
      var given := Next(s, Consume, cfg);
      RunOne(s, Consume, cfg);
      RunOne(given, last, cfg);
      RunAppend(s, [Consume], [last], cfg);
      actions := [Consume] + [last];
      assert given == s.(consumed := |s.conn.dispatched|);
  }

  lemma StepIsActions(s: Sys, w: World, cfg: Cfg) returns (actions: seq<Action>)
    requires AtServer(w, s, cfg) && !Stuck(w)
    ensures WithinCall(actions) && AtServer(Step(w, cfg), Run(s, actions, cfg), cfg)
  {
    var p := w.conn.phase;
    if p.AwaitAck? {
      actions := WaitIsActions(s, w, cfg);
    } else if p.Dispatching? {
      hide Drain, EndsAs;
      actions := [if w.env[0].Admitted? then AdmitBatch else RefuseBatch];
      RunOne(s, actions[0], cfg);
    } else {
      hide AtServer, Step, Next;
      var a := ReadIsAction(s, w, cfg);
      RunOne(s, a, cfg);
      actions := [a];
    }
  }

  /** With the client's bytes at the server, the session has every run of the connection handler over them: for every
      ending of the stream, and whatever the channel, the timers, the consumer and the writes come to. */
  lemma {:induction false} HandlerIsServer(s: Sys, w: World, cfg: Cfg) returns (actions: seq<Action>)
    requires AtServer(w, s, cfg)
    ensures WithinCall(actions) && Run(s, actions, cfg).conn == Drive(w, cfg).conn
    decreases |w.feed.frames|, |w.env|, Rank(w), if w.conn.phase.Closed? then 0 else 1
  {
    Unfold(w, cfg);
    if Stuck(w) {
      actions := [];
      return;
    }
    var one := StepIsActions(s, w, cfg);
    StepsDown(w, cfg);
    hide AtServer, Step, Drive, Run, Stuck;
    var rest := HandlerIsServer(Run(s, one, cfg), Step(w, cfg), cfg);
    RunAppend(s, one, rest, cfg);
    actions := one + rest;
  }

  /** A call in the session feeds what `send` feeds, and fails with the same error. */
  lemma SendIsFeeding(s: Sys, o: Order, fate: nat -> Option<Error>, cfg: Cfg)
    requires s.caller.Idle? && o.events != []
    ensures var p := PlanOf(o.events, o.packed, cfg.z);
            var fed, r := Fed(p, fate), Feeding(p, fate);
            var next := Next(s, Send(o, |fed|, if r.Err? then r.error else WriteTimeout), cfg);
            && (fed == [] ==> r.Err? && next == s.(caller := Stopped(Some(r.error))))
            && (fed != [] ==>
                  && next == s.(caller := Sending(if r.Err? then Some(r.error) else None),
                                sent := s.sent + [Call(o, fed)], outbox := s.outbox + EncodeAll(fed, cfg.z))
                  && forall e :: Next(next, WriteError(e), cfg)
                                 == next.(caller := Stopped(Some(if r.Err? then r.error else e))))
  {
    hide EncodeAll, Drain;
    var p := PlanOf(o.events, o.packed, cfg.z);
    assert p.frames != [];
    assert p.frames[..|p.frames|] == p.frames;
  }

  /** With all that it will hear at the client, the session has every run of the ack loop: for every ending of the
      stream, and every wait at which the timer runs out. */
  lemma {:induction false} AckLoopIsWait(s: Sys, feed: Incoming, patience: Option<nat>, cfg: Cfg) returns (actions: seq<Action>)
    requires s.caller.Awaiting? && s.sent != [] && EndsAs(feed, s.ackbuf, DEFAULT_MAX_FRAME_SIZE, cfg.z)
    ensures WithinCall(actions)
    ensures var r := AckLoop(Count(s), feed, patience).result;
            Run(s, actions, cfg).caller == if r.Ok? then Idle else Stopped(Some(r.error))
    decreases |feed.frames|
  {
    var a := if patience == Some(0) then TimeOut
             else if feed.frames == [] && Decode(s.ackbuf, DEFAULT_MAX_FRAME_SIZE, cfg.z).NeedMore? then StreamEnds(feed.end)
             else Poll;
    DrainHead(s.ackbuf, DEFAULT_MAX_FRAME_SIZE, cfg.z);
    hide Decode, Drain;
    RunOne(s, a, cfg);
    actions := [a];
    var next := Next(s, a, cfg);
    if next.caller.Awaiting? {
      hide Next, AckLoop;
      PollLoops(s, feed, patience, cfg);
      var rest := AckLoopIsWait(next, feed.(frames := feed.frames[1..]), Less(patience), cfg);
      RunAppend(s, [a], rest, cfg);
      actions := [a] + rest;
    }
  }

  function Less(patience: Option<nat>): Option<nat> {
    if patience.Some? && patience.value > 0 then Some(patience.value - 1) else patience
  }

  /** A poll after which the client still waits is a round of the loop. */
  lemma PollLoops(s: Sys, feed: Incoming, patience: Option<nat>, cfg: Cfg)
    requires s.caller.Awaiting? && s.sent != [] && EndsAs(feed, s.ackbuf, DEFAULT_MAX_FRAME_SIZE, cfg.z)
    requires patience != Some(0) && (feed.frames == [] ==> !Decode(s.ackbuf, DEFAULT_MAX_FRAME_SIZE, cfg.z).NeedMore?)
    requires PollStep(s, cfg.z).caller.Awaiting?
    ensures feed.frames != [] && PollStep(s, cfg.z).sent == s.sent
    ensures var rest := feed.(frames := feed.frames[1..]);
            && EndsAs(rest, PollStep(s, cfg.z).ackbuf, DEFAULT_MAX_FRAME_SIZE, cfg.z)
            && AckLoop(Count(s), feed, patience) == AckLoop(Count(s), rest, Less(patience))
  {
    DrainHead(s.ackbuf, DEFAULT_MAX_FRAME_SIZE, cfg.z);
    hide Decode, Drain;
  }
}
