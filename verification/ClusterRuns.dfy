/** The hub's runs and the connection machine: each handler is one, and every set of connections can be served. */
module ClusterRuns {
  import opened Bytes
  import opened Frames
  import opened Codec
  import opened Connection
  import opened ConnectionLaws
  import opened Cluster

  lemma {:induction false} RunAppend(s: Hub, one: seq<Action>, two: seq<Action>, capacity: nat, cfg: Cfg)
    ensures Run(s, one + two, capacity, cfg) == Run(Run(s, one, capacity, cfg), two, capacity, cfg)
    decreases |one|
  {
    hide Next;
    if one == [] {
      assert one + two == two;
    } else {
      RunAppend(Next(s, one[0], capacity, cfg), one[1..], two, capacity, cfg);
      assert (one + two)[1..] == one[1..] + two;
    }
  }

  lemma RunOne(s: Hub, a: Action, capacity: nat, cfg: Cfg)
    ensures Run(s, [a], capacity, cfg) == Next(s, a, capacity, cfg)
  {
    hide Next;
    assert [a][1..] == [];
  }

  lemma RunTwo(s: Hub, a: Action, b: Action, capacity: nat, cfg: Cfg)
    ensures Run(s, [a, b], capacity, cfg) == Next(Next(s, a, capacity, cfg), b, capacity, cfg)
  {
    RunOne(s, a, capacity, cfg);
    RunOne(Next(s, a, capacity, cfg), b, capacity, cfg);
    RunAppend(s, [a], [b], capacity, cfg);
    assert [a] + [b] == [a, b];
  }

  // ---------------------------------------------------------------------------
  // Each handler is a connection
  // ---------------------------------------------------------------------------

  /** What the connection is or, before it is accepted, will be. */
  function ConnOf(s: Hub, id: nat): Conn {
    if id < |s.handlers| then s.handlers[id].conn else FRESH
  }

  predicate Reads(s: Hub, a: Action, id: nat) {
    a.Decoded? && a.id == id < |s.handlers| && AtRead(ConnOf(s, id).phase)
  }

  /** The frames that the connection reads in a run. */
  function Input(s: Hub, actions: seq<Action>, id: nat, capacity: nat, cfg: Cfg): seq<Frame>
    decreases |actions|
  {
    if actions == [] then []
    else
      (if Reads(s, actions[0], id) then [actions[0].f] else [])
      + Input(Next(s, actions[0], capacity, cfg), actions[1..], id, capacity, cfg)
  }

  /** Where the connection's machine stands, before it reads `frames`. */
  ghost predicate Stands(w: World, c: Conn, frames: seq<Frame>) {
    w.conn == c && w.feed.frames == frames && (!c.phase.AwaitAck? ==> w.waits == [])
  }

  lemma OtherConn(s: Hub, a: Action, id: nat, capacity: nat, cfg: Cfg)
    requires Inv(s, capacity)
    ensures a.AcceptConnection? || a.AcceptLoopEnds? || a.Receive? || a.Consume? || a.HandlerReturns? || a.DropServer? ==>
              ConnOf(Next(s, a, capacity, cfg), id) == ConnOf(s, id)
    ensures !(a.AcceptConnection? || a.AcceptLoopEnds? || a.Receive? || a.Consume? || a.HandlerReturns? || a.DropServer?)
            && a.id != id ==>
              ConnOf(Next(s, a, capacity, cfg), id) == ConnOf(s, id)
  {
    hide HandlerOk, Live, OfId, UpTo, GiveUpAll, OwnPhase, Admit, Refuse, Tick, Reply;
    if a.DropServer? {
      GiveUpAllCounts(s.handlers, s.queue);
    } else if a.Consume? && a.t in s.held {
      hide GiveUp;
      GiveUpCounts(s.handlers, a.t);
    }
  }

  /** The connection reads, or takes a step over what it has read. */
  predicate OwnAction(a: Action, id: nat) {
    (a.Decoded? || a.InputEnds? || a.Unpack? || a.WindowFull?) && a.id == id
  }

  /** The connection meets the channel, the timer or the consumer. */
  predicate ChannelAction(a: Action, id: nat) {
    (a.AdmitBatch? || a.RefuseBatch? || a.KeepAlive? || a.FinalAck?) && a.id == id
  }

  /** Going back over one action: the machine takes a step, or the action is none of the connection's. */
  lemma ActionIsStep(s: Hub, a: Action, id: nat, after: World, capacity: nat, cfg: Cfg) returns (before: World)
    requires Inv(s, capacity)
    requires Stands(after, ConnOf(Next(s, a, capacity, cfg), id), after.feed.frames)
    requires ConnOf(Next(s, a, capacity, cfg), id).phase.Closed? ==> after.feed.frames == []
    ensures Stands(before, ConnOf(s, id), (if Reads(s, a, id) then [a.f] else []) + after.feed.frames)
    ensures Drive(before, cfg).conn == Drive(after, cfg).conn
  {
    OtherConn(s, a, id, capacity, cfg);
    hide Drive, Inv, Next;
    assert [] + after.feed.frames == after.feed.frames;
    if id < |s.handlers| && OwnAction(a, id) {
      before := OwnIsStep(s, a, id, after, capacity, cfg);
    } else if id < |s.handlers| && ChannelAction(a, id) {
      before := ChannelIsStep(s, a, id, after, capacity, cfg);
    } else {
      Unknown(s, a, id, capacity, cfg);
      before := after;
    }
  }

  lemma Unknown(s: Hub, a: Action, id: nat, capacity: nat, cfg: Cfg)
    ensures |s.handlers| <= id && (OwnAction(a, id) || ChannelAction(a, id)) ==> Next(s, a, capacity, cfg) == s
  {
    hide OwnPhase, Admit, Refuse, Tick, Reply;
  }

  lemma OwnIsStep(s: Hub, a: Action, id: nat, after: World, capacity: nat, cfg: Cfg) returns (before: World)
    requires id < |s.handlers| && OwnAction(a, id)
    requires Stands(after, ConnOf(Next(s, a, capacity, cfg), id), after.feed.frames)
    requires ConnOf(Next(s, a, capacity, cfg), id).phase.Closed? ==> after.feed.frames == []
    ensures Stands(before, ConnOf(s, id), (if Reads(s, a, id) then [a.f] else []) + after.feed.frames)
    ensures Drive(before, cfg).conn == Drive(after, cfg).conn
  {
    OwnMoves(s, a, id, capacity, cfg);
    before := OwnBefore(s.handlers[id].conn, a, after, cfg);
    OwnJoins(s.handlers[id].conn, a, after, cfg);
    hide Drive, Next;
    assert [] + after.feed.frames == after.feed.frames;
  }

  /** Where the machine stood. */
  function OwnBefore(c: Conn, a: Action, after: World, cfg: Cfg): World {
    var same := after.(conn := c);
    if AtRead(c.phase) && a.Decoded? then same.(feed := after.feed.(frames := [a.f] + after.feed.frames))
    else if AtRead(c.phase) && a.InputEnds? then same.(feed := Incoming([], a.end))
    else same
  }

  lemma OwnJoins(c: Conn, a: Action, after: World, cfg: Cfg)
    requires a.Decoded? || a.InputEnds? || a.Unpack? || a.WindowFull?
    requires after.conn == c.(phase := OwnPhase(c.phase, a, cfg))
    ensures Drive(OwnBefore(c, a, after, cfg), cfg).conn == Drive(after, cfg).conn
  {
    hide Drive, OnFrame, OnInner, OnEnd;
    var before := OwnBefore(c, a, after, cfg);
    if OwnPhase(c.phase, a, cfg) == c.phase && !(AtRead(c.phase) && (a.Decoded? || a.InputEnds?)) {
      assert before == after;
    } else if a.Decoded? {
      ReadsOn(before, a.f, after, cfg);
    } else if a.InputEnds? {
      EndIsStep(before, a.end, after, cfg);
    } else {
      StepOf(before, after, cfg);
    }
  }

  lemma OwnMoves(s: Hub, a: Action, id: nat, capacity: nat, cfg: Cfg)
    requires id < |s.handlers| && OwnAction(a, id)
    ensures var p, q := s.handlers[id].conn.phase, OwnPhase(s.handlers[id].conn.phase, a, cfg);
            && ConnOf(Next(s, a, capacity, cfg), id) == s.handlers[id].conn.(phase := q)
            && (q != p ==> p.ExpectWindow? || p.Collecting?) && (q.AwaitAck? ==> q == p)
  {
    hide Decode;
  }

  lemma ChannelIsStep(s: Hub, a: Action, id: nat, after: World, capacity: nat, cfg: Cfg) returns (before: World)
    requires id < |s.handlers| && ChannelAction(a, id)
    requires Stands(after, ConnOf(Next(s, a, capacity, cfg), id), after.feed.frames)
    ensures Stands(before, ConnOf(s, id), after.feed.frames)
    ensures Drive(before, cfg).conn == Drive(after, cfg).conn
  {
    var c := s.handlers[id].conn;
    before := if after.conn == c then after else ChannelBefore(c, a, after);
    if after.conn != c {
      ChannelJoins(s, a, id, before, after, capacity, cfg);
    }
  }

  /** Where the machine stood. */
  function ChannelBefore(c: Conn, a: Action, after: World): World {
    var same := after.(conn := c, waits := []);
    match a
    case AdmitBatch(_) => same.(env := [Admitted(after.waits)] + after.env)
    case RefuseBatch(_) => same.(env := [Refused] + after.env)
    case KeepAlive(_, fate) => same.(waits := [Timer(fate)] + after.waits)
    case FinalAck(_, fate) => same.(waits := [Consumed(ByDrop, fate)])
    case _ => same
  }

  lemma ChannelJoins(s: Hub, a: Action, id: nat, before: World, after: World, capacity: nat, cfg: Cfg)
    requires id < |s.handlers| && ChannelAction(a, id) && after.conn != s.handlers[id].conn
    requires after.conn == ConnOf(Next(s, a, capacity, cfg), id) && (!after.conn.phase.AwaitAck? ==> after.waits == [])
    requires before == ChannelBefore(s.handlers[id].conn, a, after)
    ensures Drive(before, cfg) == Drive(after, cfg)
  {
    hide Drive;
    assert after == Step(before, cfg);
    StepOf(before, after, cfg);
  }

  lemma ReadsOn(before: World, f: Frame, after: World, cfg: Cfg)
    requires AtRead(before.conn.phase) && before.feed.frames == [f] + after.feed.frames
    requires after == before.(conn := before.conn.(phase := OnFrame(before.conn.phase, f)), feed := after.feed)
    requires before.feed.end == after.feed.end
    ensures Drive(before, cfg).conn == Drive(after, cfg).conn
  {
    hide Drive, OnFrame;
    assert before.feed.frames[1..] == after.feed.frames;
    StepOf(before, after, cfg);
  }

  /** A closed connection stays closed, and reads nothing more. */
  lemma ClosedStays(s: Hub, a: Action, id: nat, capacity: nat, cfg: Cfg)
    requires Inv(s, capacity) && ConnOf(s, id).phase.Closed?
    ensures ConnOf(Next(s, a, capacity, cfg), id) == ConnOf(s, id)
  {
    OtherConn(s, a, id, capacity, cfg);
    hide Inv, OnFrame, OnInner, GiveUpAll, GiveUp;
  }

  lemma {:induction false} ClosedReadsNothing(s: Hub, actions: seq<Action>, id: nat, capacity: nat, cfg: Cfg)
    requires Inv(s, capacity) && ConnOf(s, id).phase.Closed?
    ensures Input(s, actions, id, capacity, cfg) == []
    decreases |actions|
  {
    hide Inv, Next;
    if actions != [] {
      ClosedStays(s, actions[0], id, capacity, cfg);
      NextKept(s, actions[0], capacity, cfg);
      ClosedReadsNothing(Next(s, actions[0], capacity, cfg), actions[1..], id, capacity, cfg);
    }
  }

  lemma {:induction false} RunIsDrive(s: Hub, actions: seq<Action>, id: nat, after: World, capacity: nat, cfg: Cfg)
    returns (before: World)
    requires Inv(s, capacity) && Stands(after, ConnOf(Run(s, actions, capacity, cfg), id), [])
    ensures Stands(before, ConnOf(s, id), Input(s, actions, id, capacity, cfg))
    ensures Drive(before, cfg).conn == Drive(after, cfg).conn
    decreases |actions|
  {
    hide Drive, Next, Inv, Reads;
    if actions == [] {
      before := after;
    } else {
      var next := Next(s, actions[0], capacity, cfg);
      NextKept(s, actions[0], capacity, cfg);
      var middle := RunIsDrive(next, actions[1..], id, after, capacity, cfg);
      if ConnOf(next, id).phase.Closed? {
        ClosedReadsNothing(next, actions[1..], id, capacity, cfg);
      }
      before := ActionIsStep(s, actions[0], id, middle, capacity, cfg);
    }
  }

  /** In every interleaving, each connection has dispatched and written what the connection handler does for some
      environment over the frames that were decoded for it, and has closed with the handler's verdict. */
  lemma HandlerIsConnection(actions: seq<Action>, id: nat, capacity: nat, cfg: Cfg)
    returns (end: Ending, env: seq<Encounter>)
    requires id < |Run(BEGIN, actions, capacity, cfg).handlers|
    ensures var c := Run(BEGIN, actions, capacity, cfg).handlers[id].conn;
            var d := Drive(Start(Incoming(Input(BEGIN, actions, id, capacity, cfg), end), env), cfg).conn;
            d.dispatched == c.dispatched && d.written == c.written && (c.phase.Closed? ==> d.phase == c.phase)
  {
    hide Drive, Run, Input;
    BeginKept(capacity);
    var c := Run(BEGIN, actions, capacity, cfg).handlers[id].conn;
    var after := World(c, Incoming([], Eof), [], []);
    QuietDrive(after, cfg);
    Unfold(after, cfg);
    var before := RunIsDrive(BEGIN, actions, id, after, capacity, cfg);
    end, env := before.feed.end, before.env;
    assert before == Start(Incoming(Input(BEGIN, actions, id, capacity, cfg), end), env);
  }

  // ---------------------------------------------------------------------------
  // Every set of connections can be served
  // ---------------------------------------------------------------------------

  /** What one connection meets. */
  datatype Script = Script(feed: Incoming, env: seq<Encounter>)

  ghost predicate NoneRefused(env: seq<Encounter>) {
    forall i :: 0 <= i < |env| ==> env[i].Admitted?
  }

  /** The server receives, and its channel is empty. */
  ghost predicate Ready(s: Hub, capacity: nat) {
    Inv(s, capacity) && s.receiving && s.queue == [] && capacity > 0
  }

  /** Only connection `id` and the tokens differ. */
  ghost predicate SameOthers(s: Hub, after: Hub, id: nat)
    requires id < |s.handlers|
  {
    && |after.handlers| == |s.handlers|
    && after.handlers == s.handlers[id := s.handlers[id].(conn := after.handlers[id].conn,
                                                         consumed := after.handlers[id].consumed)]
    && after.active == s.active && after.accepting == s.accepting
  }

  /** A connection that has finished has no batch left. */
  predicate NoneLeft(h: Handler) {
    h.conn.phase == Closed(Finished) ==> h.consumed == |h.conn.dispatched|
  }

  /** The actions of the hub that make up one step of the connection's machine. */
  lemma StepIsActions(s: Hub, id: nat, w: World, capacity: nat, cfg: Cfg) returns (actions: seq<Action>)
    requires Ready(s, capacity) && id < |s.handlers| && w.conn == s.handlers[id].conn && NoneLeft(s.handlers[id])
    requires !Stuck(w) && NoneRefused(w.env)
    ensures var after := Run(s, actions, capacity, cfg);
            && Ready(after, capacity) && SameOthers(s, after, id)
            && after.handlers[id].conn == Step(w, cfg).conn && NoneLeft(after.handlers[id])
  {
    var p := w.conn.phase;
    if p.AwaitAck? {
      actions := WaitIsActions(s, id, w, capacity, cfg);
    } else if p.Dispatching? {
      actions := DispatchIsActions(s, id, w, capacity, cfg);
    } else {
      var a := ReadIsAction(s, id, w, capacity, cfg);
      RunOne(s, a, capacity, cfg);
      NextKept(s, a, capacity, cfg);
      actions := [a];
      hide Inv;
    }
  }

  /** Between batches nothing is left with the consumer. */
  lemma AllConsumed(s: Hub, id: nat, capacity: nat)
    requires Inv(s, capacity) && id < |s.handlers|
    ensures var h := s.handlers[id];
            && h.consumed <= |h.conn.dispatched| <= h.consumed + 1
            && (h.consumed < |h.conn.dispatched| ==> h.conn.phase.AwaitAck? || h.conn.phase.Closed?)
  {
    hide Kept, Conserved, Fifo, Live;
    assert HandlerOk(s.handlers[id]);
  }

  lemma ReadIsAction(s: Hub, id: nat, w: World, capacity: nat, cfg: Cfg) returns (a: Action)
    requires Inv(s, capacity) && id < |s.handlers| && w.conn == s.handlers[id].conn
    requires w.conn.phase.ExpectWindow? || w.conn.phase.Collecting?
    ensures var after, h := Next(s, a, capacity, cfg), s.handlers[id];
            && after == s.(handlers := s.handlers[id := h.(conn := Step(w, cfg).conn)])
            && h.consumed == |h.conn.dispatched| == |Step(w, cfg).conn.dispatched|
  {
    AllConsumed(s, id, capacity);
    hide Inv, Decode, OnInner, OnFrame, OnEnd;
    var p := w.conn.phase;
    if Filled(p) {
      a := WindowFull(id);
    } else if p.Collecting? && p.inner != [] {
      a := Unpack(id);
    } else if w.feed.frames == [] {
      a := InputEnds(id, w.feed.end);
    } else {
      a := Decoded(id, w.feed.frames[0]);
    }
  }

  lemma DispatchIsActions(s: Hub, id: nat, w: World, capacity: nat, cfg: Cfg) returns (actions: seq<Action>)
    requires Ready(s, capacity) && id < |s.handlers| && w.conn == s.handlers[id].conn
    requires w.conn.phase.Dispatching? && w.env != [] && w.env[0].Admitted?
    ensures var after := Run(s, actions, capacity, cfg);
            && Ready(after, capacity) && SameOthers(s, after, id)
            && after.handlers[id].conn == Step(w, cfg).conn && NoneLeft(after.handlers[id])
  {
    hide Inv, Next;
    actions := [AdmitBatch(id), Receive];
    RunTwo(s, AdmitBatch(id), Receive, capacity, cfg);
    NextKept(s, AdmitBatch(id), capacity, cfg);
    NextKept(Next(s, AdmitBatch(id), capacity, cfg), Receive, capacity, cfg);
    AdmittedAndReceived(s, id, capacity, cfg);
  }

  lemma AdmittedAndReceived(s: Hub, id: nat, capacity: nat, cfg: Cfg)
    requires CanAdmit(s, id, capacity) && s.queue == []
    ensures var h, t := s.handlers[id], Token(id, |s.handlers[id].conn.dispatched|);
            Next(Next(s, AdmitBatch(id), capacity, cfg), Receive, capacity, cfg)
            == s.(handlers := s.handlers[id := h.(conn := Admit(h.conn))], held := s.held + {t},
                  admitted := s.admitted + [t], taken := s.taken + [t])
  {
    assert (s.queue + [Token(id, |s.handlers[id].conn.dispatched|)])[1..] == [];
  }

  lemma WaitIsActions(s: Hub, id: nat, w: World, capacity: nat, cfg: Cfg) returns (actions: seq<Action>)
    requires Ready(s, capacity) && id < |s.handlers| && w.conn == s.handlers[id].conn
    requires w.conn.phase.AwaitAck? && w.waits != []
    ensures var after := Run(s, actions, capacity, cfg);
            && Ready(after, capacity) && SameOthers(s, after, id)
            && after.handlers[id].conn == Step(w, cfg).conn && NoneLeft(after.handlers[id])
  {
    hide Inv, Next;
    var h := s.handlers[id];
    match w.waits[0]
    case Timer(fate) =>
      RunOne(s, KeepAlive(id, fate), capacity, cfg);
      NextKept(s, KeepAlive(id, fate), capacity, cfg);
      KeptAlive(s, id, fate, capacity, cfg);
      actions := [KeepAlive(id, fate)];
    case Consumed(_, fate) =>
      var t := Token(id, h.consumed);
      AllConsumed(s, id, capacity);
      HeldUntilConsumed(s, id, capacity);
      RunTwo(s, Consume(t), FinalAck(id, fate), capacity, cfg);
      NextKept(s, Consume(t), capacity, cfg);
      NextKept(Next(s, Consume(t), capacity, cfg), FinalAck(id, fate), capacity, cfg);
      ConsumedAndAcked(s, id, fate, capacity, cfg);
      actions := [Consume(t), FinalAck(id, fate)];
  }

  lemma KeptAlive(s: Hub, id: nat, fate: Option<Error>, capacity: nat, cfg: Cfg)
    requires id < |s.handlers| && s.handlers[id].conn.phase.AwaitAck?
    ensures var h := s.handlers[id];
            Next(s, KeepAlive(id, fate), capacity, cfg)
            == if cfg.keepalive then s.(handlers := s.handlers[id := h.(conn := Tick(h.conn, fate))]) else s
  {
  }

  lemma ConsumedAndAcked(s: Hub, id: nat, fate: Option<Error>, capacity: nat, cfg: Cfg)
    requires id < |s.handlers| && s.handlers[id].conn.phase.AwaitAck?
    requires var h := s.handlers[id];
             && h.consumed <= |h.conn.dispatched| <= h.consumed + 1
             && (Token(id, h.consumed) in s.held <==> h.consumed < |h.conn.dispatched|)
    ensures var h := s.handlers[id];
            Next(Next(s, Consume(Token(id, h.consumed)), capacity, cfg), FinalAck(id, fate), capacity, cfg)
            == s.(handlers := s.handlers[id := Handler(Reply(h.conn, fate), |h.conn.dispatched|, h.live)],
                  held := s.held - {Token(id, h.consumed)})
  {
    var h := s.handlers[id];
    var next := Next(s, Consume(Token(id, h.consumed)), capacity, cfg);
    assert next == s.(handlers := s.handlers[id := h.(consumed := |h.conn.dispatched|)],
                      held := s.held - {Token(id, h.consumed)});
  }

  /** The batch that awaits its ack is with the consumer, unless it was given up. */
  lemma HeldUntilConsumed(s: Hub, id: nat, capacity: nat)
    requires Ready(s, capacity) && id < |s.handlers|
    ensures var h := s.handlers[id]; Token(id, h.consumed) in s.held <==> h.consumed < |h.conn.dispatched|
  {
    hide HandlerOk, Fifo, Live;
    assert Unconsumed(s.handlers, Token(id, s.handlers[id].consumed))
      <==> s.handlers[id].consumed < |s.handlers[id].conn.dispatched|;
  }

  /** Whatever a connection meets that is not refused, the hub has the run of it, next to all the others. */
  lemma {:induction false} DriveIsActions(s: Hub, id: nat, w: World, capacity: nat, cfg: Cfg) returns (actions: seq<Action>)
    requires Ready(s, capacity) && id < |s.handlers| && w.conn == s.handlers[id].conn && NoneLeft(s.handlers[id])
    requires NoneRefused(w.env)
    ensures var after := Run(s, actions, capacity, cfg);
            && Ready(after, capacity) && SameOthers(s, after, id)
            && after.handlers[id].conn == Drive(w, cfg).conn && NoneLeft(after.handlers[id])
    decreases |w.feed.frames|, |w.env|, Rank(w), if w.conn.phase.Closed? then 0 else 1
  {
    Unfold(w, cfg);
    if Stuck(w) {
      actions := [];
      return;
    }
    var one := StepIsActions(s, id, w, capacity, cfg);
    StepsDown(w, cfg);
    hide Ready, Step, Drive, Run, Stuck;
    var rest := DriveIsActions(Run(s, one, capacity, cfg), id, Step(w, cfg), capacity, cfg);
    RunAppend(s, one, rest, capacity, cfg);
    actions := one + rest;
  }

  /** Any number of connections is accepted. */
  lemma {:induction false} Accepted(n: nat, capacity: nat, cfg: Cfg) returns (actions: seq<Action>)
    ensures Run(BEGIN, actions, capacity, cfg) == BEGIN.(handlers := seq(n, _ => Handler(FRESH, 0, true)), active := n)
  {
    if n == 0 {
      actions := [];
    } else {
      var before := Accepted(n - 1, capacity, cfg);
      RunOne(Run(BEGIN, before, capacity, cfg), AcceptConnection, capacity, cfg);
      RunAppend(BEGIN, before, [AcceptConnection], capacity, cfg);
      actions := before + [AcceptConnection];
    }
  }

  /** The first `n` connections have had their whole runs, the others are still fresh, and no handler has returned. */
  ghost predicate ServedUpTo(s: Hub, scripts: seq<Script>, n: nat, cfg: Cfg) {
    && n <= |scripts| == |s.handlers| == s.active
    && (forall i :: 0 <= i < |s.handlers| ==> s.handlers[i].live && NoneLeft(s.handlers[i]))
    && (forall i :: 0 <= i < n ==> s.handlers[i].conn == Drive(Start(scripts[i].feed, scripts[i].env), cfg).conn)
    && (forall i :: n <= i < |s.handlers| ==> s.handlers[i].conn == FRESH)
  }

  /** For any number of connections and whatever each of them meets, short of a receiver that is gone: a run in which
      all are accepted, with the gauge at their number, and each does what its handler does alone. */
  lemma {:induction false} ConnectionsServed(scripts: seq<Script>, n: nat, capacity: nat, cfg: Cfg)
    returns (accept: seq<Action>, serve: seq<Action>)
    requires capacity > 0 && n <= |scripts| && forall i :: 0 <= i < |scripts| ==> NoneRefused(scripts[i].env)
    ensures Run(BEGIN, accept, capacity, cfg).active == |scripts|
    ensures var s := Run(BEGIN, accept + serve, capacity, cfg);
            Ready(s, capacity) && ServedUpTo(s, scripts, n, cfg)
    decreases n
  {
    hide Drive, Run, Inv;
    if n == 0 {
      accept := Accepted(|scripts|, capacity, cfg);
      serve := [];
      BeginKept(capacity);
      RunKept(BEGIN, accept, capacity, cfg);
      assert accept + serve == accept;
      return;
    }
    accept, serve := ConnectionsServed(scripts, n - 1, capacity, cfg);
    var s := Run(BEGIN, accept + serve, capacity, cfg);
    var script := scripts[n - 1];
    var more := DriveIsActions(s, n - 1, Start(script.feed, script.env), capacity, cfg);
    RunAppend(BEGIN, accept + serve, more, capacity, cfg);
    assert accept + (serve + more) == accept + serve + more;
    serve := serve + more;
  }

  /** The handlers of closed connections return one by one. */
  lemma {:induction false} HandlersReturn(s: Hub, n: nat, capacity: nat, cfg: Cfg) returns (actions: seq<Action>)
    requires n <= |s.handlers| && forall i :: 0 <= i < n ==> s.handlers[i].live && s.handlers[i].conn.phase.Closed?
    ensures var after := Run(s, actions, capacity, cfg);
            && after == s.(handlers := after.handlers, active := s.active - n) && |after.handlers| == |s.handlers|
            && (forall i :: 0 <= i < n ==> after.handlers[i] == s.handlers[i].(live := false))
            && (forall i :: n <= i < |s.handlers| ==> after.handlers[i] == s.handlers[i])
    decreases n
  {
    if n == 0 {
      actions := [];
    } else {
      var before := HandlersReturn(s, n - 1, capacity, cfg);
      var middle := Run(s, before, capacity, cfg);
      RunOne(middle, HandlerReturns(n - 1), capacity, cfg);
      RunAppend(s, before, [HandlerReturns(n - 1)], capacity, cfg);
      actions := before + [HandlerReturns(n - 1)];
    }
  }

  /** One connection's input, made of complete windows. */
  datatype Visitor = Visitor(blocks: seq<seq<Frame>>, batches: seq<BatchData>, env: seq<Encounter>)

  ghost predicate Welcome(v: Visitor, cfg: Cfg) {
    && Blocks(v.blocks, v.batches, cfg) && NoneRefused(v.env) && |v.batches| <= |v.env|
    && forall i :: 0 <= i < |v.batches| ==> Cooperative(v.env[i])
  }

  function ScriptOf(v: Visitor): Script {
    Script(Incoming(Concat(v.blocks), Eof), v.env)
  }

  lemma VisitorFinishes(v: Visitor, cfg: Cfg)
    requires Welcome(v, cfg)
    ensures var c := Drive(Start(ScriptOf(v).feed, v.env), cfg).conn;
            c.dispatched == v.batches && c.phase == Closed(Finished)
  {
    hide Drive, Block, Concat;
    var w := Start(ScriptOf(v).feed, v.env);
    assert Concat(v.blocks) + [] == Concat(v.blocks);
    var after := EveryCompleteWindow(w, v.blocks, v.batches, [], cfg);
    BoundaryVerdict(after, cfg);
    assert [] + v.batches == v.batches;
  }

  /** Any number of connections that send complete windows and consumers that give the batches up: a run in which
      each connection is accepted, with the gauge at their number, each of its batches is dispatched, received by
      the consumer in order and given up, and in the end all handlers have succeeded and returned. */
  lemma AllServed(visitors: seq<Visitor>, capacity: nat, cfg: Cfg)
    returns (accept: seq<Action>, serve: seq<Action>, leave: seq<Action>)
    requires capacity > 0 && forall i :: 0 <= i < |visitors| ==> Welcome(visitors[i], cfg)
    ensures Run(BEGIN, accept, capacity, cfg).active == |visitors|
    ensures Run(BEGIN, accept + serve, capacity, cfg).active == |visitors|
    ensures var s := Run(BEGIN, accept + serve + leave, capacity, cfg);
            && |s.handlers| == |visitors| && s.active == 0 && s.queue == []
            && forall i :: 0 <= i < |visitors| ==>
                 var h := s.handlers[i];
                 && h.conn.dispatched == visitors[i].batches && h.consumed == |visitors[i].batches|
                 && OfId(s.taken, i) == UpTo(|visitors[i].batches|)
                 && h.conn.phase == Closed(Finished) && !h.live
  {
    hide Drive, Run, Inv, OfId, UpTo, Cooperative;
    var scripts := seq(|visitors|, i requires 0 <= i < |visitors| => ScriptOf(visitors[i]));
    accept, serve := ConnectionsServed(scripts, |visitors|, capacity, cfg);
    var s := Run(BEGIN, accept + serve, capacity, cfg);
    forall i | 0 <= i < |visitors|
      ensures var c := s.handlers[i].conn; c.dispatched == visitors[i].batches && c.phase == Closed(Finished)
    {
      VisitorFinishes(visitors[i], cfg);
      assert scripts[i] == ScriptOf(visitors[i]);
    }
    leave := HandlersReturn(s, |visitors|, capacity, cfg);
    RunAppend(BEGIN, accept + serve, leave, capacity, cfg);
    forall i | 0 <= i < |visitors|
      ensures OfId(s.taken, i) == UpTo(|s.handlers[i].conn.dispatched|)
    {
      TakenInOrder(s, i, capacity);
    }
  }

  lemma TakenInOrder(s: Hub, id: nat, capacity: nat)
    requires Ready(s, capacity) && id < |s.handlers|
    ensures OfId(s.taken, id) == UpTo(|s.handlers[id].conn.dispatched|)
  {
    hide HandlerOk, Conserved, Live, OfId, UpTo;
    assert s.taken + s.queue == s.taken;
  }

  // ---------------------------------------------------------------------------
  // Shutting down
  // ---------------------------------------------------------------------------

  /** When the server is dropped, the batches in the channel are given up, a handler that waits for the channel ends
      with success, and no batch is admitted any more; after the accept loop has ended, no connection comes. */
  lemma ServerDropped(s: Hub, capacity: nat, cfg: Cfg)
    requires Inv(s, capacity)
    ensures var after := Next(s, DropServer, capacity, cfg);
            && after.queue == [] && |after.handlers| == |s.handlers|
            && (forall t :: t in s.queue ==> after.handlers[t.id].consumed == |after.handlers[t.id].conn.dispatched|)
            && (forall id :: 0 <= id < |s.handlers| && s.handlers[id].conn.phase.Dispatching? ==>
                  && Next(after, AdmitBatch(id), capacity, cfg) == after
                  && Next(after, RefuseBatch(id), capacity, cfg).handlers[id].conn
                     == s.handlers[id].conn.(phase := Closed(Finished)))
    ensures Next(Next(s, AcceptLoopEnds, capacity, cfg), AcceptConnection, capacity, cfg) == s.(accepting := false)
  {
    hide GiveUpAll, Live, Fifo, Kept;
    GiveUpAllCounts(s.handlers, s.queue);
    var after := Next(s, DropServer, capacity, cfg);
    forall t | t in s.queue
      ensures t.id < |after.handlers| && after.handlers[t.id].consumed == |after.handlers[t.id].conn.dispatched|
    {
      assert Unconsumed(s.handlers, t);
      var h := after.handlers[t.id];
      assert HandlerOk(h) && HandlerOk(s.handlers[t.id]);
      assert !Unconsumed(after.handlers, t);
      var u := Token(t.id, h.consumed);
      assert h.consumed < |h.conn.dispatched| ==> Unconsumed(after.handlers, u) && u == t;
    }
  }
}
