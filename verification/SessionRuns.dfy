/** Runs of a session that do happen: calls that are confirmed, by their own acks and by those of others. */
module SessionRuns {
  import opened Bytes
  import opened Frames
  import opened FrameLaws
  import opened Connection
  import opened Client
  import opened Delivery
  import opened Session

  lemma {:induction false} RunAppend(s: Sys, one: seq<Action>, two: seq<Action>, cfg: Cfg)
    ensures Run(s, one + two, cfg) == Run(Run(s, one, cfg), two, cfg)
    decreases |one|
  {
    hide Next;
    if one == [] {
      assert one + two == two;
    } else {
      RunAppend(Next(s, one[0], cfg), one[1..], two, cfg);
      assert (one + two)[1..] == one[1..] + two;
    }
  }

  lemma RunOne(s: Sys, a: Action, cfg: Cfg)
    ensures Run(s, [a], cfg) == Next(s, a, cfg)
  {
    hide Next;
    assert [a][1..] == [];
  }

  lemma Extend(start: Sys, before: seq<Action>, s: Sys, a: Action, cfg: Cfg) returns (actions: seq<Action>, after: Sys)
    requires s == Run(start, before, cfg)
    ensures actions == before + [a] && after == Run(start, actions, cfg) == Next(s, a, cfg)
  {
    RunAppend(start, before, [a], cfg);
    RunOne(s, a, cfg);
    actions, after := before + [a], Next(s, a, cfg);
  }

  lemma MovedAll(src: seq<byte>)
    ensures Moved(src, |src|) == (src, [])
  {
    assert src[..|src|] == src && src[|src|..] == [];
  }

  // ---------------------------------------------------------------------------
  // The server answers every call that it can read
  // ---------------------------------------------------------------------------

  /** Actions after a call has been made, before the caller makes the next. */
  ghost predicate WithinCall(actions: seq<Action>) {
    forall a :: a in actions ==> !a.Send? && !a.Retry?
  }

  /** The server still runs, and the calls before number `end` are such that it can make their batches. */
  ghost predicate Healthy(s: Sys, end: nat, cfg: Cfg) {
    && !s.conn.phase.Closed? && |s.conn.dispatched| <= end <= |s.sent|
    && forall k :: |s.conn.dispatched| <= k < end ==> Wholesome(s.sent[k], cfg)
  }

  ghost predicate Wholesome(c: Call, cfg: Cfg) {
    && c.fed == BatchFrames(c.order.events, c.order.packed, cfg.z)
    && Deliverable(c.order, cfg.max, cfg.z)
  }

  /** Only the server's side and the replies differ, and nothing that was written is unwritten. */
  predicate SameClient(s: Sys, after: Sys) {
    && after == s.(inbuf := after.inbuf, conn := after.conn, consumed := after.consumed, reply := after.reply)
    && s.conn.written <= after.conn.written
  }

  /** The server is not in the middle of call `end`. */
  predicate ShortOf(s: Sys, end: nat) {
    |s.conn.dispatched| < end || s.conn.phase.AwaitAck? || s.conn.phase.ExpectWindow?
  }

  function Distance(s: Sys): nat {
    match s.conn.phase
    case Collecting(_, inner, _, _) => |inner| + 1
    case AwaitAck(_) => if s.consumed < |s.conn.dispatched| then 2 else 1
    case _ => 0
  }

  predicate Closer(after: Sys, s: Sys) {
    var d, e := |s.conn.dispatched|, |after.conn.dispatched|;
    d < e || (d == e && (|after.inbuf| < |s.inbuf| || (|after.inbuf| == |s.inbuf| && Distance(after) < Distance(s))))
  }

  /** As long as it has not come that far, there is an action that brings the server nearer. */
  lemma Onward(s: Sys, end: nat, cfg: Cfg) returns (a: Action)
    requires Faithful(cfg.z) && Inv(s, cfg.z) && Healthy(s, end, cfg) && s.up == [] && s.outbox == []
    requires ShortOf(s, end) && !(s.conn.phase.ExpectWindow? && |s.conn.dispatched| == end)
    ensures WithinCall([a])
    ensures var after := Next(s, a, cfg);
            SameClient(s, after) && Healthy(after, end, cfg) && ShortOf(after, end) && Closer(after, s)
  {
    hide Faithful, Decode, Encode, EncodeAll, OnFrame, OnInner, Midway, Wholesome, ReplySide, ReceiptSide, CallOk;
    var p, d := s.conn.phase, |s.conn.dispatched|;
    if p.Dispatching? {
      a := AdmitBatch;
    } else if p.AwaitAck? {
      a := if s.consumed < d then Consume else FinalAck;
    } else {
      a := Serve;
      assert Wholesome(s.sent[d], cfg);
      ServeOnward(s, cfg);
    }
  }

  lemma ServeOnward(s: Sys, cfg: Cfg)
    requires Faithful(cfg.z) && InOrder(s, cfg.z) && ServerSide(s, cfg.z) && s.up == [] && s.outbox == []
    requires |s.conn.dispatched| < |s.sent| && Wholesome(s.sent[|s.conn.dispatched|], cfg)
    requires s.conn.phase.ExpectWindow? || s.conn.phase.Collecting?
    ensures var after := ServeStep(s, cfg);
            && after == s.(inbuf := after.inbuf, conn := s.conn.(phase := after.conn.phase))
            && (after.conn.phase.Collecting? || after.conn.phase.Dispatching?) && Closer(after, s)
  {
    hide Faithful, Decode, Encode, EncodeAll, OnFrame, OnInner, Midway, Within, SizedBatch, BatchFrames, FramesRead, Unread;
    var p, c := s.conn.phase, s.sent[|s.conn.dispatched|];
    EventsFit(c.order.events, c.order.packed, cfg.max, cfg.z);
    if AtRead(p) {
      ServeFrame(s, cfg);
    } else if !Filled(p) {
      forall i | 0 <= i < |c.order.events|
        ensures |c.order.events[i]| <= cfg.max
      {
        assert Fits(EventFrames(c.order.events)[i], cfg.max, cfg.z);
      }
      InnerKept(p, c.order, cfg.max, cfg.z);
    }
  }

  lemma {:induction false} ServeUntil(s: Sys, end: nat, cfg: Cfg) returns (actions: seq<Action>)
    requires Faithful(cfg.z) && Inv(s, cfg.z) && Healthy(s, end, cfg) && s.up == [] && s.outbox == [] && ShortOf(s, end)
    ensures WithinCall(actions)
    ensures var after := Run(s, actions, cfg);
            && SameClient(s, after) && Inv(after, cfg.z)
            && after.conn.phase.ExpectWindow? && |after.conn.dispatched| == end
    decreases end - |s.conn.dispatched|, |s.inbuf|, Distance(s)
  {
    hide Faithful, Inv, Next, ShortOf, Wholesome;
    if s.conn.phase.ExpectWindow? && |s.conn.dispatched| == end {
      return [];
    }
    var a := Onward(s, end, cfg);
    NextKept(s, a, cfg);
    var rest := ServeUntil(Next(s, a, cfg), end, cfg);
    actions := [a] + rest;
    assert actions[1..] == rest;
  }

  // ---------------------------------------------------------------------------
  // The client takes the acks that have arrived
  // ---------------------------------------------------------------------------

  /** Among the acks to be taken, the one of batch `j` is large enough for the current call. */
  ghost predicate EnoughToCome(s: Sys, j: nat) {
    && s.taken <= |s.conn.written| && s.sent != []
    && BatchOfAck(s.conn, s.taken) <= j < |Finals(s.conn.written)| && Finals(s.conn.written)[j] >= Count(s)
  }

  lemma SomeToTake(s: Sys, j: nat)
    requires EnoughToCome(s, j)
    ensures s.taken < |s.conn.written|
    ensures var f := s.conn.written[s.taken];
            f.Ack? && f.num < Count(s) ==> BatchOfAck(s.conn, s.taken + 1) <= j
  {
    hide Finals;
    var written := s.conn.written;
    assert written[..|written|] == written;
    if s.taken < |written| {
      assert written[..s.taken + 1] == written[..s.taken] + [written[s.taken]];
      FinalsPush(written[..s.taken], written[s.taken]);
      if written[s.taken].Ack? && written[s.taken].num > 0 {
        FinalAt(written, s.taken);
      }
    }
  }

  /** One poll confirms the call, or leaves it waiting for an ack that is to come. */
  lemma PollProgress(s: Sys, j: nat, cfg: Cfg)
    requires Faithful(cfg.z) && Inv(s, cfg.z) && s.caller.Awaiting? && s.down == [] && s.reply == []
    requires EnoughToCome(s, j)
    ensures var after := Run(s, [Poll], cfg);
            && Inv(after, cfg.z)
            && after == s.(caller := after.caller, receipts := after.receipts, taken := s.taken + 1, ackbuf := after.ackbuf)
            && after.taken <= |s.conn.written|
            && if after.caller.Idle? then after.receipts == s.receipts + [Receipt(|s.sent| - 1, s.taken)]
               else after.caller.Awaiting? && after.receipts == s.receipts && EnoughToCome(after, j)
  {
    hide Faithful, Inv, Decode, EncodeAll, Finals;
    RunOne(s, Poll, cfg);
    PollKept(s, cfg);
    AckTaken(s, cfg.z);
    SomeToTake(s, j);
    assert [] + [] == s.down + s.reply;
  }

  lemma {:induction false} PollUntil(s: Sys, j: nat, cfg: Cfg) returns (actions: seq<Action>)
    requires Faithful(cfg.z) && Inv(s, cfg.z) && s.caller.Awaiting? && s.down == [] && s.reply == []
    requires EnoughToCome(s, j)
    ensures WithinCall(actions)
    ensures var after := Run(s, actions, cfg);
            && after == s.(caller := Idle, receipts := after.receipts, taken := after.taken, ackbuf := after.ackbuf)
            && s.receipts <= after.receipts && |after.receipts| == |s.receipts| + 1
    decreases if s.taken <= |s.conn.written| then |s.conn.written| - s.taken else 0
  {
    SomeToTake(s, j);
    PollProgress(s, j, cfg);
    hide Faithful, Inv, EnoughToCome, Run;
    var next := Run(s, [Poll], cfg);
    if next.caller.Idle? {
      actions := [Poll];
    } else {
      var rest := PollUntil(next, j, cfg);
      actions := [Poll] + rest;
      RunAppend(s, [Poll], rest, cfg);
    }
  }

  // ---------------------------------------------------------------------------
  // One call
  // ---------------------------------------------------------------------------

  /** The call is made and its bytes go to the server. */
  lemma Begun(s: Sys, o: Order, cfg: Cfg) returns (actions: seq<Action>)
    requires Faithful(cfg.z) && s.caller.Idle? && Feedable(o, cfg.z)
    ensures WithinCall(actions)
    ensures Run(Made(s, o, cfg.z), actions, cfg)
            == Made(s, o, cfg.z).(caller := Awaiting, outbox := [], up := [], inbuf := Upstream(Made(s, o, cfg.z)))
  {
    hide Faithful, EncodeAll, PlanOf, BatchFrames, Moved;
    var m := Made(s, o, cfg.z);
    MovedAll(m.outbox);
    MovedAll(m.up + m.outbox);
    assert m.inbuf + (m.up + m.outbox) == Upstream(m);
    var t;
    actions := [];
    actions, t := Extend(m, actions, m, Transmit(|m.outbox|), cfg);
    actions, t := Extend(m, actions, t, Arrive(|m.up + m.outbox|), cfg);
    actions, t := Extend(m, actions, t, Flushed, cfg);
  }

  /** What a call that feeds all its frames does first. */
  function Made(s: Sys, o: Order, z: Zlib): Sys {
    s.(caller := Sending(None),
       sent := s.sent + [Call(o, BatchFrames(o.events, o.packed, z))],
       outbox := s.outbox + EncodeAll(BatchFrames(o.events, o.packed, z), z))
  }

  /** A call of which no write fails. */
  function WholeSend(o: Order, z: Zlib): Action {
    Send(o, |BatchFrames(o.events, o.packed, z)|, WriteTimeout)
  }

  lemma SendIsMade(s: Sys, o: Order, cfg: Cfg)
    requires Faithful(cfg.z) && s.caller.Idle? && Feedable(o, cfg.z)
    ensures Next(s, WholeSend(o, cfg.z), cfg) == Made(s, o, cfg.z)
  {
    PlanIsWhole(o, cfg.z);
    hide Faithful, EncodeAll, PlanOf;
    var fs := BatchFrames(o.events, o.packed, cfg.z);
    assert fs[..|fs|] == fs;
  }

  lemma DeliverableFeeds(o: Order, cfg: Cfg)
    requires Deliverable(o, cfg.max, cfg.z)
    ensures Feedable(o, cfg.z) && SizedBatch(o.events, o.packed, cfg.z)
  {
  }

  /** The replies go to the client. */
  lemma RepliesArrive(s: Sys, cfg: Cfg) returns (actions: seq<Action>)
    ensures WithinCall(actions)
    ensures Run(s, actions, cfg) == s.(reply := [], down := [], ackbuf := Downstream(s))
  {
    hide Moved;
    MovedAll(s.reply);
    MovedAll(s.down + s.reply);
    assert s.ackbuf + (s.down + s.reply) == Downstream(s);
    var t;
    actions := [];
    actions, t := Extend(s, actions, s, PushReply(|s.reply|), cfg);
    actions, t := Extend(s, actions, t, AckArrive(|s.down + s.reply|), cfg);
  }

  /** The acks that were written arrive, and one of them is large enough. */
  lemma TakeAcks(s: Sys, j: nat, cfg: Cfg) returns (actions: seq<Action>)
    requires Faithful(cfg.z) && Inv(s, cfg.z) && s.caller.Awaiting? && EnoughToCome(s, j)
    ensures WithinCall(actions)
    ensures var after := Run(s, actions, cfg);
            && after.caller.Idle? && after.sent == s.sent && after.conn == s.conn
            && s.receipts <= after.receipts && |after.receipts| == |s.receipts| + 1
  {
    hide Faithful, Inv, Next, Run, Finals;
    var push := RepliesArrive(s, cfg);
    WithinKept(s, push, cfg);
    var poll := PollUntil(Run(s, push, cfg), j, cfg);
    RunAppend(s, push, poll, cfg);
    actions := push + poll;
  }

  /** A call that is made while the server is to answer the calls before number `end`, one of them large enough:
      it is confirmed. */
  lemma CallThrough(s: Sys, o: Order, end: nat, j: nat, cfg: Cfg) returns (actions: seq<Action>)
    requires Faithful(cfg.z) && Inv(s, cfg.z) && s.caller.Idle? && Feedable(o, cfg.z)
    requires Healthy(Made(s, o, cfg.z), end, cfg) && ShortOf(s, end)
    requires s.taken <= |s.conn.written| && BatchOfAck(s.conn, s.taken) <= j < end
    requires j < |s.sent| ==> |s.sent[j].order.events| >= |o.events|
    ensures WithinCall(actions)
    ensures var after := Run(Made(s, o, cfg.z), actions, cfg);
            && after.caller.Idle? && after.sent == Made(s, o, cfg.z).sent
            && s.receipts <= after.receipts && |after.receipts| == |s.receipts| + 1
            && after.conn.phase.ExpectWindow? && |after.conn.dispatched| == end
  {
    hide Faithful, Inv, Next, Run, BatchFrames, EncodeAll, Finals, Wholesome, Feedable;
    var m := Made(s, o, cfg.z);
    MadeKept(s, o, cfg);
    var begin := Begun(s, o, cfg);
    var begun := Run(m, begin, cfg);
    WithinKept(m, begin, cfg);
    var serve := ServeUntil(begun, end, cfg);
    var served := Run(begun, serve, cfg);
    WrittenEnough(s, o, served, j, cfg);
    var take := TakeAcks(served, j, cfg);
    RunAppend(m, begin, serve, cfg);
    RunAppend(m, begin + serve, take, cfg);
    actions := begin + serve + take;
  }

  /** The same where the ack is already written, whatever has become of the server. */
  lemma CallOnWritten(s: Sys, o: Order, j: nat, cfg: Cfg) returns (actions: seq<Action>)
    requires Faithful(cfg.z) && Inv(s, cfg.z) && s.caller.Idle? && Feedable(o, cfg.z)
    requires s.taken <= |s.conn.written| && BatchOfAck(s.conn, s.taken) <= j < |Finals(s.conn.written)|
    requires j < |s.sent| && |s.sent[j].order.events| >= |o.events|
    ensures WithinCall(actions)
    ensures var after := Run(Made(s, o, cfg.z), actions, cfg);
            after.conn == s.conn && |after.receipts| == |s.receipts| + 1
  {
    hide Faithful, Inv, Next, Run, BatchFrames, EncodeAll, Finals, Feedable;
    var m := Made(s, o, cfg.z);
    MadeKept(s, o, cfg);
    var begin := Begun(s, o, cfg);
    var begun := Run(m, begin, cfg);
    WithinKept(m, begin, cfg);
    WrittenEnough(s, o, begun, j, cfg);
    var take := TakeAcks(begun, j, cfg);
    RunAppend(m, begin, take, cfg);
    actions := begin + take;
  }

  lemma MadeKept(s: Sys, o: Order, cfg: Cfg)
    requires Faithful(cfg.z) && Inv(s, cfg.z) && s.caller.Idle? && Feedable(o, cfg.z)
    ensures Inv(Made(s, o, cfg.z), cfg.z)
  {
    hide Faithful, Inv, Next, BatchFrames, EncodeAll;
    SendIsMade(s, o, cfg);
    NextKept(s, WholeSend(o, cfg.z), cfg);
  }

  lemma WithinKept(s: Sys, actions: seq<Action>, cfg: Cfg)
    requires Faithful(cfg.z) && Inv(s, cfg.z) && WithinCall(actions)
    ensures Inv(Run(s, actions, cfg), cfg.z)
  {
    hide Faithful, Inv, Run;
    RunKept(s, actions, cfg);
  }

  /** Ack `j` is written, to be taken, and large enough. */
  lemma WrittenEnough(s: Sys, o: Order, ready: Sys, j: nat, cfg: Cfg)
    requires Inv(ready, cfg.z) && Feedable(o, cfg.z)
    requires j < |Finals(ready.conn.written)| || (ready.conn.phase.ExpectWindow? && j < |ready.conn.dispatched|)
    requires s.taken <= |s.conn.written| && s.conn.written <= ready.conn.written && ready.taken == s.taken
    requires ready.sent == s.sent + [Call(o, BatchFrames(o.events, o.packed, cfg.z))]
    requires BatchOfAck(s.conn, s.taken) <= j <= |s.sent|
    requires j < |s.sent| ==> |s.sent[j].order.events| >= |o.events|
    ensures EnoughToCome(ready, j)
  {
    hide BatchFrames, EncodeAll, ServerSide, ReceiptSide, Finals;
    assert ready.conn.written[..s.taken] == s.conn.written[..s.taken];
    assert CallOk(ready.sent[j], cfg.z);
  }

  // ---------------------------------------------------------------------------
  // Every list of calls can be confirmed
  // ---------------------------------------------------------------------------

  /** Safety is not for want of confirmations: whatever calls the server can take, some run without an error
      confirms them all. */
  lemma {:induction false} CallsConfirmed(orders: seq<Order>, cfg: Cfg) returns (actions: seq<Action>)
    requires Faithful(cfg.z) && forall i :: 0 <= i < |orders| ==> Deliverable(orders[i], cfg.max, cfg.z)
    ensures Allowed(actions, false, cfg.z)
    ensures var s := Run(START, actions, cfg);
            && s.caller.Idle? && s.conn.phase.ExpectWindow?
            && |s.sent| == |s.conn.dispatched| == |s.receipts| == |orders|
            && forall i :: 0 <= i < |orders| ==> s.sent[i].order == orders[i]
    decreases |orders|
  {
    hide Faithful, Inv, Next, Run, BatchFrames, EncodeAll, Punctual, Deliverable, Feedable, Disciplined, WithinCall, Finals;
    if orders == [] {
      RunNothing(START, cfg);
      return [];
    }
    var n := |orders| - 1;
    var o := orders[n];
    var before := CallsConfirmed(orders[..n], cfg);
    var s := Run(START, before, cfg);
    StartKept(cfg.z);
    StartPunctual();
    RunPunctual(START, before, cfg);
    PunctualTaken(s);
    DeliverableFeeds(o, cfg);
    SendIsMade(s, o, cfg);
    var send := WholeSend(o, cfg.z);
    var rest := CallThrough(s, o, n + 1, n, cfg);
    var called, made := Extend(START, before, s, send, cfg);
    RunAppend(START, called, rest, cfg);
    AllowedOn(before, o, rest, false, cfg.z);
    actions := called + rest;
  }

  lemma PunctualTaken(s: Sys)
    requires Punctual(s)
    ensures s.taken <= |s.conn.written| && BatchOfAck(s.conn, s.taken) == |s.receipts|
  {
  }

  lemma RunNothing(s: Sys, cfg: Cfg)
    ensures Run(s, [], cfg) == s
  {
  }

  // ---------------------------------------------------------------------------
  // When a call can be confirmed without its batch
  // ---------------------------------------------------------------------------

  /** Within one call, new receipts are for it and for acks that were not yet taken. */
  ghost predicate OfCall(s: Sys, after: Sys) {
    && after.sent == s.sent && s.conn.written <= after.conn.written
    && s.taken <= after.taken && s.receipts <= after.receipts
    && (s.conn.phase.Closed? ==> after.conn == s.conn)
    && forall i :: |s.receipts| <= i < |after.receipts| ==>
         after.receipts[i].call == |s.sent| - 1 && after.receipts[i].frame >= s.taken
  }

  lemma NextOfCall(s: Sys, a: Action, cfg: Cfg)
    requires !a.Send? && !a.Retry?
    ensures OfCall(s, Next(s, a, cfg))
  {
    hide Decode, Encode, OnFrame, OnInner, Moved;
  }

  lemma {:induction false} RunOfCall(s: Sys, actions: seq<Action>, cfg: Cfg)
    requires WithinCall(actions)
    ensures OfCall(s, Run(s, actions, cfg))
    decreases |actions|
  {
    hide Next;
    if actions != [] {
      assert actions[0] in actions;
      NextOfCall(s, actions[0], cfg);
      RunOfCall(Next(s, actions[0], cfg), actions[1..], cfg);
    }
  }

  /** Before the caller makes its next call, the call just made returns Ok although the server has no batch of it. */
  ghost predicate ConfirmedWithoutBatch(made: Sys, rest: seq<Action>, cfg: Cfg) {
    var after := Run(made, rest, cfg);
    WithinCall(rest) && |after.receipts| > |made.receipts| && |after.conn.dispatched| < |made.sent|
  }

  /** Earlier call `j` has at least `n` events, and its ack was not yet taken. */
  ghost predicate Outstanding(s: Sys, j: nat, n: nat) {
    && s.taken <= |s.conn.written|
    && BatchOfAck(s.conn, s.taken) <= j < |s.sent| && |s.sent[j].order.events| >= n
  }

  /** The ack of call `j` is written, or the server can still write it: it runs, and it can make the batches of
      the calls up to `j` that it has not made. */
  ghost predicate Answerable(s: Sys, j: nat, cfg: Cfg) {
    || j < |Finals(s.conn.written)|
    || (!s.conn.phase.Closed? && forall k :: |s.conn.dispatched| <= k <= j && k < |s.sent| ==> Wholesome(s.sent[k], cfg))
  }

  /** The frames that the server has read were within its limit, and the calls that it made batches of were whole. */
  ghost predicate ReadFits(s: Sys, cfg: Cfg) {
    var p, d := s.conn.phase, |s.conn.dispatched|;
    && d <= |s.sent|
    && (forall k :: 0 <= k < |s.sent| ==> Planned(s.sent[k], cfg.z))
    && (forall k :: 0 <= k < d ==> Wholesome(s.sent[k], cfg))
    && (d < |s.sent| && !p.AwaitAck? && !p.Closed? ==> BeginningFits(p, s.sent[d], cfg))
  }

  ghost predicate Planned(c: Call, z: Zlib) {
    c.fed <= PlanOf(c.order.events, c.order.packed, z).frames
  }

  ghost predicate BeginningFits(p: Phase, c: Call, cfg: Cfg) {
    var k := FramesRead(p, c.order, cfg.z);
    k <= |c.fed| && AllFit(c.fed[..k], cfg.max, cfg.z)
  }

  lemma ServeFits(s: Sys, cfg: Cfg)
    requires Faithful(cfg.z) && Inv(s, cfg.z) && ReadFits(s, cfg)
    ensures ReadFits(ServeStep(s, cfg), cfg)
  {
    hide Decode, Encode, EncodeAll, Faithful, OnFrame, OnInner, Fits, SizedBatch, BatchFrames, Midway, FramesRead, Unread,
         ReplySide, ReceiptSide, Wholesome, Planned, Backlog;
    ServeReads(s, cfg);
    var p, d, q := s.conn.phase, |s.conn.dispatched|, ServeStep(s, cfg).conn.phase;
    if d < |s.sent| && (p.Collecting? || p.ExpectWindow?) {
      var c := s.sent[d];
      var k := FramesRead(p, c.order, cfg.z);
      assert CallOk(c, cfg.z);
      if AtRead(p) {
        ServeFrame(s, cfg);
        if k < |c.fed| {
          assert c.fed[..k + 1] == c.fed[..k] + [c.fed[k]];
        }
      } else if Filled(p) {
        FilledKept(p, c.order, cfg.z);
        DispatchingRead(c.order, cfg.z);
      } else {
        InnerKept(p, c.order, cfg.max, cfg.z);
      }
    }
  }

  /** A call of which the server has read all frames is one that it can take. */
  lemma WholeIsWholesome(p: Phase, c: Call, cfg: Cfg)
    requires Faithful(cfg.z) && CallOk(c, cfg.z) && Planned(c, cfg.z) && BeginningFits(p, c, cfg) && p.Dispatching?
    ensures Wholesome(c, cfg)
  {
    hide Drain, Encode, EncodeAll, Decode, Faithful, SizedBatch, Sized, Deliverable;
    var o, all := c.order, BatchFrames(c.order.events, c.order.packed, cfg.z);
    PlanIsPart(o.events, o.packed, cfg.z);
    assert c.fed == all == PlanOf(o.events, o.packed, cfg.z).frames && c.fed[..|all|] == c.fed;
    if !o.packed {
      assert all[1..] == EventFrames(o.events);
      DrainSized(EventFrames(o.events), DEFAULT_MAX_FRAME_SIZE, cfg.z);
      forall i | 0 <= i < |o.events|
        ensures |o.events[i]| <= cfg.max && |o.events[i]| <= DEFAULT_MAX_FRAME_SIZE
      {
        assert Fits(EventFrames(o.events)[i], DEFAULT_MAX_FRAME_SIZE, cfg.z);
        assert all[i + 1] == EventFrames(o.events)[i] && Fits(all[i + 1], cfg.max, cfg.z);
      }
    } else {
      assert Fits(all[1], cfg.max, cfg.z);
    }
    NowDeliverable(o, cfg);
  }

  lemma NowDeliverable(o: Order, cfg: Cfg)
    requires SizedBatch(o.events, o.packed, cfg.z) && Within(o.events, o.packed, cfg.max, cfg.z)
    ensures Deliverable(o, cfg.max, cfg.z)
  {
  }

  lemma SendFits(s: Sys, o: Order, upto: nat, error: Error, cfg: Cfg)
    requires Inv(s, cfg.z) && ReadFits(s, cfg)
    ensures ReadFits(SendStep(s, o, upto, error, cfg.z), cfg)
  {
    hide PlanOf, EncodeAll, BatchFrames, Fits, Wholesome, InOrder, ReplySide, ReceiptSide, Midway, Unread, Backlog;
    var after := SendStep(s, o, upto, error, cfg.z);
    if |after.sent| > |s.sent| {
      assert Planned(after.sent[|s.sent|], cfg.z);
    }
  }

  /** Other actions neither make calls or batches nor have the server read. */
  lemma NothingRead(s: Sys, a: Action, cfg: Cfg)
    requires !a.Serve? && !a.Send? && !a.AdmitBatch?
    ensures var after := Next(s, a, cfg);
            && after.sent == s.sent && after.conn.dispatched == s.conn.dispatched
            && (|| after.conn.phase == s.conn.phase || after.conn.phase.Closed?
                || (s.conn.phase.AwaitAck? && after.conn.phase.ExpectWindow?))
  {
    hide Decode, Encode, EncodeAll, OnFrame, OnInner, Moved;
  }

  lemma SameFits(s: Sys, after: Sys, cfg: Cfg)
    requires ReadFits(s, cfg) && after.sent == s.sent && after.conn.dispatched == s.conn.dispatched
    requires || after.conn.phase == s.conn.phase || after.conn.phase.Closed?
             || (s.conn.phase.AwaitAck? && after.conn.phase.ExpectWindow?)
    ensures ReadFits(after, cfg)
  {
    hide Fits, BatchFrames, Planned, Wholesome;
  }

  lemma AdmitFits(s: Sys, cfg: Cfg)
    requires Faithful(cfg.z) && Inv(s, cfg.z) && ReadFits(s, cfg) && s.conn.phase.Dispatching?
    ensures ReadFits(Next(s, AdmitBatch, cfg), cfg)
  {
    hide Faithful, Fits, BatchFrames, Planned, Wholesome, ReplySide, ReceiptSide, CallOk, EncodeAll, BeginningFits;
    WholeIsWholesome(s.conn.phase, s.sent[|s.conn.dispatched|], cfg);
  }

  lemma NextFits(s: Sys, a: Action, cfg: Cfg)
    requires Faithful(cfg.z) && Inv(s, cfg.z) && ReadFits(s, cfg)
    ensures ReadFits(Next(s, a, cfg), cfg)
  {
    hide Faithful, Inv, ReadFits, ServeStep, SendStep;
    match a
    case Serve => ServeFits(s, cfg);
    case Send(o, upto, error) => SendFits(s, o, upto, error, cfg);
    case AdmitBatch =>
      if s.conn.phase.Dispatching? {
        AdmitFits(s, cfg);
      }
    case _ =>
      NothingRead(s, a, cfg);
      SameFits(s, Next(s, a, cfg), cfg);
  }

  lemma {:induction false} RunFits(s: Sys, actions: seq<Action>, cfg: Cfg)
    requires Faithful(cfg.z) && Inv(s, cfg.z) && ReadFits(s, cfg) && AllDisciplined(actions, cfg.z)
    ensures Inv(Run(s, actions, cfg), cfg.z) && ReadFits(Run(s, actions, cfg), cfg)
    decreases |actions|
  {
    hide Inv, ReadFits, Faithful, Disciplined, Next;
    if actions != [] {
      assert actions[0] in actions;
      NextKept(s, actions[0], cfg);
      NextFits(s, actions[0], cfg);
      RunFits(Next(s, actions[0], cfg), actions[1..], cfg);
    }
  }

  lemma ConfirmedByOutstanding(s: Sys, o: Order, rest: seq<Action>, cfg: Cfg) returns (j: nat)
    requires Faithful(cfg.z) && Inv(s, cfg.z) && ReadFits(s, cfg) && s.caller.Idle? && Feedable(o, cfg.z)
    requires ConfirmedWithoutBatch(Made(s, o, cfg.z), rest, cfg)
    ensures Outstanding(s, j, |o.events|) && Answerable(s, j, cfg)
  {
    hide Faithful, Run, BatchFrames, EncodeAll, ServerSide, Finals, Feedable, CallOk, Wholesome, Planned, BeginningFits;
    var made, after := Made(s, o, cfg.z), Run(Made(s, o, cfg.z), rest, cfg);
    MadeKept(s, o, cfg);
    MadeFits(s, o, cfg);
    RunFits(made, rest, cfg);
    RunOfCall(made, rest, cfg);
    var r := after.receipts[|s.receipts|];
    assert ReceiptOk(after, r);
    ReceiptMeans(after, r, cfg.z);
    j := BatchOfAck(after.conn, r.frame);
    FinalsPrefix(after.conn.written[..r.frame], s.taken);
    assert after.conn.written[..r.frame][..s.taken] == s.conn.written[..s.taken];
    FinalAt(after.conn.written, r.frame);
    forall k | |s.conn.dispatched| <= k <= j && k < |s.sent|
      ensures Wholesome(s.sent[k], cfg)
    {
      assert after.sent[k] == s.sent[k];
    }
  }

  lemma MadeFits(s: Sys, o: Order, cfg: Cfg)
    requires Faithful(cfg.z) && Inv(s, cfg.z) && ReadFits(s, cfg) && s.caller.Idle? && Feedable(o, cfg.z)
    ensures ReadFits(Made(s, o, cfg.z), cfg)
  {
    hide Faithful, Inv, Next, BatchFrames, EncodeAll, ReadFits;
    SendIsMade(s, o, cfg);
    NextFits(s, WholeSend(o, cfg.z), cfg);
  }

  lemma OutstandingConfirms(s: Sys, o: Order, j: nat, cfg: Cfg) returns (rest: seq<Action>)
    requires Faithful(cfg.z) && Inv(s, cfg.z) && s.caller.Idle? && Feedable(o, cfg.z)
    requires Outstanding(s, j, |o.events|) && Answerable(s, j, cfg)
    ensures ConfirmedWithoutBatch(Made(s, o, cfg.z), rest, cfg)
  {
    hide Faithful, Run, BatchFrames, EncodeAll, Finals, Feedable, Wholesome, CallOk, ReceiptSide, Midway, Unread;
    if j < |Finals(s.conn.written)| {
      rest := CallOnWritten(s, o, j, cfg);
    } else {
      var end := if j < |s.conn.dispatched| then |s.conn.dispatched| else j + 1;
      rest := CallThrough(s, o, end, j, cfg);
    }
  }

  lemma StartFits(cfg: Cfg)
    ensures ReadFits(START, cfg)
  {
  }

  /** After any run, errors and retries included: the next call can return Ok without a batch of its own if and only
      if the ack of an earlier call with at least as many events is still to be taken, and is written or can
      still be. */
  lemma ConfirmedWithoutBatchIff(before: seq<Action>, o: Order, cfg: Cfg)
    requires Faithful(cfg.z) && Allowed(before, true, cfg.z) && Feedable(o, cfg.z)
    requires Run(START, before, cfg).caller.Idle?
    ensures var s := Run(START, before, cfg);
            var made := Next(s, WholeSend(o, cfg.z), cfg);
            (exists rest :: ConfirmedWithoutBatch(made, rest, cfg))
            <==> (exists j :: Outstanding(s, j, |o.events|) && Answerable(s, j, cfg))
  {
    StartKept(cfg.z);
    StartFits(cfg);
    RunFits(START, before, cfg);
    hide Run, Faithful, Inv, ReadFits, Next, BatchFrames, Feedable, Outstanding, Answerable, ConfirmedWithoutBatch;
    var s := Run(START, before, cfg);
    SendIsMade(s, o, cfg);
    if rest :| ConfirmedWithoutBatch(Made(s, o, cfg.z), rest, cfg) {
      var j := ConfirmedByOutstanding(s, o, rest, cfg);
    }
    if j :| Outstanding(s, j, |o.events|) && Answerable(s, j, cfg) {
      var rest := OutstandingConfirms(s, o, j, cfg);
    }
  }

  /** A first call, whose bytes are with the server. */
  lemma FirstWaits(o: Order, cfg: Cfg) returns (actions: seq<Action>)
    requires Faithful(cfg.z) && Feedable(o, cfg.z)
    ensures Allowed(actions, false, cfg.z)
    ensures var s := Run(START, actions, cfg);
            s == Made(START, o, cfg.z).(caller := Awaiting, outbox := [], inbuf := s.inbuf)
  {
    hide Faithful, Run, Next, BatchFrames, EncodeAll, SizedBatch;
    SendIsMade(START, o, cfg);
    RunNothing(START, cfg);
    var first, made := Extend(START, [], START, WholeSend(o, cfg.z), cfg);
    var begin := Begun(START, o, cfg);
    RunAppend(START, first, begin, cfg);
    actions := first + begin;
  }

  /** It times out waiting for its ack, or is dropped, and the caller goes on. */
  lemma GivenUp(o: Order, end: Action, cfg: Cfg) returns (actions: seq<Action>)
    requires Faithful(cfg.z) && Deliverable(o, cfg.max, cfg.z) && (end.TimeOut? || end.Abandon?)
    ensures Allowed(actions, true, cfg.z) && end in actions && OneGivenUp(Run(START, actions, cfg), o, cfg)
  {
    DeliverableFeeds(o, cfg);
    MadeHealthy(o, cfg);
    hide Faithful, Inv, Run, Next, BatchFrames, EncodeAll, Deliverable, Feedable, Healthy, Disciplined;
    var wait := FirstWaits(o, cfg);
    var waiting := Run(START, wait, cfg);
    GoesOn(waiting, end, cfg);
    var s;
    actions, s := Extend(START, wait, waiting, end, cfg);
    actions, s := Extend(START, actions, s, Retry, cfg);
    SameHealth(Made(START, o, cfg.z), s, 1, cfg);
    OnlyWaited(wait, end, cfg.z);
    StartKept(cfg.z);
    RunKept(START, actions, cfg);
  }

  lemma OnlyWaited(wait: seq<Action>, end: Action, z: Zlib)
    requires Allowed(wait, false, z) && !end.Send?
    ensures Allowed(wait + [end] + [Retry], true, z)
  {
    hide SizedBatch;
  }

  lemma GoesOn(s: Sys, end: Action, cfg: Cfg)
    requires s.caller.Awaiting? && (end.TimeOut? || end.Abandon?)
    ensures Next(Next(s, end, cfg), Retry, cfg) == s.(caller := Idle)
  {
  }

  lemma MadeHealthy(o: Order, cfg: Cfg)
    requires Deliverable(o, cfg.max, cfg.z)
    ensures Healthy(Made(START, o, cfg.z), 1, cfg)
  {
    hide BatchFrames, EncodeAll, Deliverable;
  }

  /** Later calls do not matter to it. */
  lemma SameHealth(s: Sys, after: Sys, end: nat, cfg: Cfg)
    requires Healthy(s, end, cfg) && after.conn == s.conn && s.sent <= after.sent
    ensures Healthy(after, end, cfg)
  {
    hide Wholesome;
  }

  /** One call was given up, and its bytes are with the server. */
  ghost predicate OneGivenUp(s: Sys, first: Order, cfg: Cfg) {
    && s.caller.Idle? && |s.sent| == 1 && s.sent[0].order == first && s.conn == FRESH && s.taken == 0 && s.receipts == []
    && Inv(s, cfg.z) && Healthy(s, 1, cfg)
  }

  ghost predicate SecondConfirmed(s: Sys, first: Order, second: Order) {
    && |s.sent| == 2 && s.sent[0].order == first && s.sent[1].order == second
    && |s.receipts| == 1 && s.receipts[0].call == 1 && |s.conn.dispatched| == 1
  }

  lemma NextConfirmed(s: Sys, first: Order, second: Order, cfg: Cfg) returns (rest: seq<Action>)
    requires Faithful(cfg.z) && Feedable(second, cfg.z)
    requires OneGivenUp(s, first, cfg) && |second.events| <= |first.events|
    ensures WithinCall(rest)
    ensures SecondConfirmed(Run(Next(s, WholeSend(second, cfg.z), cfg), rest, cfg), first, second)
  {
    hide Faithful, Inv, Run, Next, BatchFrames, EncodeAll, Feedable, Healthy, Finals;
    SendIsMade(s, second, cfg);
    NothingTaken(s);
    SameHealth(s, Made(s, second, cfg.z), 1, cfg);
    rest := CallThrough(s, second, 1, 0, cfg);
    NewReceipt(Made(s, second, cfg.z), rest, cfg);
  }

  /** A caller that goes on after an ack timeout, or after dropping a call: the late ack of its first call confirms
      the second, of no more events, although the server has no batch of it. */
  lemma LateAckConfirmsNextCall(first: Order, second: Order, end: Action, cfg: Cfg) returns (actions: seq<Action>)
    requires end.TimeOut? || end.Abandon?
    requires Faithful(cfg.z) && Deliverable(first, cfg.max, cfg.z) && Deliverable(second, cfg.max, cfg.z)
    requires |second.events| <= |first.events|
    ensures Allowed(actions, true, cfg.z) && end in actions
    ensures var s := Run(START, actions, cfg);
            && |s.sent| == 2 && s.sent[0].order == first && s.sent[1].order == second
            && |s.receipts| == 1 && s.receipts[0].call == 1 && |s.conn.dispatched| == 1
  {
    actions := LateAckRun(first, second, end, cfg);
    hide Run, Allowed, Deliverable, Faithful;
  }

  lemma LateAckRun(first: Order, second: Order, end: Action, cfg: Cfg) returns (actions: seq<Action>)
    requires end.TimeOut? || end.Abandon?
    requires Faithful(cfg.z) && Deliverable(first, cfg.max, cfg.z) && Deliverable(second, cfg.max, cfg.z)
    requires |second.events| <= |first.events|
    ensures Allowed(actions, true, cfg.z) && end in actions && SecondConfirmed(Run(START, actions, cfg), first, second)
  {
    DeliverableFeeds(second, cfg);
    hide *;
    var before := GivenUp(first, end, cfg);
    var s := Run(START, before, cfg);
    var rest := NextConfirmed(s, first, second, cfg);
    var called, made := Extend(START, before, s, WholeSend(second, cfg.z), cfg);
    RunAppend(START, called, rest, cfg);
    AllowedOn(before, second, rest, true, cfg.z);
    actions := called + rest;
  }

  lemma AllowedOn(before: seq<Action>, o: Order, rest: seq<Action>, retries: bool, z: Zlib)
    requires Allowed(before, retries, z) && SizedBatch(o.events, o.packed, z) && WithinCall(rest)
    ensures Allowed(before + [WholeSend(o, z)] + rest, retries, z)
  {
    hide SizedBatch, BatchFrames;
  }

  lemma NewReceipt(s: Sys, actions: seq<Action>, cfg: Cfg)
    requires WithinCall(actions)
    ensures var after := Run(s, actions, cfg);
            forall i :: |s.receipts| <= i < |after.receipts| ==> after.receipts[i].call == |s.sent| - 1
  {
    hide Run;
    RunOfCall(s, actions, cfg);
  }

  lemma NothingTaken(s: Sys)
    requires s.taken == 0
    ensures BatchOfAck(s.conn, s.taken) == 0
  {
  }

  const EMPTY_EVENT: Order := Order([[]], false)

  /** Over all runs within the 32-bit sizes, session safety is what stopping at the first error buys. */
  lemma SafeIffCallerStops(retries: bool, cfg: Cfg)
    requires Faithful(cfg.z)
    ensures (forall actions :: Allowed(actions, retries, cfg.z) ==> Safe(Run(START, actions, cfg))) <==> !retries
  {
    hide Run, Faithful;
    if retries {
      assert Deliverable(EMPTY_EVENT, cfg.max, cfg.z);
      var actions := LateAckConfirmsNextCall(EMPTY_EVENT, EMPTY_EVENT, TimeOut, cfg);
      assert !Safe(Run(START, actions, cfg));
    } else {
      forall actions | Allowed(actions, false, cfg.z)
        ensures Safe(Run(START, actions, cfg))
      {
        SessionSafety(actions, cfg);
      }
    }
  }

  /** Such a call, as far as its bytes at the server. */
  lemma CutCountArrives(o: Order, cfg: Cfg) returns (actions: seq<Action>)
    requires Faithful(cfg.z) && o.events != [] && Truncate32(|o.events|) == 0
    requires o.packed || NoneAbove(o.events, DEFAULT_MAX_FRAME_SIZE)
    ensures forall a :: a in actions ==> !a.Retry?
    ensures var fs := BatchFrames(o.events, o.packed, cfg.z);
            && fs != []
            && Run(START, actions, cfg) == START.(caller := Awaiting, sent := [Call(o, fs)],
                                                  inbuf := Encode(Window(0), cfg.z) + EncodeAll(fs[1..], cfg.z))
  {
    hide Faithful, Run, BatchFrames, EncodeAll, Encode, PlanOf, Moved, FedFrames;
    var fs := BatchFrames(o.events, o.packed, cfg.z);
    var bytes := EncodeAll(fs, cfg.z);
    CutCountFrames(o, cfg);
    MovedAll(bytes);
    assert [] + bytes == bytes;
    RunNothing(START, cfg);
    var s;
    actions, s := Extend(START, [], START, WholeSend(o, cfg.z), cfg);
    actions, s := Extend(START, actions, s, Transmit(|bytes|), cfg);
    actions, s := Extend(START, actions, s, Flushed, cfg);
    actions, s := Extend(START, actions, s, Arrive(|bytes|), cfg);
  }

  /** The server's first steps over them: an empty batch is dispatched at once, and a keepalive is written. */
  lemma CutCountHeld(s: Sys, behind: seq<byte>, cfg: Cfg) returns (actions: seq<Action>)
    requires Faithful(cfg.z) && cfg.keepalive && s.conn == FRESH && s.inbuf == Encode(Window(0), cfg.z) + behind
    ensures WithinCall(actions)
    ensures Run(s, actions, cfg) == s.(conn := Conn(AwaitAck(0), [BatchData([], 0)], [Ack(0)]), inbuf := behind,
                                       reply := s.reply + Encode(Ack(0), cfg.z))
  {
    hide Faithful, Run, Encode, Decode, ServeStep;
    CutCountServed(s, behind, cfg);
    RunNothing(s, cfg);
    var t;
    actions, t := Extend(s, [], s, Serve, cfg);
    actions, t := Extend(s, actions, t, Serve, cfg);
    actions, t := Extend(s, actions, t, AdmitBatch, cfg);
    actions, t := Extend(s, actions, t, KeepAlive, cfg);
  }

  /** The sizes are needed too: a call whose count of events is cut to zero is confirmed by a keepalive, with
      nothing consumed, although its caller has met no error. */
  lemma CutCountConfirmedByKeepalive(o: Order, cfg: Cfg) returns (actions: seq<Action>)
    requires Faithful(cfg.z) && cfg.keepalive && o.events != [] && Truncate32(|o.events|) == 0
    requires o.packed || NoneAbove(o.events, DEFAULT_MAX_FRAME_SIZE)
    ensures forall a :: a in actions ==> !a.Retry?
    ensures var s := Run(START, actions, cfg);
            && s.sent == [Call(o, BatchFrames(o.events, o.packed, cfg.z))]
            && s.receipts == [Receipt(0, 0)] && s.consumed == 0 && s.conn.dispatched == [BatchData([], 0)]
            && !Safe(s)
  {
    hide Faithful, Run, BatchFrames, EncodeAll, Encode, PollStep;
    var arrive := CutCountArrives(o, cfg);
    var arrived := Run(START, arrive, cfg);
    var hold := CutCountHeld(arrived, EncodeAll(BatchFrames(o.events, o.packed, cfg.z)[1..], cfg.z), cfg);
    var held := Run(arrived, hold, cfg);
    var push := RepliesArrive(held, cfg);
    RunAppend(START, arrive, hold, cfg);
    RunAppend(START, arrive + hold, push, cfg);
    var ready := Run(held, push, cfg);
    assert [] + [] + ([] + Encode(Ack(0), cfg.z)) == Encode(Ack(0), cfg.z);
    CutCountPolled(ready, cfg);
    var s;
    actions, s := Extend(START, arrive + hold + push, ready, Poll, cfg);
  }

  lemma CutCountFrames(o: Order, cfg: Cfg)
    requires Faithful(cfg.z) && o.events != [] && Truncate32(|o.events|) == 0
    requires o.packed || NoneAbove(o.events, DEFAULT_MAX_FRAME_SIZE)
    ensures var fs := BatchFrames(o.events, o.packed, cfg.z);
            && PlanOf(o.events, o.packed, cfg.z) == Plan(fs, None) && FedFrames(o, |fs|, cfg.z) == fs
            && fs != [] && EncodeAll(fs, cfg.z) == Encode(Window(0), cfg.z) + EncodeAll(fs[1..], cfg.z)
  {
    hide Faithful, Encode, EncodeAll, Drain;
    RefeedIff(o.events, cfg.z);
    var fs := BatchFrames(o.events, o.packed, cfg.z);
    EncodeAllHead(fs, cfg.z);
    assert fs[..|fs|] == fs;
  }

  lemma CutCountServed(s: Sys, behind: seq<byte>, cfg: Cfg)
    requires Faithful(cfg.z) && s.conn.phase.ExpectWindow? && s.inbuf == Encode(Window(0), cfg.z) + behind
    ensures ServeStep(s, cfg) == WithPhase(s, Collecting(0, [], [], 0)).(inbuf := behind)
    ensures ServeStep(ServeStep(s, cfg), cfg) == WithPhase(s, Dispatching(BatchData([], 0))).(inbuf := behind)
  {
    hide Faithful, Encode, Decode;
    DecodeEncoded(Window(0), behind, cfg.max, cfg.z);
  }

  lemma CutCountPolled(s: Sys, cfg: Cfg)
    requires Faithful(cfg.z) && s.caller.Awaiting? && |s.sent| == 1 && Count(s) == 0 && s.receipts == [] && s.taken == 0
    requires s.ackbuf == Encode(Ack(0), cfg.z)
    ensures PollStep(s, cfg.z) == s.(caller := Idle, taken := 1, receipts := [Receipt(0, 0)], ackbuf := [])
  {
    hide Faithful, Encode, Decode;
    DecodeEncoded(Ack(0), [], DEFAULT_MAX_FRAME_SIZE, cfg.z);
    assert Encode(Ack(0), cfg.z) + [] == Encode(Ack(0), cfg.z);
  }
}
