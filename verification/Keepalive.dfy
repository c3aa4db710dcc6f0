/** One `send` in discrete time: what the keepalive interval, the delays and the ack timeout allow. */
module Keepalive {

  /** Keepalive interval, bound on a frame's delay, bound on the wait for room in the channel, ack timeout. */
  datatype Bounds = Bounds(keepalive: nat, delay: nat, blocked: nat, timeout: nat)

  /** The request is on its way, waits for room in the channel, or is with the consumer; or the final ack
      was written. While the batch waits for room, no keepalive is sent. */
  datatype Server = Requested(age: nat) | Blocked(age: nat) | Holding(since: nat) | Replied

  datatype Flight = Flight(age: nat, final: bool)

  datatype Caller = Waiting(idle: nat) | Confirmed | TimedOut

  datatype Clock = Clock(server: Server, acks: seq<Flight>, caller: Caller)

  const BEGIN: Clock := Clock(Requested(0), [], Waiting(0))

  datatype Action = Tick | RequestArrives | Admitted | SendKeepalive | Consume | AckArrives | Expire

  function Aged(acks: seq<Flight>): seq<Flight> {
    seq(|acks|, i requires 0 <= i < |acks| => acks[i].(age := acks[i].age + 1))
  }

  /** Time passes unless something is due. */
  predicate Due(c: Clock, b: Bounds) {
    || (exists i :: 0 <= i < |c.acks| && c.acks[i].age >= b.delay)
    || match c.server
       case Requested(age) => age >= b.delay
       case Blocked(age) => age >= b.blocked
       case Holding(since) => since >= b.keepalive
       case Replied => false
  }

  function Later(s: Server): Server {
    match s
    case Requested(age) => Requested(age + 1)
    case Blocked(age) => Blocked(age + 1)
    case Holding(since) => Holding(since + 1)
    case Replied => Replied
  }

  /** An action that is not enabled changes nothing. */
  function Next(c: Clock, a: Action, b: Bounds): Clock {
    match a
    case Tick =>
      if Due(c, b) then c
      else Clock(Later(c.server), Aged(c.acks), if c.caller.Waiting? then Waiting(c.caller.idle + 1) else c.caller)
    case RequestArrives => if c.server.Requested? then c.(server := Blocked(0)) else c
    case Admitted => if c.server.Blocked? then c.(server := Holding(0)) else c
    case SendKeepalive =>
      if c.server.Holding? && c.server.since >= b.keepalive then
        c.(server := Holding(0), acks := c.acks + [Flight(0, false)])
      else c
    case Consume =>
      if c.server.Holding? then c.(server := Replied, acks := c.acks + [Flight(0, true)]) else c
    case AckArrives =>
      if c.acks == [] then c
      else
        var rest := c.(acks := c.acks[1..]);
        if !c.caller.Waiting? then rest
        else if c.acks[0].final then rest.(caller := Confirmed)
        else rest.(caller := Waiting(0))
    case Expire => if c.caller.Waiting? && c.caller.idle >= b.timeout then c.(caller := TimedOut) else c
  }

  function Run(c: Clock, actions: seq<Action>, b: Bounds): Clock
    decreases |actions|
  {
    if actions == [] then c else Run(Next(c, actions[0], b), actions[1..], b)
  }

  /** How long the client has heard nothing, by what the server and the wire are about. */
  ghost predicate Bounded(c: Clock, b: Bounds) {
    && c.caller != TimedOut
    && (forall i :: 0 <= i < |c.acks| ==> c.acks[i].age <= b.delay)
    && (c.caller.Waiting? ==>
          var idle := c.caller.idle;
          match c.server
          case Requested(age) => idle <= age <= b.delay && c.acks == []
          case Blocked(age) => age <= b.blocked && idle <= b.delay + age && c.acks == []
          case Holding(since) =>
            && since <= b.keepalive
            && idle <= b.delay + b.blocked + (if c.acks == [] then since else b.keepalive + c.acks[0].age)
          case Replied =>
            && c.acks != [] && c.acks[|c.acks| - 1].final
            && idle <= b.delay + b.blocked + b.keepalive + c.acks[0].age)
  }

  lemma NextBounded(c: Clock, a: Action, b: Bounds)
    requires Bounded(c, b) && b.keepalive + b.blocked + 2 * b.delay < b.timeout
    ensures Bounded(Next(c, a, b), b)
  {
    if a.Tick? && !Due(c, b) && c.acks != [] {
      assert Aged(c.acks)[0].age == c.acks[0].age + 1;
      assert Aged(c.acks)[|c.acks| - 1].final == c.acks[|c.acks| - 1].final;
    }
  }

  lemma {:induction false} RunBounded(c: Clock, actions: seq<Action>, b: Bounds)
    requires Bounded(c, b) && b.keepalive + b.blocked + 2 * b.delay < b.timeout
    ensures Bounded(Run(c, actions, b), b)
    decreases |actions|
  {
    hide Bounded, Next;
    if actions != [] {
      NextBounded(c, actions[0], b);
      RunBounded(Next(c, actions[0], b), actions[1..], b);
    }
  }

  lemma {:induction false} RunAppend(c: Clock, one: seq<Action>, two: seq<Action>, b: Bounds)
    ensures Run(c, one + two, b) == Run(Run(c, one, b), two, b)
    decreases |one|
  {
    hide Next;
    if one == [] {
      assert one + two == two;
    } else {
      RunAppend(Next(c, one[0], b), one[1..], two, b);
      assert (one + two)[1..] == one[1..] + two;
    }
  }

  function Ticks(n: nat): seq<Action> {
    seq(n, _ => Tick)
  }

  function After(s: Server, n: nat): Server {
    match s
    case Requested(age) => Requested(age + n)
    case Blocked(age) => Blocked(age + n)
    case Holding(since) => Holding(since + n)
    case Replied => Replied
  }

  /** As long as nothing is due, the clock runs on and the client hears nothing. */
  lemma {:induction false} TicksPass(c: Clock, n: nat, b: Bounds)
    requires c.caller.Waiting?
    requires c.acks == [] || (|c.acks| == 1 && c.acks[0].age + n <= b.delay && c.server.Replied?)
    requires match c.server
             case Requested(age) => age + n <= b.delay
             case Blocked(age) => age + n <= b.blocked
             case Holding(since) => since + n <= b.keepalive
             case Replied => true
    ensures var later := Run(c, Ticks(n), b);
            && later.server == After(c.server, n)
            && later.caller == Waiting(c.caller.idle + n)
            && |later.acks| == |c.acks|
    decreases n
  {
    if n > 0 {
      assert Ticks(n)[0] == Tick && Ticks(n)[1..] == Ticks(n - 1);
      TicksPass(Next(c, Tick, b), n - 1, b);
    }
  }

  lemma RunOne(c: Clock, a: Action, b: Bounds)
    ensures Run(c, [a], b) == Next(c, a, b)
  {
    hide Next;
    assert [a][1..] == [];
  }

  /** With a longer silence possible than the timeout, some run has it: every delay is used in full. */
  lemma SlowestRun(b: Bounds) returns (actions: seq<Action>)
    requires b.keepalive + b.blocked + 2 * b.delay >= b.timeout
    ensures Run(BEGIN, actions, b).caller == TimedOut
  {
    var c := BEGIN;
    actions := [];
    actions, c := Extend(actions, c, Ticks(b.delay), b);
    TicksPass(BEGIN, b.delay, b);
    actions, c := ExtendOne(actions, c, RequestArrives, b);
    TicksPass(c, b.blocked, b);
    actions, c := Extend(actions, c, Ticks(b.blocked), b);
    actions, c := ExtendOne(actions, c, Admitted, b);
    TicksPass(c, b.keepalive, b);
    actions, c := Extend(actions, c, Ticks(b.keepalive), b);
    actions, c := ExtendOne(actions, c, Consume, b);
    TicksPass(c, b.delay, b);
    actions, c := Extend(actions, c, Ticks(b.delay), b);
    actions, c := ExtendOne(actions, c, Expire, b);
  }

  lemma Extend(before: seq<Action>, c: Clock, more: seq<Action>, b: Bounds) returns (actions: seq<Action>, after: Clock)
    requires c == Run(BEGIN, before, b)
    ensures actions == before + more && after == Run(BEGIN, actions, b) == Run(c, more, b)
  {
    RunAppend(BEGIN, before, more, b);
    actions, after := before + more, Run(c, more, b);
  }

  lemma ExtendOne(before: seq<Action>, c: Clock, a: Action, b: Bounds) returns (actions: seq<Action>, after: Clock)
    requires c == Run(BEGIN, before, b)
    ensures actions == before + [a] && after == Run(BEGIN, actions, b) == Next(c, a, b)
  {
    actions, after := Extend(before, c, [a], b);
    RunOne(c, a, b);
  }

  /** `send` never ends in an ack timeout, however long the consumer holds the batch, if and only if the
      timeout exceeds the keepalive interval, the wait for the channel and two delays. */
  lemma NoTimeoutIff(b: Bounds)
    ensures (forall actions :: Run(BEGIN, actions, b).caller != TimedOut)
            <==> b.keepalive + b.blocked + 2 * b.delay < b.timeout
  {
    hide Run;
    if b.keepalive + b.blocked + 2 * b.delay < b.timeout {
      forall actions: seq<Action>
        ensures Run(BEGIN, actions, b).caller != TimedOut
      {
        RunBounded(BEGIN, actions, b);
      }
    } else {
      var actions := SlowestRun(b);
      assert Run(BEGIN, actions, b).caller == TimedOut;
    }
  }

  /** How much time passes, if it passes at each tick. */
  function Elapsed(actions: seq<Action>): nat {
    if actions == [] then 0 else (if actions[0].Tick? then 1 else 0) + Elapsed(actions[1..])
  }

  lemma {:induction false} ElapsedAppend(one: seq<Action>, two: seq<Action>)
    ensures Elapsed(one + two) == Elapsed(one) + Elapsed(two)
    decreases |one|
  {
    if one == [] {
      assert one + two == two;
    } else {
      ElapsedAppend(one[1..], two);
      assert (one + two)[1..] == one[1..] + two;
    }
  }

  lemma {:induction false} ElapsedTicks(n: nat)
    ensures Elapsed(Ticks(n)) == n
  {
    if n > 0 {
      assert Ticks(n)[1..] == Ticks(n - 1);
      ElapsedTicks(n - 1);
    }
  }

  const HELD: Clock := Clock(Holding(0), [], Waiting(0))

  /** An interval passes, and a keepalive reaches the client. */
  function Interval(b: Bounds): seq<Action> {
    Ticks(b.keepalive) + [SendKeepalive] + [AckArrives]
  }

  lemma IntervalPasses(b: Bounds)
    ensures Run(HELD, Interval(b), b) == HELD && Elapsed(Interval(b)) == b.keepalive
  {
    var ticks := Ticks(b.keepalive);
    TicksPass(HELD, b.keepalive, b);
    RunAppend(HELD, ticks, [SendKeepalive], b);
    RunAppend(HELD, ticks + [SendKeepalive], [AckArrives], b);
    var late := Run(HELD, ticks, b);
    RunOne(late, SendKeepalive, b);
    var sent := Next(late, SendKeepalive, b);
    RunOne(sent, AckArrives, b);
    assert late == Clock(Holding(b.keepalive), [], Waiting(b.keepalive));
    assert sent.acks == [Flight(0, false)] && sent.acks[1..] == [];
    ElapsedTicks(b.keepalive);
    ElapsedAppend(ticks, [SendKeepalive]);
    ElapsedAppend(ticks + [SendKeepalive], [AckArrives]);
  }

  /** The consumer holds the batch for `n` intervals, after each of which a keepalive reaches the client. */
  lemma {:induction false} Held(b: Bounds, n: nat) returns (actions: seq<Action>)
    ensures Run(BEGIN, actions, b) == HELD && Elapsed(actions) == n * b.keepalive
    decreases n
  {
    if n == 0 {
      var c;
      actions, c := ExtendOne([], BEGIN, RequestArrives, b);
      actions, c := ExtendOne(actions, c, Admitted, b);
      ElapsedAppend([RequestArrives], [Admitted]);
    } else {
      hide Run, Interval;
      var before := Held(b, n - 1);
      IntervalPasses(b);
      RunAppend(BEGIN, before, Interval(b), b);
      ElapsedAppend(before, Interval(b));
      actions := before + Interval(b);
      assert (n - 1) * b.keepalive + b.keepalive == n * b.keepalive;
    }
  }

  /** However long that is, the call is confirmed when the consumer gives the batch up. */
  lemma HeldThenConfirmed(b: Bounds, n: nat) returns (actions: seq<Action>)
    ensures Run(BEGIN, actions, b).caller == Confirmed && Elapsed(actions) == n * b.keepalive
  {
    actions := Held(b, n);
    ElapsedAppend(actions, [Consume]);
    ElapsedAppend(actions + [Consume], [AckArrives]);
    var c;
    actions, c := ExtendOne(actions, HELD, Consume, b);
    assert c == Clock(Replied, [Flight(0, true)], Waiting(0));
    actions, c := ExtendOne(actions, c, AckArrives, b);
  }
}
