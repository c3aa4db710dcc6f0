/** The scan of a range of local ports, in the machine's own 16-bit and 32-bit arithmetic. */
module PortScan {
  import opened Frames

  newtype u16 = x: int | 0 <= x < 0x1_0000
  newtype word = x: int | 0 <= x < 0x1_0000_0000

  /** What trying one local port comes to. */
  datatype Probe =
    | SocketFailed(code: int)
    | BindFailed
    | Connected
    | AddressTaken        // `AddrInUse` or `AddrNotAvailable` from connect
    | ConnectFailed(code: int)

  datatype Scan = Bound(port: u16) | Gone(error: Error)

  function Count(start: u16, end: u16): int
    requires start <= end
  {
    end as int - start as int + 1
  }

  /** The port tried in round `i`. */
  function PortAt(start: u16, end: u16, offset: int, i: int): (port: u16)
    requires start <= end && 0 <= offset < Count(start, end) && 0 <= i < Count(start, end)
    ensures start <= port <= end
  {
    var sum := offset + i;
    (start as int + if sum < Count(start, end) then sum else sum - Count(start, end)) as u16
  }

  /** The round in which a port is tried. */
  function RoundOf(start: u16, end: u16, offset: int, p: u16): (i: int)
    requires start <= p <= end && 0 <= offset < Count(start, end)
    ensures 0 <= i < Count(start, end) && PortAt(start, end, offset, i) == p
  {
    var d := p as int - start as int - offset;
    if d >= 0 then d else d + Count(start, end)
  }

  lemma Wrap(a: int, n: int)
    requires 0 <= a < 2 * n
    ensures a % n == if a < n then a else a - n
  {
    if a >= n {
      assert a / n == 1;
    }
  }

  /** The ports in the order of the scan. */
  function Visit(start: u16, end: u16, offset: int): seq<u16>
    requires start <= end && 0 <= offset < Count(start, end)
  {
    seq(Count(start, end), i requires 0 <= i < Count(start, end) => PortAt(start, end, offset, i))
  }

  /** Whatever the offset, the scan visits the range from its offset on and wraps around: every port once. */
  lemma ScanIsRotation(start: u16, end: u16, offset: int)
    requires start <= end && 0 <= offset < Count(start, end)
    ensures var range := Visit(start, end, 0);
            && Visit(start, end, offset) == range[offset..] + range[..offset]
            && multiset(Visit(start, end, offset)) == multiset(range)
            && (forall i :: 0 <= i < |range| ==> range[i] as int == start as int + i)
    ensures forall i, j :: 0 <= i < j < Count(start, end) ==> PortAt(start, end, offset, i) != PortAt(start, end, offset, j)
  {
    var range := Visit(start, end, 0);
    assert range == range[..offset] + range[offset..];
  }

  /** The port cannot be bound or connected from, and the scan goes on. */
  predicate Unavailable(p: Probe) {
    p.BindFailed? || p.AddressTaken?
  }

  /** `connect` with a local port range; `pick` draws the random offset below its argument. */
  method ConnectWithPortRange(start: u16, end: u16, pick: word -> word, probe: u16 -> Probe)
    returns (r: Scan, tried: seq<u16>)
    requires forall count: word :: count > 0 ==> pick(count) < count
    ensures start > end ==> r == Gone(InvalidConfig(RangeReversed)) && tried == []
    ensures start <= end ==>
              && 0 < |tried| <= Count(start, end)
              && (forall i :: 0 <= i < |tried| ==>
                    tried[i] == PortAt(start, end, pick(Count(start, end) as word) as int, i))
              && (forall i :: 0 <= i < |tried| - 1 ==> Unavailable(probe(tried[i])))
              && match probe(tried[|tried| - 1])
                 case Connected => r == Bound(tried[|tried| - 1])
                 case SocketFailed(code) => r == Gone(Io(OtherIo(code)))
                 case ConnectFailed(code) => r == Gone(Io(OtherIo(code)))
                 case BindFailed => r == Gone(NoLocalPortAvailable)
                 case AddressTaken => r == Gone(NoLocalPortAvailable)
    ensures start <= end ==>
              (r == Gone(NoLocalPortAvailable) <==>
                 forall p: u16 :: start <= p <= end ==> probe(p) == BindFailed || probe(p) == AddressTaken)
  {
    tried := [];
    if start > end {
      return Gone(InvalidConfig(RangeReversed)), tried;
    }
    var count: word := (end - start) as word + 1;
    var offset := pick(count);
    var i: word := 0;
    while i < count
      invariant i <= count && |tried| == i as int
      invariant forall k :: 0 <= k < |tried| ==> tried[k] == PortAt(start, end, offset as int, k)
      invariant forall k :: 0 <= k < |tried| ==> Unavailable(probe(tried[k]))
    {
      Wrap(offset as int + i as int, count as int);
      var port := start + ((offset + i) % count) as u16;
      tried := tried + [port];
      match probe(port) {
        case SocketFailed(code) => return Gone(Io(OtherIo(code))), tried;
        case BindFailed => {}
        case Connected => return Bound(port), tried;
        case AddressTaken => {}
        case ConnectFailed(code) => return Gone(Io(OtherIo(code))), tried;
      }
      i := i + 1;
    }
    forall p: u16 | start <= p <= end
      ensures Unavailable(probe(p))
    {
      assert tried[RoundOf(start, end, offset as int, p)] == p;
    }
    r := Gone(NoLocalPortAvailable);
  }
}
