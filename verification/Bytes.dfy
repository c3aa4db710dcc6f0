/** Machine integers, big-endian words and the growable byte buffer the codec works on. */
module Bytes {

  type byte = b: int | 0 <= b < 0x100
  type u32 = n: int | 0 <= n < 0x1_0000_0000

  const U32_RANGE: int := 0x1_0000_0000

  datatype Option<+T> = None | Some(value: T)

  /** The `as u32` cast: the low 32 bits of a length or a count. */
  function Truncate32(n: nat): u32 {
    n % U32_RANGE
  }

  function Be32(n: u32): (b: seq<byte>)
    ensures |b| == 4
  {
    var hi, lo := n / 0x1_0000, n % 0x1_0000;
    [hi / 0x100, hi % 0x100, lo / 0x100, lo % 0x100]
  }

  function FromBe32(b: seq<byte>): u32
    requires |b| == 4
  {
    var hi: int := (b[0] as int) * 0x100 + b[1];
    var lo: int := (b[2] as int) * 0x100 + b[3];
    hi * 0x1_0000 + lo
  }

  lemma Be32RoundTrip(n: u32)
    ensures FromBe32(Be32(n)) == n
  {
  }

  lemma FromBe32RoundTrip(b: seq<byte>)
    requires |b| == 4
    ensures Be32(FromBe32(b)) == b
  {
  }

  function Concat<T>(parts: seq<seq<T>>): seq<T> {
    if parts == [] then [] else parts[0] + Concat(parts[1..])
  }

  lemma ConcatPush<T>(part: seq<T>, rest: seq<seq<T>>)
    ensures Concat([part] + rest) == part + Concat(rest)
  {
    assert ([part] + rest)[1..] == rest;
  }

  lemma {:induction false} ConcatAppend<T>(a: seq<seq<T>>, b: seq<seq<T>>)
    ensures Concat(a + b) == Concat(a) + Concat(b)
  {
    if a == [] {
      assert a + b == b;
    } else {
      hide Concat;
      var head, tail := a[0], a[1..];
      assert a == [head] + tail && a + b == [head] + (tail + b);
      ConcatAppend(tail, b);
      ConcatPush(head, tail);
      ConcatPush(head, tail + b);
      assert head + (Concat(tail) + Concat(b)) == head + Concat(tail) + Concat(b);
    }
  }

  lemma ConcatOne<T>(part: seq<T>)
    ensures Concat([part]) == part
  {
    assert Concat([part]) == part + Concat([]);
  }

  lemma ConcatHead<T>(parts: seq<seq<T>>)
    requires parts != []
    ensures parts[0] <= Concat(parts)
  {
  }

  /** The part of `bytes::BytesMut` that the crate uses. */
  class BytesMut {
    var data: seq<byte>

    constructor (data: seq<byte>)
      ensures this.data == data
    {
      this.data := data;
    }

    method PutU8(b: byte)
      modifies this
      ensures data == old(data) + [b]
    {
      data := data + [b];
    }

    method PutU32(n: u32)
      modifies this
      ensures data == old(data) + Be32(n)
    {
      data := data + Be32(n);
    }

    method ExtendFromSlice(s: seq<byte>)
      modifies this
      ensures data == old(data) + s
    {
      data := data + s;
    }

    method Advance(n: nat)
      requires n <= |data|
      modifies this
      ensures data == old(data)[n..]
    {
      data := data[n..];
    }

    method GetU32() returns (n: u32)
      requires 4 <= |data|
      modifies this
      ensures n == FromBe32(old(data)[..4])
      ensures data == old(data)[4..]
    {
      n := FromBe32(data[..4]);
      data := data[4..];
    }

    method SplitTo(n: nat) returns (head: seq<byte>)
      requires n <= |data|
      modifies this
      ensures head == old(data)[..n]
      ensures data == old(data)[n..]
    {
      head := data[..n];
      data := data[n..];
    }
  }
}
