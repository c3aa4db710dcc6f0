/** What the frame codec promises: bounded inflation, round trips, a prefix-free code and streaming. */
module FrameLaws {
  import opened Bytes
  import opened Frames

  // ---------------------------------------------------------------------------
  // Bounded inflation
  // ---------------------------------------------------------------------------

  /** Step `k` is the first that the bounded loop cannot take, and `e` is what it reports for it. */
  ghost predicate FirstFault(out: seq<byte>, steps: seq<ReadStep>, max: nat, k: nat, e: Error) {
    && k < |steps|
    && Clean(steps[..k])
    && |out| + |Output(steps[..k])| <= max
    && match steps[k]
       case Broken(code) => e == Compression(code)
       case Chunk(data) =>
         var total := |out| + |Output(steps[..k])| + |data|;
         total > max && e == FrameTooLarge(total, max)
  }

  lemma OutputPush(step: ReadStep, steps: seq<ReadStep>)
    requires step.Chunk?
    ensures Output([step] + steps) == step.data + Output(steps)
  {
    assert ([step] + steps)[1..] == steps;
  }

  lemma FaultBehind(out: seq<byte>, steps: seq<ReadStep>, max: nat, k: nat, e: Error)
    requires steps != [] && steps[0].Chunk? && FirstFault(out + steps[0].data, steps[1..], max, k, e)
    ensures FirstFault(out, steps, max, k + 1, e)
  {
    var rest := steps[1..];
    assert steps[..k + 1] == [steps[0]] + rest[..k];
    OutputPush(steps[0], rest[..k]);
  }

  /** For any chunking: success is exactly a clean end within the bound; otherwise the first fault. */
  lemma {:induction false} InflateVerdict(out: seq<byte>, steps: seq<ReadStep>, max: nat)
    requires ReaderLike(steps) && |out| <= max
    ensures Inflate(out, steps, max).Ok? <==> Clean(steps) && |out| + |Output(steps)| <= max
    ensures Inflate(out, steps, max).Ok? ==> Inflate(out, steps, max).value == out + Output(steps)
    ensures Inflate(out, steps, max).Err? ==>
              exists k: nat :: FirstFault(out, steps, max, k, Inflate(out, steps, max).error)
    decreases |steps|
  {
    if steps == [] {
      assert out + Output(steps) == out;
    } else if steps[0].Broken? {
      assert FirstFault(out, steps, max, 0, Compression(steps[0].code));
    } else if |out| + |steps[0].data| > max {
      assert steps[..0] == [];
      assert FirstFault(out, steps, max, 0, FrameTooLarge(|out| + |steps[0].data|, max));
    } else {
      var rest := steps[1..];
      assert steps == [steps[0]] + rest;
      InflateVerdict(out + steps[0].data, rest, max);
      assert out + steps[0].data + Output(rest) == out + Output(steps);
      var r := Inflate(out, steps, max);
      if r.Err? {
        var k: nat :| FirstFault(out + steps[0].data, rest, max, k, r.error);
        FaultBehind(out, steps, max, k, r.error);
      }
    }
  }

  /** Inflating a deflated string gives it back exactly when it is within the bound. */
  lemma InflateDeflated(x: seq<byte>, max: nat, z: Zlib)
    requires Faithful(z)
    ensures Inflate([], z.read(z.deflate(x)), max) == Ok(x) <==> |x| <= max
    ensures |x| > max ==>
              var r := Inflate([], z.read(z.deflate(x)), max);
              r.Err? && r.error.FrameTooLarge? && r.error.size > max && r.error.max == max
  {
    var steps := z.read(z.deflate(x));
    assert Clean(steps) && Output(steps) == x;
    InflateVerdict([], steps, max);
    assert [] + Output(steps) == x;
    if |x| > max {
      var k: nat :| FirstFault([], steps, max, k, Inflate([], steps, max).error);
    }
  }

  /** The hypothesis about zlib is not vacuous: a store-only pair satisfies it. */
  function Stored(x: seq<byte>): seq<ReadStep>
    decreases |x|
  {
    if x == [] then []
    else if |x| <= CHUNK_SIZE then [Chunk(x)]
    else [Chunk(x[..CHUNK_SIZE])] + Stored(x[CHUNK_SIZE..])
  }

  lemma {:induction false} StoredIsClean(x: seq<byte>)
    ensures ReaderLike(Stored(x)) && Clean(Stored(x)) && Output(Stored(x)) == x
    decreases |x|
  {
    if |x| > CHUNK_SIZE {
      StoredIsClean(x[CHUNK_SIZE..]);
      OutputPush(Chunk(x[..CHUNK_SIZE]), Stored(x[CHUNK_SIZE..]));
      assert x == x[..CHUNK_SIZE] + x[CHUNK_SIZE..];
    }
  }

  lemma SomeZlibIsFaithful()
    ensures exists z :: Faithful(z)
  {
    var z := Zlib((x: seq<byte>) => x, Stored);
    forall y: seq<byte>
      ensures ReaderLike(z.read(y)) && Clean(z.read(z.deflate(y))) && Output(z.read(z.deflate(y))) == y
    {
      StoredIsClean(y);
    }
    assert Faithful(z);
  }

  // ---------------------------------------------------------------------------
  // One frame
  // ---------------------------------------------------------------------------

  /** The length field of the frame is its true length, not one cut to 32 bits. */
  ghost predicate Sized(f: Frame, z: Zlib) {
    match f
    case Json(_, data) => |data| < U32_RANGE
    case Compressed(inner) => |z.deflate(inner)| < U32_RANGE
    case _ => true
  }

  /** A receiver with limit `max` takes the frame. */
  ghost predicate Fits(f: Frame, max: nat, z: Zlib) {
    && Sized(f, z)
    && match f
       case Json(_, data) => |data| <= max
       case Compressed(inner) => |z.deflate(inner)| <= max && |inner| <= max
       case _ => true
  }

  /** The bytes on the wire, number by number: version, type, big-endian words, payload. */
  lemma WireForm(f: Frame, z: Zlib)
    ensures var b := Encode(f, z);
            && |b| >= 6 && b[0] == 50
            && var word: int := b[2] as int * 0x100_0000 + b[3] as int * 0x1_0000 + b[4] as int * 0x100 + b[5];
               match f
               case Window(count) => |b| == 6 && b[1] == 87 && word == count
               case Ack(num) => |b| == 6 && b[1] == 65 && word == num
               case Json(num, data) =>
                 && |b| == 10 + |data| && b[1] == 74 && word == num
                 && b[6] as int * 0x100_0000 + b[7] as int * 0x1_0000 + b[8] as int * 0x100 + b[9] == |data| % 0x1_0000_0000
                 && b[10..] == data
               case Compressed(inner) =>
                 b[1] == 67 && word == |z.deflate(inner)| % 0x1_0000_0000 && b[6..] == z.deflate(inner)
  {
    match f
    case Window(count) => WordBytes(count);
    case Ack(num) => WordBytes(num);
    case Json(num, data) =>
      WordBytes(num);
      WordBytes(Truncate32(|data|));
    case Compressed(inner) => WordBytes(Truncate32(|z.deflate(inner)|));
  }

  lemma WordBytes(n: u32)
    ensures var b := Be32(n); b[0] as int * 0x100_0000 + b[1] as int * 0x1_0000 + b[2] as int * 0x100 + b[3] == n
  {
  }

  /** What the decoder makes of any bytes, up to the payload of a compressed frame. */
  lemma DecodeVerdict(src: seq<byte>, max: nat, z: Zlib)
    ensures var d := Decode(src, max, z);
            if |src| < 2 then d == NeedMore
            else if src[0] != 50 then d == Bad(InvalidFrame(UnsupportedVersion), src)
            else if src[1] != 87 && src[1] != 74 && src[1] != 65 && src[1] != 67 then
              d == Bad(InvalidFrame(UnknownType), src)
            else if |src| < 6 || (src[1] == 74 && |src| < 10) then d == NeedMore
            else if src[1] == 87 then d == Got(Window(FromBe32(src[2..6])), src[6..])
            else if src[1] == 65 then d == Got(Ack(FromBe32(src[2..6])), src[6..])
            else
              var header := if src[1] == 74 then 10 else 6;
              var len: int := FromBe32(src[header - 4..header]);
              if len > max then d == Bad(FrameTooLarge(len, max), src)
              else if |src| < header + len then d == NeedMore
              else src[1] == 74 ==> d == Got(Json(FromBe32(src[2..6]), src[10..10 + len]), src[10 + len..])
  {
    hide FromBe32, Inflate;
  }

  /** And of a whole compressed frame, its payload sound or not: it is inflated if and only if the reader comes
      to a clean end within the limit; otherwise the error is that of the first fault. The frame is gone
      from the buffer either way. */
  lemma PackedVerdict(src: seq<byte>, max: nat, z: Zlib)
    requires |src| >= 6 && src[0] == 50 && src[1] == 67
    requires FromBe32(src[2..6]) <= max && |src| >= 6 + FromBe32(src[2..6])
    requires ReaderLike(z.read(src[6..6 + FromBe32(src[2..6])]))
    ensures var cut := 6 + FromBe32(src[2..6]);
            var steps, d := z.read(src[6..cut]), Decode(src, max, z);
            && (d == Got(Compressed(Output(steps)), src[cut..]) <==> Clean(steps) && |Output(steps)| <= max)
            && (!(Clean(steps) && |Output(steps)| <= max) ==>
                  d.Bad? && d.rest == src[cut..] && exists k: nat :: FirstFault([], steps, max, k, d.error))
  {
    hide FromBe32;
    var steps := z.read(src[6..6 + FromBe32(src[2..6])]);
    InflateVerdict([], steps, max);
    hide Inflate;
    assert [] + Output(steps) == Output(steps);
  }

  /** The version byte, the type byte and the word behind them. */
  lemma Header(v: byte, t: byte, word: seq<byte>, body: seq<byte>)
    requires |word| == 4
    ensures var src := [v, t] + word + body;
            src[0] == v && src[1] == t && src[2..6] == word && src[6..] == body
  {
  }

  lemma Split(head: seq<byte>, body: seq<byte>, src: seq<byte>)
    requires src == head + body
    ensures src[..|head|] == head && src[|head|..] == body
  {
  }

  lemma DecodeEncodedWord(f: Frame, tail: seq<byte>, max: nat, z: Zlib)
    requires f.Window? || f.Ack?
    ensures Decode(Encode(f, z) + tail, max, z) == Got(f, tail)
  {
    hide Be32, FromBe32;
    var n := if f.Window? then f.count else f.num;
    Header(PROTOCOL_VERSION, if f.Window? then TYPE_WINDOW else TYPE_ACK, Be32(n), tail);
    Be32RoundTrip(n);
  }

  /** An event of any length: the decoder goes by the length field, which holds the length cut to 32 bits. */
  lemma DecodeEncodedEvent(f: Frame, tail: seq<byte>, max: nat, z: Zlib)
    requires f.Json?
    ensures var src, len := Encode(f, z) + tail, Truncate32(|f.data|);
            Decode(src, max, z) == if len > max then Bad(FrameTooLarge(len, max), src)
                                   else Got(Json(f.num, f.data[..len]), f.data[len..] + tail)
  {
    hide Be32, FromBe32;
    var len := Truncate32(|f.data|);
    var src, word, body := Encode(f, z) + tail, Be32(len), f.data + tail;
    assert src == [PROTOCOL_VERSION, TYPE_JSON] + Be32(f.num) + (word + body);
    Header(PROTOCOL_VERSION, TYPE_JSON, Be32(f.num), word + body);
    Split(word, body, src[6..]);
    assert src[6..10] == word && src[10..] == body;
    Be32RoundTrip(f.num);
    Be32RoundTrip(len);
    assert body == f.data[..len] + (f.data[len..] + tail);
    Split(f.data[..len], f.data[len..] + tail, body);
    assert src[10..10 + len] == body[..len] && src[10 + len..] == body[len..];
  }

  /** It comes back exactly when it fits. */
  lemma EventRoundTrip(f: Frame, tail: seq<byte>, max: nat, z: Zlib)
    requires f.Json?
    ensures Decode(Encode(f, z) + tail, max, z) == Got(f, tail) <==> Fits(f, max, z)
    ensures Sized(f, z) && !Fits(f, max, z) ==>
              Decode(Encode(f, z) + tail, max, z) == Bad(FrameTooLarge(|f.data|, max), Encode(f, z) + tail)
  {
    hide Encode, Decode;
    DecodeEncodedEvent(f, tail, max, z);
    if Sized(f, z) {
      assert f.data[..|f.data|] == f.data && f.data[|f.data|..] + tail == tail;
    }
  }

  lemma DecodeEncodedCompressed(f: Frame, tail: seq<byte>, max: nat, z: Zlib)
    requires Faithful(z) && f.Compressed?
    ensures Decode(Encode(f, z) + tail, max, z) == Got(f, tail) <==> Fits(f, max, z)
    ensures Sized(f, z) && !Fits(f, max, z) ==>
              var d := Decode(Encode(f, z) + tail, max, z);
              d.Bad? && d.error.FrameTooLarge? && d.error.size > max == d.error.max
  {
    hide Be32, FromBe32, Inflate, Faithful;
    var packed := z.deflate(f.inner);
    var len := Truncate32(|packed|);
    var src, body := Encode(f, z) + tail, packed + tail;
    assert src == [PROTOCOL_VERSION, TYPE_COMPRESSED] + Be32(len) + body;
    Header(PROTOCOL_VERSION, TYPE_COMPRESSED, Be32(len), body);
    Be32RoundTrip(len);
    InflateDeflated(f.inner, max, z);
    if Sized(f, z) {
      Split(packed, tail, body);
      assert src[6..6 + |packed|] == packed && src[6 + |packed|..] == tail;
    }
  }

  /** Round trip with arbitrary bytes behind the frame: it holds exactly for the frames that fit. */
  lemma DecodeEncoded(f: Frame, tail: seq<byte>, max: nat, z: Zlib)
    requires Faithful(z)
    ensures Decode(Encode(f, z) + tail, max, z) == Got(f, tail) <==> Fits(f, max, z)
    ensures Sized(f, z) && !Fits(f, max, z) ==>
              var d := Decode(Encode(f, z) + tail, max, z);
              d.Bad? && d.error.FrameTooLarge? && d.error.size > max == d.error.max
  {
    hide Encode, Decode, Faithful;
    if f.Json? {
      EventRoundTrip(f, tail, max, z);
    } else if f.Compressed? {
      DecodeEncodedCompressed(f, tail, max, z);
    } else {
      DecodeEncodedWord(f, tail, max, z);
    }
  }

  /** More bytes never change a verdict, only what is left behind it. */
  lemma DecodeAppend(src: seq<byte>, more: seq<byte>, max: nat, z: Zlib)
    ensures match Decode(src, max, z)
            case NeedMore => true
            case Got(f, rest) => Decode(src + more, max, z) == Got(f, rest + more)
            case Bad(e, rest) => Decode(src + more, max, z) == Bad(e, rest + more)
  {
    var all := src + more;
    if |src| >= 6 {
      assert all[2..6] == src[2..6] && all[6..] == src[6..] + more;
      if |src| >= 10 && src[1] == TYPE_JSON {
        assert all[6..10] == src[6..10];
        var len: int := FromBe32(src[6..10]);
        if |src| >= 10 + len {
          assert all[10..10 + len] == src[10..10 + len] && all[10 + len..] == src[10 + len..] + more;
        }
      }
      if src[1] == TYPE_COMPRESSED {
        var len: int := FromBe32(src[2..6]);
        if |src| >= 6 + len {
          assert all[6..6 + len] == src[6..6 + len] && all[6 + len..] == src[6 + len..] + more;
        }
      }
    }
  }

  function PayloadSize(f: Frame): nat {
    match f
    case Json(_, data) => |data|
    case Compressed(inner) => |inner|
    case _ => 0
  }

  /** Waiting is bounded, a decoded payload is within the limit, and re-encoding gives the bytes taken. */
  lemma DecodeBounds(src: seq<byte>, max: nat, z: Zlib)
    ensures Decode(src, max, z).NeedMore? ==> |src| < 10 + max
    ensures match Decode(src, max, z)
            case Got(f, rest) =>
              && PayloadSize(f) <= max
              && (!f.Compressed? ==> src == Encode(f, z) + rest)
              && (f.Compressed? ==> |src| - |rest| == 6 + FromBe32(src[2..6]) <= 6 + max)
            case _ => true
  {
    DecodeWaits(src, max, z);
    if Decode(src, max, z).Got? {
      if src[1] == TYPE_JSON {
        EventTaken(src, max, z);
      } else if src[1] == TYPE_COMPRESSED {
        PackedTaken(src, max, z);
      } else {
        WordTaken(src, max, z);
      }
    }
  }

  lemma DecodeWaits(src: seq<byte>, max: nat, z: Zlib)
    ensures Decode(src, max, z).NeedMore? ==> |src| < 10 + max
    ensures Decode(src, max, z).Got? ==> |src| >= 6
  {
    hide FromBe32, Inflate;
  }

  lemma WordTaken(src: seq<byte>, max: nat, z: Zlib)
    requires |src| >= 6 && src[1] != TYPE_JSON && src[1] != TYPE_COMPRESSED && Decode(src, max, z).Got?
    ensures var d := Decode(src, max, z); !d.frame.Compressed? && PayloadSize(d.frame) == 0 && src == Encode(d.frame, z) + d.rest
  {
    hide Be32, FromBe32, Inflate;
    FromBe32RoundTrip(src[2..6]);
    assert src == [src[0], src[1]] + src[2..6] + src[6..];
  }

  lemma EventTaken(src: seq<byte>, max: nat, z: Zlib)
    requires |src| >= 6 && src[1] == TYPE_JSON && Decode(src, max, z).Got?
    ensures var d := Decode(src, max, z); d.frame.Json? && |d.frame.data| <= max && src == Encode(d.frame, z) + d.rest
  {
    hide Be32, FromBe32, Inflate;
    var d := Decode(src, max, z);
    FromBe32RoundTrip(src[2..6]);
    FromBe32RoundTrip(src[6..10]);
    assert src == [src[0], src[1]] + src[2..6] + src[6..10] + d.frame.data + d.rest;
  }

  lemma PackedTaken(src: seq<byte>, max: nat, z: Zlib)
    requires |src| >= 6 && src[1] == TYPE_COMPRESSED && Decode(src, max, z).Got?
    ensures var d := Decode(src, max, z);
            d.frame.Compressed? && |d.frame.inner| <= max && |src| - |d.rest| == 6 + FromBe32(src[2..6]) <= 6 + max
  {
    hide FromBe32, Inflate;
    InflateWithin([], z.read(src[6..6 + FromBe32(src[2..6])]), max);
  }

  lemma {:induction false} InflateWithin(out: seq<byte>, steps: seq<ReadStep>, max: nat)
    requires |out| <= max
    ensures Inflate(out, steps, max).Ok? ==> |Inflate(out, steps, max).value| <= max
    decreases |steps|
  {
    if steps != [] && steps[0].Chunk? && |out| + |steps[0].data| <= max {
      InflateWithin(out + steps[0].data, steps[1..], max);
    }
  }

  // ---------------------------------------------------------------------------
  // The code is prefix-free
  // ---------------------------------------------------------------------------

  /** A limit that both frames are within. */
  ghost function Roomy(f: Frame, g: Frame, z: Zlib): nat {
    PayloadSize(f) + PayloadSize(g) + U32_RANGE
  }

  lemma PrefixFree(f: Frame, g: Frame, z: Zlib)
    requires Faithful(z) && Sized(f, z) && Sized(g, z)
    requires Encode(f, z) <= Encode(g, z)
    ensures f == g
  {
    var max := Roomy(f, g, z);
    var rest := Encode(g, z)[|Encode(f, z)|..];
    assert Encode(g, z) == Encode(f, z) + rest == Encode(g, z) + [];
    DecodeEncoded(f, rest, max, z);
    DecodeEncoded(g, [], max, z);
  }

  lemma LongPayloadIsNoPrefix(g: Frame, f: Frame, z: Zlib)
    requires f.Json? && Sized(f, z) && Encode(g, z) <= Encode(f, z)
    ensures Sized(g, z)
  {
    hide Be32, FromBe32;
    assert Encode(g, z)[1] == Encode(f, z)[1];
    if g.Json? {
      var a, b := Be32(Truncate32(|g.data|)), Be32(Truncate32(|f.data|));
      assert a == Encode(g, z)[6..10] == Encode(f, z)[6..10] == b;
      Be32RoundTrip(Truncate32(|f.data|));
      Be32RoundTrip(Truncate32(|g.data|));
    }
  }

  /** For events the size condition is exact: a payload of 2^32 bytes or more breaks the code. */
  lemma EventPrefixFreeIff(f: Frame, z: Zlib)
    requires Faithful(z) && f.Json?
    ensures (exists g :: g != f && Encode(g, z) <= Encode(f, z)) <==> !Sized(f, z)
  {
    hide Encode, Faithful;
    if Sized(f, z) {
      forall g | Encode(g, z) <= Encode(f, z)
        ensures g == f
      {
        LongPayloadIsNoPrefix(g, f, z);
        PrefixFree(g, f, z);
      }
    } else {
      CutEventIsPrefix(f, z);
    }
  }

  lemma CutEventIsPrefix(f: Frame, z: Zlib)
    requires f.Json?
    ensures Encode(Json(f.num, f.data[..Truncate32(|f.data|)]), z) <= Encode(f, z)
  {
    hide Be32;
    var cut := Truncate32(|f.data|);
    assert Encode(f, z) == Encode(Json(f.num, f.data[..cut]), z) + f.data[cut..];
  }

  // ---------------------------------------------------------------------------
  // Streams
  // ---------------------------------------------------------------------------

  /** Decoding until the decoder wants more bytes or fails. */
  datatype Drained = Drained(frames: seq<Frame>, left: seq<byte>, fault: Option<Error>)

  function Drain(src: seq<byte>, max: nat, z: Zlib): Drained
    decreases |src|
  {
    match Decode(src, max, z)
    case NeedMore => Drained([], src, None)
    case Bad(e, rest) => Drained([], rest, Some(e))
    case Got(f, rest) => Before([f], Drain(rest, max, z))
  }

  function Before(fs: seq<Frame>, d: Drained): Drained {
    d.(frames := fs + d.frames)
  }

  lemma DrainHead(src: seq<byte>, max: nat, z: Zlib)
    ensures var d, r := Decode(src, max, z), Drain(src, max, z);
            && (d.NeedMore? ==> r == Drained([], src, None))
            && (d.Bad? ==> r == Drained([], d.rest, Some(d.error)))
            && (d.Got? ==> r == Before([d.frame], Drain(d.rest, max, z)))
  {
  }

  lemma {:induction false} DrainAppend(src: seq<byte>, more: seq<byte>, max: nat, z: Zlib)
    ensures var d := Drain(src, max, z);
            Drain(src + more, max, z) ==
            if d.fault.Some? then d.(left := d.left + more)
            else Before(d.frames, Drain(d.left + more, max, z))
    decreases |src|
  {
    hide Decode, Drain;
    DecodeAppend(src, more, max, z);
    DrainHead(src, max, z);
    match Decode(src, max, z)
    case NeedMore =>
      assert [] + Drain(src + more, max, z).frames == Drain(src + more, max, z).frames;
    case Bad(e, rest) =>
      DrainHead(src + more, max, z);
    case Got(f, rest) =>
      DrainHead(src + more, max, z);
      DrainAppend(rest, more, max, z);
      var d := Drain(rest, max, z);
      if d.fault.None? {
        assert [f] + (d.frames + Drain(d.left + more, max, z).frames) == ([f] + d.frames) + Drain(d.left + more, max, z).frames;
      }
  }

  /** `Framed`: drain the buffer, then append the next chunk from the wire. */
  function FeedAndDrain(buf: seq<byte>, chunks: seq<seq<byte>>, max: nat, z: Zlib): Drained
    decreases |chunks|
  {
    var d := Drain(buf, max, z);
    if d.fault.Some? || chunks == [] then d
    else Before(d.frames, FeedAndDrain(d.left + chunks[0], chunks[1..], max, z))
  }

  /** Any chunking of a stream gives the frames and the first error of the whole stream, and leaves its remainder,
      or behind an error a beginning of it. */
  lemma {:induction false} ChunkInsensitive(buf: seq<byte>, chunks: seq<seq<byte>>, max: nat, z: Zlib)
    ensures var whole := Drain(buf + Concat(chunks), max, z);
            var fed := FeedAndDrain(buf, chunks, max, z);
            && fed.frames == whole.frames
            && fed.fault == whole.fault
            && fed.left <= whole.left
            && (whole.fault.None? ==> fed.left == whole.left)
    decreases |chunks|
  {
    hide Decode;
    var d := Drain(buf, max, z);
    DrainAppend(buf, Concat(chunks), max, z);
    if chunks == [] {
      assert buf + Concat(chunks) == buf;
    } else if d.fault.None? {
      ChunkInsensitive(d.left + chunks[0], chunks[1..], max, z);
      assert d.left + chunks[0] + Concat(chunks[1..]) == d.left + Concat(chunks);
    }
  }

  ghost predicate AllFit(fs: seq<Frame>, max: nat, z: Zlib) {
    forall i :: 0 <= i < |fs| ==> Fits(fs[i], max, z)
  }

  /** Concatenated encodings decode to the frames, followed by whatever the trailing bytes decode to. */
  lemma {:induction false} StreamRoundTrip(fs: seq<Frame>, tail: seq<byte>, max: nat, z: Zlib)
    requires Faithful(z) && AllFit(fs, max, z)
    ensures Drain(EncodeAll(fs, z) + tail, max, z) == Before(fs, Drain(tail, max, z))
    decreases |fs|
  {
    hide Encode, Decode;
    if fs == [] {
      assert EncodeAll(fs, z) + tail == tail;
      assert [] + Drain(tail, max, z).frames == Drain(tail, max, z).frames;
    } else {
      var rest := EncodeAll(fs[1..], z) + tail;
      assert EncodeAll(fs, z) + tail == Encode(fs[0], z) + rest;
      DecodeEncoded(fs[0], rest, max, z);
      StreamRoundTrip(fs[1..], tail, max, z);
      assert [fs[0]] + (fs[1..] + Drain(tail, max, z).frames) == fs + Drain(tail, max, z).frames;
    }
  }

  /** The first frame over the limit ends the stream with `FrameTooLarge`. */
  lemma StreamStopsAtOversize(fs: seq<Frame>, k: nat, tail: seq<byte>, max: nat, z: Zlib)
    requires Faithful(z) && k < |fs| && AllFit(fs[..k], max, z)
    requires Sized(fs[k], z) && !Fits(fs[k], max, z)
    ensures var d := Drain(EncodeAll(fs, z) + tail, max, z);
            d.frames == fs[..k] && d.fault.Some? && d.fault.value.FrameTooLarge? && d.fault.value.max == max
  {
    hide Encode, Decode;
    var rest := Encode(fs[k], z) + (EncodeAll(fs[k + 1..], z) + tail);
    EncodeAllAppend(fs[..k], fs[k..], z);
    assert fs == fs[..k] + fs[k..] && fs[k..][1..] == fs[k + 1..];
    assert EncodeAll(fs, z) + tail == EncodeAll(fs[..k], z) + rest;
    StreamRoundTrip(fs[..k], rest, max, z);
    DecodeEncoded(fs[k], EncodeAll(fs[k + 1..], z) + tail, max, z);
  }

  lemma {:induction false} EncodeAllAppend(a: seq<Frame>, b: seq<Frame>, z: Zlib)
    ensures EncodeAll(a + b, z) == EncodeAll(a, z) + EncodeAll(b, z)
    decreases |a|
  {
    hide Encode;
    if a == [] {
      assert a + b == b;
    } else {
      EncodeAllAppend(a[1..], b, z);
      assert (a + b)[1..] == a[1..] + b;
    }
  }

  lemma EncodeAllOne(f: Frame, z: Zlib)
    ensures EncodeAll([f], z) == Encode(f, z)
  {
    assert EncodeAll([f], z) == Encode(f, z) + EncodeAll([], z);
  }

  lemma DecodeNothing(max: nat, z: Zlib)
    ensures Decode([], max, z) == NeedMore
  {
  }

  lemma DecodeOfHead(buf: seq<byte>, behind: seq<byte>, f: Frame, tail: seq<byte>, max: nat, z: Zlib)
    requires Faithful(z) && Sized(f, z) && buf + behind == Encode(f, z) + tail
    ensures match Decode(buf, max, z)
            case NeedMore => true
            case Got(g, rest) => g == f && rest + behind == tail && Fits(f, max, z)
            case Bad(_, _) => !Fits(f, max, z)
  {
    hide *;
    DecodeAppend(buf, behind, max, z);
    DecodeEncoded(f, tail, max, z);
  }

  /** What a decoder can make of the first bytes of a well-formed stream: its head frame, or an error. */
  lemma DecodeOfPrefix(buf: seq<byte>, more: seq<byte>, fs: seq<Frame>, max: nat, z: Zlib)
    requires Faithful(z) && buf + more <= EncodeAll(fs, z)
    requires fs != [] ==> Sized(fs[0], z)
    ensures match Decode(buf, max, z)
            case NeedMore => true
            case Got(f, rest) => fs != [] && f == fs[0] && rest + more <= EncodeAll(fs[1..], z)
            case Bad(e, _) => fs != [] && !Fits(fs[0], max, z)
  {
    hide Encode, Decode, Faithful, Sized, Fits;
    var lost := EncodeAll(fs, z)[|buf + more|..];
    assert buf + (more + lost) == EncodeAll(fs, z);
    if fs == [] {
      assert buf == [];
      DecodeNothing(max, z);
    } else {
      DecodeOfHead(buf, more + lost, fs[0], EncodeAll(fs[1..], z), max, z);
      var d := Decode(buf, max, z);
      if d.Got? {
        assert d.rest + (more + lost) == (d.rest + more) + lost;
      }
    }
  }
}
