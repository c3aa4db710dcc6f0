/** Lumberjack v2 frames: their wire form, the incremental decoder and bounded inflation. */
module Frames {
  import opened Bytes

  const PROTOCOL_VERSION: byte := 50  // '2'
  const TYPE_WINDOW: byte := 87       // 'W'
  const TYPE_JSON: byte := 74         // 'J'
  const TYPE_COMPRESSED: byte := 67   // 'C'
  const TYPE_ACK: byte := 65          // 'A'

  const DEFAULT_MAX_FRAME_SIZE: nat := 16 * 1024 * 1024

  /** A compressed frame always holds its inflated inner bytes in memory. */
  datatype Frame =
    | Window(count: u32)
    | Json(num: u32, data: seq<byte>)
    | Compressed(inner: seq<byte>)
    | Ack(num: u32)

  /** The static strings of the crate's error values, one constructor for each. */
  datatype Reason =
    | UnsupportedVersion
    | UnknownType
    | PayloadTruncated
    | WindowExpected
    | EventExpected
    | OnlyEventsInside
    | AckExpected
    | RangeReversed

  datatype IoCause = BytesRemaining | OtherIo(code: int)

  datatype Error =
    | Io(cause: IoCause)
    | InvalidFrame(why: Reason)
    | FrameTooLarge(size: nat, max: nat)
    | Compression(code: int)
    | UnexpectedFrame(why: Reason)
    | SeqOutOfOrder(got: u32, prev: u32)
    | WriteTimeout
    | AckTimeout
    | ConnectionClosed
    | InvalidConfig(why: Reason)
    | NoLocalPortAvailable

  datatype Result<+T> = Ok(value: T) | Err(error: Error)

  // ---------------------------------------------------------------------------
  // zlib, as a hypothesis
  // ---------------------------------------------------------------------------

  /** One `read` call of the inflating reader; the reader is at its end when no step is left. */
  datatype ReadStep = Chunk(data: seq<byte>) | Broken(code: int)

  /** The compressor, and what the inflating reader yields for a given input. */
  datatype Zlib = Zlib(deflate: seq<byte> -> seq<byte>, read: seq<byte> -> seq<ReadStep>)

  const CHUNK_SIZE: nat := 8192

  /** A successful `read` fills between one byte and the whole chunk buffer. */
  ghost predicate ReaderLike(steps: seq<ReadStep>) {
    forall i :: 0 <= i < |steps| && steps[i].Chunk? ==> 1 <= |steps[i].data| <= CHUNK_SIZE
  }

  ghost predicate Clean(steps: seq<ReadStep>) {
    forall i :: 0 <= i < |steps| ==> steps[i].Chunk?
  }

  function Output(steps: seq<ReadStep>): seq<byte> {
    if steps == [] then []
    else (if steps[0].Chunk? then steps[0].data else []) + Output(steps[1..])
  }

  /** Inflating a deflated string yields that string, in chunks of the reader's choosing. */
  ghost predicate Faithful(z: Zlib) {
    && (forall y :: ReaderLike(z.read(y)))
    && (forall x :: Clean(z.read(z.deflate(x))) && Output(z.read(z.deflate(x))) == x)
  }

  // ---------------------------------------------------------------------------
  // Specification functions
  // ---------------------------------------------------------------------------

  /** What `zlib_decompress` returns when `out` has been produced and `steps` are still to come. */
  function Inflate(out: seq<byte>, steps: seq<ReadStep>, max: nat): Result<seq<byte>>
    decreases |steps|
  {
    if steps == [] then Ok(out)
    else match steps[0]
      case Broken(code) => Err(Compression(code))
      case Chunk(data) =>
        if data == [] then Ok(out)
        else if |out| + |data| > max then Err(FrameTooLarge(|out| + |data|, max))
        else Inflate(out + data, steps[1..], max)
  }

  function Encode(f: Frame, z: Zlib): seq<byte> {
    match f
    case Window(n) => [PROTOCOL_VERSION, TYPE_WINDOW] + Be32(n)
    case Json(num, data) => [PROTOCOL_VERSION, TYPE_JSON] + Be32(num) + Be32(Truncate32(|data|)) + data
    case Ack(num) => [PROTOCOL_VERSION, TYPE_ACK] + Be32(num)
    case Compressed(inner) =>
      var packed := z.deflate(inner);
      [PROTOCOL_VERSION, TYPE_COMPRESSED] + Be32(Truncate32(|packed|)) + packed
  }

  function EncodeAll(fs: seq<Frame>, z: Zlib): seq<byte> {
    if fs == [] then [] else Encode(fs[0], z) + EncodeAll(fs[1..], z)
  }

  /** The decoder's answer, with what it leaves in the buffer. */
  datatype Decoded =
    | NeedMore
    | Got(frame: Frame, rest: seq<byte>)
    | Bad(error: Error, rest: seq<byte>)

  function Decode(src: seq<byte>, max: nat, z: Zlib): (d: Decoded)
    ensures d.Got? ==> |d.rest| + 6 <= |src|
  {
    if |src| < 2 then NeedMore
    else if src[0] != PROTOCOL_VERSION then Bad(InvalidFrame(UnsupportedVersion), src)
    else if src[1] == TYPE_WINDOW then
      if |src| < 6 then NeedMore else Got(Window(FromBe32(src[2..6])), src[6..])
    else if src[1] == TYPE_JSON then
      if |src| < 10 then NeedMore
      else
        var len := FromBe32(src[6..10]);
        if len > max then Bad(FrameTooLarge(len, max), src)
        else if |src| < 10 + len then NeedMore
        else Got(Json(FromBe32(src[2..6]), src[10..10 + len]), src[10 + len..])
    else if src[1] == TYPE_ACK then
      if |src| < 6 then NeedMore else Got(Ack(FromBe32(src[2..6])), src[6..])
    else if src[1] == TYPE_COMPRESSED then
      if |src| < 6 then NeedMore
      else
        var len := FromBe32(src[2..6]);
        if len > max then Bad(FrameTooLarge(len, max), src)
        else if |src| < 6 + len then NeedMore
        else
          match Inflate([], z.read(src[6..6 + len]), max)
          case Ok(inner) => Got(Compressed(inner), src[6 + len..])
          case Err(e) => Bad(e, src[6 + len..])
    else Bad(InvalidFrame(UnknownType), src)
  }

  // ---------------------------------------------------------------------------
  // The code
  // ---------------------------------------------------------------------------

  /** `flate2::read::ZlibDecoder` over one compressed payload. */
  class ZlibDecoder {
    var steps: seq<ReadStep>

    constructor (input: seq<byte>, z: Zlib)
      ensures steps == z.read(input)
    {
      steps := z.read(input);
    }

    /** An empty chunk stands for a return value of zero. */
    method Read() returns (r: Result<seq<byte>>)
      modifies this
      ensures old(steps) == [] ==> r == Ok([]) && steps == []
      ensures old(steps) != [] && old(steps)[0].Chunk? ==> r == Ok(old(steps)[0].data)
      ensures old(steps) != [] && old(steps)[0].Broken? ==> r == Err(Compression(old(steps)[0].code))
      ensures old(steps) != [] ==> steps == old(steps)[1..]
    {
      if steps == [] {
        return Ok([]);
      }
      var s := steps[0];
      steps := steps[1..];
      match s
      case Chunk(data) => r := Ok(data);
      case Broken(code) => r := Err(Compression(code));
    }
  }

  method ZlibDecompress(input: seq<byte>, max: nat, z: Zlib) returns (r: Result<seq<byte>>)
    ensures r == Inflate([], z.read(input), max)
    ensures r.Ok? ==> |r.value| <= max
  {
    var dec := new ZlibDecoder(input, z);
    var out: seq<byte> := [];
    while true
      invariant |out| <= max
      invariant Inflate(out, dec.steps, max) == Inflate([], z.read(input), max)
      decreases |dec.steps|
    {
      var n := dec.Read();
      if n.Err? {
        return Err(n.error);
      }
      if n.value == [] {
        break;
      }
      if |out| + |n.value| > max {
        return Err(FrameTooLarge(|out| + |n.value|, max));
      }
      out := out + n.value;
    }
    r := Ok(out);
  }

  /** Header and word, put one by one. */
  lemma PutOneByOne(before: seq<byte>, v: byte, t: byte, word: seq<byte>)
    ensures before + [v] + [t] + word == before + ([v, t] + word)
  {
  }

  lemma PutBehind(before: seq<byte>, head: seq<byte>, word: seq<byte>, data: seq<byte>)
    ensures before + head + word + data == before + (head + word + data)
    ensures before + (head + word) + data == before + (head + word + data)
  {
  }

  method EncodeInto(f: Frame, dst: BytesMut, z: Zlib)
    modifies dst
    ensures dst.data == old(dst.data) + Encode(f, z)
  {
    hide Be32, Truncate32;
    ghost var before := dst.data;
    match f
    case Window(n) =>
      PutOneByOne(before, PROTOCOL_VERSION, TYPE_WINDOW, Be32(n));
      dst.PutU8(PROTOCOL_VERSION);
      dst.PutU8(TYPE_WINDOW);
      dst.PutU32(n);
    case Json(num, data) =>
      ghost var head := [PROTOCOL_VERSION, TYPE_JSON] + Be32(num);
      PutOneByOne(before, PROTOCOL_VERSION, TYPE_JSON, Be32(num));
      PutBehind(before, head, Be32(Truncate32(|data|)), data);
      dst.PutU8(PROTOCOL_VERSION);
      dst.PutU8(TYPE_JSON);
      dst.PutU32(num);
      dst.PutU32(Truncate32(|data|));
      dst.ExtendFromSlice(data);
    case Ack(num) =>
      PutOneByOne(before, PROTOCOL_VERSION, TYPE_ACK, Be32(num));
      dst.PutU8(PROTOCOL_VERSION);
      dst.PutU8(TYPE_ACK);
      dst.PutU32(num);
    case Compressed(inner) =>
      var packed := z.deflate(inner);
      ghost var word := Be32(Truncate32(|packed|));
      PutOneByOne(before, PROTOCOL_VERSION, TYPE_COMPRESSED, word);
      PutBehind(before, [PROTOCOL_VERSION, TYPE_COMPRESSED], word, packed);
      dst.PutU8(PROTOCOL_VERSION);
      dst.PutU8(TYPE_COMPRESSED);
      dst.PutU32(Truncate32(|packed|));
      dst.ExtendFromSlice(packed);
  }

  method DecodeWithLimit(src: BytesMut, max: nat, z: Zlib) returns (r: Result<Option<Frame>>)
    modifies src
    ensures match Decode(old(src.data), max, z)
            case NeedMore => r == Ok(None) && src.data == old(src.data)
            case Got(f, rest) => r == Ok(Some(f)) && src.data == rest
            case Bad(e, rest) => r == Err(e) && src.data == rest
  {
    if |src.data| < 2 {
      return Ok(None);
    }
    if src.data[0] != PROTOCOL_VERSION {
      return Err(InvalidFrame(UnsupportedVersion));
    }
    var ty := src.data[1];
    if ty == TYPE_WINDOW {
      if |src.data| < 2 + 4 {
        return Ok(None);
      }
      src.Advance(2);
      var n := src.GetU32();
      return Ok(Some(Window(n)));
    } else if ty == TYPE_JSON {
      if |src.data| < 2 + 4 + 4 {
        return Ok(None);
      }
      var len := FromBe32(src.data[6..10]);
      if len > max {
        return Err(FrameTooLarge(len, max));
      }
      if |src.data| < 2 + 4 + 4 + len {
        return Ok(None);
      }
      src.Advance(2);
      var num := src.GetU32();
      var _ := src.GetU32();
      assert src.data == old(src.data)[10..];
      var data := src.SplitTo(len);
      assert data == old(src.data)[10..10 + len];
      return Ok(Some(Json(num, data)));
    } else if ty == TYPE_ACK {
      if |src.data| < 2 + 4 {
        return Ok(None);
      }
      src.Advance(2);
      var num := src.GetU32();
      return Ok(Some(Ack(num)));
    } else if ty == TYPE_COMPRESSED {
      if |src.data| < 2 + 4 {
        return Ok(None);
      }
      var len := FromBe32(src.data[2..6]);
      if len > max {
        return Err(FrameTooLarge(len, max));
      }
      if |src.data| < 2 + 4 + len {
        return Ok(None);
      }
      src.Advance(2 + 4);
      var payload := src.SplitTo(len);
      assert payload == old(src.data)[6..6 + len];
      var inflated := ZlibDecompress(payload, max, z);
      if inflated.Err? {
        return Err(inflated.error);
      }
      return Ok(Some(Compressed(inflated.value)));
    } else {
      return Err(InvalidFrame(UnknownType));
    }
  }
}
