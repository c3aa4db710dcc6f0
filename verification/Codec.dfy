/** The codec over a byte stream: `Framed` decodes until it needs more, then takes the next chunk. */
module Codec {
  import opened Bytes
  import opened Frames
  import opened FrameLaws

  class LumberjackCodec {
    const maxFrameSize: nat
    const z: Zlib

    constructor (maxFrameSize: nat, z: Zlib)
      ensures this.maxFrameSize == maxFrameSize && this.z == z
    {
      this.maxFrameSize := maxFrameSize;
      this.z := z;
    }

    method DecodeFrom(src: BytesMut) returns (r: Result<Option<Frame>>)
      modifies src
      ensures match Decode(old(src.data), maxFrameSize, z)
              case NeedMore => r == Ok(None) && src.data == old(src.data)
              case Got(f, rest) => r == Ok(Some(f)) && src.data == rest
              case Bad(e, rest) => r == Err(e) && src.data == rest
    {
      r := DecodeWithLimit(src, maxFrameSize, z);
    }

    method EncodeTo(item: Frame, dst: BytesMut)
      modifies dst
      ensures dst.data == old(dst.data) + Encode(item, z)
    {
      EncodeInto(item, dst, z);
    }
  }

  /** How a stream of frames ends: at a frame boundary, or with an error. */
  datatype Ending = Eof | Fault(error: Error)

  /** Everything a peer will still be read to say. */
  datatype Incoming = Incoming(frames: seq<Frame>, end: Ending)

  function AtEof(d: Drained): Incoming {
    Incoming(d.frames,
             if d.fault.Some? then Fault(d.fault.value)
             else if d.left == [] then Eof
             else Fault(Io(BytesRemaining)))
  }

  function Read(src: seq<byte>, max: nat, z: Zlib): Incoming {
    AtEof(Drain(src, max, z))
  }

  /** Whatever the transport's chunks are, the receiver reads the frames of the whole stream. */
  lemma ReadIgnoresChunks(chunks: seq<seq<byte>>, max: nat, z: Zlib)
    ensures AtEof(FeedAndDrain([], chunks, max, z)) == Read(Concat(chunks), max, z)
  {
    ChunkInsensitive([], chunks, max, z);
    assert [] + Concat(chunks) == Concat(chunks);
  }

  /** What reading looks like from the front of the stream. */
  lemma ReadHead(src: seq<byte>, max: nat, z: Zlib)
    ensures match Decode(src, max, z)
            case NeedMore =>
              && Read(src, max, z) == Incoming([], if src == [] then Eof else Fault(Io(BytesRemaining)))
              && Drain(src, max, z).left == src
            case Bad(e, left) => Read(src, max, z) == Incoming([], Fault(e)) && Drain(src, max, z).left == left
            case Got(f, rest) =>
              && Read(src, max, z) == Incoming([f] + Read(rest, max, z).frames, Read(rest, max, z).end)
              && Drain(src, max, z).left == Drain(rest, max, z).left
  {
    hide Decode;
  }

  /** A stream of whole frames ends cleanly; one that breaks off in the middle of a frame ends with an error. */
  lemma CutStreamFails(fs: seq<Frame>, f: Frame, cut: nat, max: nat, z: Zlib)
    requires Faithful(z) && AllFit(fs, max, z) && Fits(f, max, z) && cut < |Encode(f, z)|
    ensures Read(EncodeAll(fs, z) + Encode(f, z)[..cut], max, z)
            == Incoming(fs, if cut == 0 then Eof else Fault(Io(BytesRemaining)))
  {
    hide Encode, EncodeAll, Decode, Drain, Faithful, Fits;
    var part, behind := Encode(f, z)[..cut], Encode(f, z)[cut..];
    StreamRoundTrip(fs, part, max, z);
    assert part + behind == Encode(f, z) + [];
    FitsSized(f, max, z);
    DecodeOfHead(part, behind, f, [], max, z);
    DrainHead(part, max, z);
    assert fs + [] == fs;
  }

  lemma FitsSized(f: Frame, max: nat, z: Zlib)
    requires Fits(f, max, z)
    ensures Sized(f, z)
  {
  }

  /** A transport: chunks still to arrive before end of file, and the bytes it has taken. */
  class Stream {
    var arriving: seq<seq<byte>>
    var sent: seq<byte>

    constructor (arriving: seq<seq<byte>>)
      ensures this.arriving == arriving && sent == []
    {
      this.arriving := arriving;
      sent := [];
    }
  }

  /** `tokio_util::codec::Framed` with its read and write buffers. */
  class Framed {
    const io: Stream
    const codec: LumberjackCodec
    const readBuf: BytesMut
    const writeBuf: BytesMut

    constructor (io: Stream, codec: LumberjackCodec)
      ensures this.io == io && this.codec == codec && Valid()
      ensures fresh(readBuf) && fresh(writeBuf)
      ensures readBuf.data == [] && writeBuf.data == []
    {
      this.io := io;
      this.codec := codec;
      readBuf := new BytesMut([]);
      writeBuf := new BytesMut([]);
    }

    ghost predicate Valid() {
      readBuf != writeBuf
    }

    /** The bytes that are buffered or still to arrive. */
    ghost function Unread(): seq<byte>
      reads io, readBuf
    {
      readBuf.data + Concat(io.arriving)
    }

    ghost function Remaining(): Incoming
      reads io, readBuf
    {
      Read(Unread(), codec.maxFrameSize, codec.z)
    }

    /** The bytes that were taken for sending, in order, whether or not the transport has them yet. */
    ghost function Written(): seq<byte>
      reads io, writeBuf
    {
      io.sent + writeBuf.data
    }

    /** What is left undecoded when no further frame can be read. */
    ghost function Undecoded(): seq<byte>
      reads io, readBuf
    {
      Drain(Unread(), codec.maxFrameSize, codec.z).left
    }

    method Next() returns (r: Option<Result<Frame>>)
      requires Valid()
      modifies readBuf, io`arriving
      ensures old(Remaining()).frames != [] ==>
                && r == Some(Ok(old(Remaining()).frames[0]))
                && Remaining() == Incoming(old(Remaining()).frames[1..], old(Remaining()).end)
                && Undecoded() == old(Undecoded())
      ensures old(Remaining()).frames == [] ==>
                r == match old(Remaining()).end
                     case Eof => None
                     case Fault(e) => Some(Err(e))
      ensures old(Remaining()).frames == [] ==> Unread() == old(Undecoded())
      ensures old(Remaining()) == Incoming([], Eof) ==> Remaining() == old(Remaining())
    {
      while true
        invariant Unread() == old(Unread())
        decreases |io.arriving|
      {
        ghost var before := readBuf.data;
        ghost var behind := Concat(io.arriving);
        DecodeAppend(before, behind, codec.maxFrameSize, codec.z);
        ReadHead(before + behind, codec.maxFrameSize, codec.z);
        var d := codec.DecodeFrom(readBuf);
        hide Decode, Read, Drain;
        if d.Err? {
          return Some(Err(d.error));
        }
        if d.value.Some? {
          return Some(Ok(d.value.value));
        }
        if io.arriving == [] {
          assert before + behind == before;
          if readBuf.data == [] {
            return None;
          }
          return Some(Err(Io(BytesRemaining)));
        }
        assert before + behind == before + io.arriving[0] + Concat(io.arriving[1..]);
        readBuf.ExtendFromSlice(io.arriving[0]);
        io.arriving := io.arriving[1..];
      }
    }

    /** Takes a frame; under back-pressure some of the buffer may already move to the transport. */
    method Feed(f: Frame, fate: Option<Error>) returns (r: Option<Error>)
      requires Valid()
      modifies writeBuf, io`sent
      ensures r == fate
      ensures Written() == if fate.None? then old(Written()) + Encode(f, codec.z) else old(Written())
      ensures |old(io.sent)| <= |io.sent|
    {
      hide Encode;
      var early: nat :| early <= |writeBuf.data|;
      var head := writeBuf.SplitTo(early);
      io.sent := io.sent + head;
      assert Written() == old(Written());
      if fate.None? {
        codec.EncodeTo(f, writeBuf);
      }
      r := fate;
    }

    /** A flush that fails may have moved some of the buffer. */
    method Flush(fate: Option<Error>) returns (r: Option<Error>)
      requires Valid()
      modifies writeBuf, io`sent
      ensures r == fate
      ensures Written() == old(Written())
      ensures |old(io.sent)| <= |io.sent|
      ensures fate.None? ==> writeBuf.data == []
    {
      var n: nat :| n <= |writeBuf.data| && (fate.None? ==> n == |writeBuf.data|);
      var head := writeBuf.SplitTo(n);
      io.sent := io.sent + head;
      r := fate;
    }
  }
}
