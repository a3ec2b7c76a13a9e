/** Frame headers, the compression framing and the split of a byte stream into frames
    (section 2 of CQL Binary Protocol v4; src/io/protocol/frame.cpp, lz4_utils.cpp). */
module Frames {
  import opened Bytes
  import opened BufferIO

  const HEADER_SIZE := 9
  const COMPRESSION_FLAG := 0x01
  const REQUEST_VERSION := 0x04
  const RESPONSE_VERSION := 0x84

  datatype FrameHeader = FrameHeader(version: byte, flags: byte, stream: int, opcode: byte, length: int)

  /** A frame on the wire: its header and the bytes that follow. */
  datatype Frame = Frame(header: FrameHeader, body: seq<byte>)

  predicate FitsHeader(h: FrameHeader) {
    -0x8000 <= h.stream < 0x8000 && -INT_LIMIT <= h.length < INT_LIMIT
  }

  predicate FitsFrame(f: Frame) {
    FitsHeader(f.header) && f.header.length == |f.body|
  }

  /** The five bytes in front of the length. */
  function EncLead(h: FrameHeader): (b: seq<byte>)
    requires FitsHeader(h)
    ensures |b| == 5
  {
    [h.version, h.flags] + EncI16(h.stream) + [h.opcode]
  }

  function EncHeader(h: FrameHeader): (b: seq<byte>)
    requires FitsHeader(h)
    ensures |b| == HEADER_SIZE
  {
    EncLead(h) + EncI32(h.length)
  }

  function ReadLead(b: seq<byte>): (r: Read<FrameHeader>)
    ensures r.Got? ==> |r.rest| == |b| - 5 && -0x8000 <= r.value.stream < 0x8000 && r.value.length == 0
  {
    if |b| < 5 then Malformed
    else
      var (stream, _) :- ReadI16(b[2..4]);
      Got(FrameHeader(b[0], b[1], stream, b[4], 0), b[5..])
  }

  function ReadHeader(b: seq<byte>): (r: Read<FrameHeader>)
    ensures r.Got? ==> |r.rest| == |b| - HEADER_SIZE && FitsHeader(r.value)
  {
    var (lead, b1) :- ReadLead(b);
    var (length, b2) :- ReadI32(b1);
    Got(lead.(length := length), b2)
  }

  lemma HeaderRoundTrip(h: FrameHeader, rest: seq<byte>)
    requires FitsHeader(h)
    ensures ReadHeader(EncHeader(h) + rest) == Got(h, rest)
  {
    var b := EncHeader(h) + rest;
    Assoc(EncLead(h), EncI32(h.length), rest);
    assert b[5..] == EncI32(h.length) + rest;
    assert b[2..4] == EncI16(h.stream) + [];
    I16RoundTrip(h.stream, []);
    I32RoundTrip(h.length, rest);
  }

  // ----- the back-patched length -----

  /** `UpdateLength`: bytes 5 to 8 of the buffer are overwritten. */
  function Patched(buffer: seq<byte>, length: int): (b: seq<byte>)
    requires |buffer| >= HEADER_SIZE && -INT_LIMIT <= length < INT_LIMIT
    ensures |b| == |buffer|
  {
    buffer[..5] + EncI32(length) + buffer[9..]
  }

  /** Patching changes the header's length field and no other byte of the buffer. */
  lemma PatchSetsLengthOnly(h: FrameHeader, body: seq<byte>, length: int)
    requires FitsHeader(h) && -INT_LIMIT <= length < INT_LIMIT
    ensures Patched(EncHeader(h) + body, length) == EncHeader(h.(length := length)) + body
    ensures forall i :: 0 <= i < HEADER_SIZE + |body| && !(5 <= i < 9) ==>
              Patched(EncHeader(h) + body, length)[i] == (EncHeader(h) + body)[i]
  {
    var b := EncHeader(h) + body;
    assert b[..5] == EncLead(h);
    assert b[9..] == body;
  }

  method WriteHeader(w: BufferWriter, h: FrameHeader)
    requires FitsHeader(h)
    modifies w
    ensures w.buffer == old(w.buffer) + EncHeader(h)
  {
    w.WriteOctet(h.version);
    w.WriteOctet(h.flags);
    w.buffer := w.buffer + EncI16(h.stream);
    w.WriteOctet(h.opcode);
    w.WriteInt(h.length);
  }

  method UpdateLength(w: BufferWriter, length: int)
    requires |w.buffer| >= HEADER_SIZE && -INT_LIMIT <= length < INT_LIMIT
    modifies w
    ensures w.buffer == Patched(old(w.buffer), length)
  {
    var be := EncI32(length);
    for i := 0 to 4
      invariant |w.buffer| == |old(w.buffer)|
      invariant forall k :: 0 <= k < |w.buffer| ==>
                  w.buffer[k] == if 5 <= k < 5 + i then be[k - 5] else old(w.buffer)[k]
    {
      w.buffer := w.buffer[5 + i := be[i]];
    }
  }

  // ----- compression -----

  /** The LZ4 block functions, kept abstract: `compress` never yields an empty block and
      `decompress` undoes it when told the original size. */
  datatype Lz4 = Lz4(compress: seq<byte> -> seq<byte>, decompress: (seq<byte>, nat) -> Option<seq<byte>>)

  ghost predicate Inverse(lz: Lz4) {
    forall x: seq<byte> :: lz.compress(x) != [] && lz.decompress(lz.compress(x), |x|) == Some(x)
  }

  ghost predicate Usable(lz: Option<Lz4>) { lz.Some? ==> Inverse(lz.value) }

  function Store(x: seq<byte>): seq<byte> { [0] + x }

  function Unstore(block: seq<byte>, size: nat): Option<seq<byte>> { if block == [] then None else Some(block[1..]) }

  /** Such a pair exists, for instance the one that stores blocks behind a marker byte. */
  lemma StoredBlocksAreInverse()
    ensures Inverse(Lz4(Store, (b, n) => Unstore(b, n)))
  {
    var lz := Lz4(Store, (b, n) => Unstore(b, n));
    forall x: seq<byte> ensures lz.compress(x) != [] && lz.decompress(lz.compress(x), |x|) == Some(x) {
      assert Store(x)[1..] == x;
      hide Store;
    }
  }

  /** `Lz4Compressor::Compress`: original size, then the block. */
  function Compress(lz: Lz4, source: seq<byte>): seq<byte>
    requires |source| < INT_LIMIT
  {
    EncI32(|source|) + lz.compress(source)
  }

  /** `Lz4Compressor::Decompress`: any size other than the announced one throws. */
  function Decompress(lz: Lz4, source: seq<byte>): Option<seq<byte>> {
    match ReadI32(source)
    case Malformed => None
    case Got(size, block) => if size < 0 then None else DecompressBlock(lz, block, size)
  }

  function DecompressBlock(lz: Lz4, block: seq<byte>, size: nat): Option<seq<byte>> {
    var out :- lz.decompress(block, size);
    if |out| == size then Some(out) else None
  }

  lemma DecompressUndoesCompress(lz: Lz4, source: seq<byte>)
    requires Inverse(lz) && |source| < INT_LIMIT
    ensures Decompress(lz, Compress(lz, source)) == Some(source)
  {
    var block := lz.compress(source);
    I32RoundTrip(|source|, block);
    assert lz.decompress(block, |source|) == Some(source);
    assert DecompressBlock(lz, block, |source|) == Some(source);
  }

  /** A body as it travels when `lz` has been negotiated. */
  function Packed(lz: Option<Lz4>, body: seq<byte>): seq<byte>
    requires |body| < INT_LIMIT
  {
    if lz.Some? then Compress(lz.value, body) else body
  }

  function Unpacked(lz: Option<Lz4>, bytes: seq<byte>): Option<seq<byte>> {
    if lz.Some? then Decompress(lz.value, bytes) else Some(bytes)
  }

  lemma UnpackedPacked(lz: Option<Lz4>, body: seq<byte>)
    requires Usable(lz) && |body| < INT_LIMIT
    ensures Unpacked(lz, Packed(lz, body)) == Some(body)
  {
    if lz.Some? {
      DecompressUndoesCompress(lz.value, body);
    }
  }

  // ----- byte streams and frames -----

  function EncFrame(f: Frame): (b: seq<byte>)
    requires FitsFrame(f)
    ensures |b| >= HEADER_SIZE
  {
    EncHeader(f.header) + f.body
  }

  function Stream(frames: seq<Frame>): seq<byte>
    requires forall f :: f in frames ==> FitsFrame(f)
  {
    if frames == [] then [] else EncFrame(frames[0]) + Stream(frames[1..])
  }

  /** One frame off the front of the stream: header, then as many bytes as it announces. */
  function TakeFrame(b: seq<byte>): (r: Read<Frame>)
    ensures r.Got? ==> |r.rest| < |b|
  {
    var (h, b1) :- ReadHeader(b);
    if h.length < 0 || |b1| < h.length then Malformed
    else Got(Frame(h, b1[..h.length]), b1[h.length..])
  }

  function Deframe(b: seq<byte>): Option<seq<Frame>>
    decreases |b|
  {
    if b == [] then Some([])
    else match TakeFrame(b)
      case Malformed => None
      case Got(f, rest) =>
        var fs :- Deframe(rest);
        Some([f] + fs)
  }

  lemma TakeFrameRoundTrip(f: Frame, rest: seq<byte>)
    requires FitsFrame(f)
    ensures TakeFrame(EncFrame(f) + rest) == Got(f, rest)
  {
    Assoc(EncHeader(f.header), f.body, rest);
    HeaderRoundTrip(f.header, f.body + rest);
    assert (f.body + rest)[..|f.body|] == f.body;
    assert (f.body + rest)[|f.body|..] == rest;
  }

  /** A stream of whole frames deframes into exactly those frames in order ... */
  lemma {:induction false} DeframeStream(frames: seq<Frame>)
    requires forall f :: f in frames ==> FitsFrame(f)
    ensures Deframe(Stream(frames)) == Some(frames)
  {
    if frames != [] {
      assert frames[0] in frames;
      TakeFrameRoundTrip(frames[0], Stream(frames[1..]));
      DeframeStream(frames[1..]);
      assert frames == [frames[0]] + frames[1..];
    }
  }

  /** ... and into nothing else: two frame sequences with the same bytes are the same sequence. */
  lemma StreamInjective(fs: seq<Frame>, gs: seq<Frame>)
    requires forall f :: f in fs ==> FitsFrame(f)
    requires forall g :: g in gs ==> FitsFrame(g)
    requires Stream(fs) == Stream(gs)
    ensures fs == gs
  {
    DeframeStream(fs);
    DeframeStream(gs);
  }

  lemma {:induction false} StreamConcat(fs: seq<Frame>, gs: seq<Frame>)
    requires forall f :: f in fs ==> FitsFrame(f)
    requires forall g :: g in gs ==> FitsFrame(g)
    ensures Stream(fs + gs) == Stream(fs) + Stream(gs)
  {
    if fs == [] {
      assert fs + gs == gs;
    } else {
      StreamConcat(fs[1..], gs);
      assert (fs + gs)[1..] == fs[1..] + gs && (fs + gs)[0] == fs[0];
      Assoc(EncFrame(fs[0]), Stream(fs[1..]), Stream(gs));
    }
  }

  // ----- deframing is exact -----

  lemma I16Exact(b: seq<byte>)
    requires |b| == 2
    ensures ReadI16(b).Got? && EncI16(ReadI16(b).value) == b
  {
    U16Exact(b);
    assert EncU16(ReadU16(b).value) + [] == EncU16(ReadU16(b).value);
  }

  lemma I32Exact(b: seq<byte>)
    requires ReadI32(b).Got?
    ensures b == EncI32(ReadI32(b).value) + ReadI32(b).rest
  {
    U32Exact(b);
    hide EncU32, ReadU32;
  }

  lemma U32Exact(b: seq<byte>)
    requires ReadU32(b).Got?
    ensures b == EncU32(ReadU32(b).value) + ReadU32(b).rest
  {
    var hi, lo := b[0] as int * 256 + b[1], b[2] as int * 256 + b[3];
    var u := ReadU32(b).value;
    assert u == hi * 0x1_0000 + lo;
    assert u / 0x1_0000 == hi && u % 0x1_0000 == lo;
    assert EncU16(hi) == b[..2] && EncU16(lo) == b[2..4];
    assert b == (b[..2] + b[2..4]) + b[4..];
  }

  lemma HeaderExact(b: seq<byte>)
    requires ReadHeader(b).Got?
    ensures b == EncHeader(ReadHeader(b).value) + ReadHeader(b).rest
  {
    var h := ReadHeader(b).value;
    I16Exact(b[2..4]);
    I32Exact(b[5..]);
    assert b == EncLead(h) + b[5..];
    Assoc(EncLead(h), EncI32(h.length), ReadHeader(b).rest);
  }

  /** Whatever deframes is the stream of the frames found in it: no byte is skipped or read twice. */
  lemma {:induction false} DeframeExact(b: seq<byte>)
    requires Deframe(b).Some?
    ensures forall f :: f in Deframe(b).value ==> FitsFrame(f)
    ensures b == Stream(Deframe(b).value)
    decreases |b|
  {
    if b != [] {
      var Got(f, rest) := TakeFrame(b);
      HeaderExact(b);
      var b1 := ReadHeader(b).rest;
      assert b1 == f.body + rest;
      DeframeExact(rest);
      assert Deframe(b).value[1..] == Deframe(rest).value;
      Assoc(EncHeader(f.header), f.body, rest);
    }
  }
}
