/** Request bodies (sections 4.1.1 to 4.1.7 of CQL Binary Protocol v4) and their serialisation into
    frames: src/io/protocol/request_message.hpp. The decoders are the server's side of the same
    sections. */
module Requests {
  import opened Bytes
  import opened BufferIO
  import opened Frames

  const VALUES_FLAG := 0x01
  const SKIP_METADATA_FLAG := 0x02

  /** One statement of a batch: query text or prepared id. */
  datatype Statement = Text(query: seq<byte>) | Id(id: seq<byte>)
  datatype BatchStatement = BatchStatement(query: Statement, params: seq<seq<byte>>)

  datatype Request =
    | Startup(options: seq<(seq<byte>, seq<byte>)>)
    | Options
    | Query(query: seq<byte>, consistency: int, params: seq<seq<byte>>)
    | Prepare(query: seq<byte>)
    | Execute(id: seq<byte>, consistency: int, params: seq<seq<byte>>)
    | Batch(statements: seq<BatchStatement>, consistency: int)

  function OpcodeOf(r: Request): byte {
    match r
    case Startup(_) => 0x01
    case Options => 0x05
    case Query(_, _, _) => 0x07
    case Prepare(_) => 0x09
    case Execute(_, _, _) => 0x0A
    case Batch(_, _) => 0x0D
  }

  // ----- what the C++ types can hold (sizes below 2^31, a 16-bit consistency) -----

  predicate FitsInt(v: seq<byte>) { |v| < INT_LIMIT }

  predicate Values(vs: seq<seq<byte>>) { forall v :: v in vs ==> FitsInt(v) }

  predicate HeldStatement(s: BatchStatement) {
    Values(s.params) && (s.query.Text? ==> FitsInt(s.query.query))
  }

  predicate Held(r: Request) {
    match r
    case Startup(_) => true
    case Options => true
    case Query(q, c, ps) => FitsInt(q) && 0 <= c < SHORT_LIMIT && Values(ps)
    case Prepare(q) => FitsInt(q)
    case Execute(_, c, ps) => 0 <= c < SHORT_LIMIT && Values(ps)
    case Batch(ss, c) => 0 <= c < SHORT_LIMIT && forall s :: s in ss ==> HeldStatement(s)
  }

  // ----- what the [short] counts of the protocol can express -----

  predicate FitsStatement(s: BatchStatement) {
    |s.params| < SHORT_LIMIT && (s.query.Id? ==> FitsShort(s.query.id))
  }

  predicate FitsOption(o: (seq<byte>, seq<byte>)) { FitsShort(o.0) && FitsShort(o.1) }

  predicate Fits(r: Request) {
    match r
    case Startup(os) => |os| < SHORT_LIMIT && forall o :: o in os ==> FitsOption(o)
    case Options => true
    case Query(_, _, ps) => |ps| < SHORT_LIMIT
    case Prepare(_) => true
    case Execute(id, _, ps) => FitsShort(id) && |ps| < SHORT_LIMIT
    case Batch(ss, _) => |ss| < SHORT_LIMIT && forall s :: s in ss ==> FitsStatement(s)
  }

  // ----- bodies as the client writes them -----

  /** The <query_parameters> both QUERY and EXECUTE end with. */
  function EncParameters(consistency: int, params: seq<seq<byte>>): seq<byte>
    requires 0 <= consistency < SHORT_LIMIT && Values(params)
  {
    EncU16(consistency) +
    if params == [] then [SKIP_METADATA_FLAG as byte]
    else [(SKIP_METADATA_FLAG + VALUES_FLAG) as byte] + EncBound(params)
  }

  function EncBound(params: seq<seq<byte>>): seq<byte>
    requires Values(params)
  {
    assert forall v :: v in params ==> FitsInt(v);
    EncValues(params)
  }

  function EncQueryOrId(s: Statement): seq<byte>
    requires s.Text? ==> FitsInt(s.query)
  {
    match s
    case Text(q) => [0 as byte] + EncBytes(q)
    case Id(id) => [1 as byte] + EncString(id)
  }

  function EncStatement(s: BatchStatement): seq<byte>
    requires HeldStatement(s)
  {
    EncQueryOrId(s.query) + EncBound(s.params)
  }

  function EncStatements(ss: seq<BatchStatement>): seq<byte>
    requires forall s :: s in ss ==> HeldStatement(s)
  {
    EncU16(ToShort(|ss|)) + EncMany(EncStatement, ss)
  }

  function EncBody(r: Request): seq<byte>
    requires Held(r)
  {
    match r
    case Startup(os) => EncMap(EncString, os)
    case Options => []
    case Query(q, c, ps) => EncBytes(q) + EncParameters(c, ps)
    case Prepare(q) => EncBytes(q)
    case Execute(id, c, ps) => EncString(id) + EncParameters(c, ps)
    case Batch(ss, c) => [0 as byte] + (EncStatements(ss) + (EncU16(c) + [0 as byte]))
  }

  // ----- the server's decoders -----

  /** Reads consistency, flags and, when flagged, the values. Flags for options this client never
      sends are not understood. */
  function ReadParameters(b: seq<byte>): (r: Read<(int, seq<seq<byte>>)>)
    ensures r.Got? ==> |r.value.1| < SHORT_LIMIT
  {
    var (c, b1) :- ReadU16(b);
    var (flags, b2) :- ReadByte(b1);
    if flags >= 4 then Malformed
    else
      var (ps, b3) :- if flags % 2 == 1 then ReadValues(b2) else Got([], b2);
      Got((c, ps), b3)
  }

  function ReadQueryOrId(b: seq<byte>): (r: Read<Statement>)
    ensures r.Got? && r.value.Id? ==> FitsShort(r.value.id)
  {
    var (kind, b1) :- ReadByte(b);
    if kind == 0 then
      var (q, b2) :- ReadLongString(b1);
      Got(Text(q), b2)
    else if kind == 1 then
      var (id, b2) :- ReadString(b1);
      Got(Id(id), b2)
    else
      Malformed
  }

  function ReadStatement(b: seq<byte>): (r: Read<BatchStatement>)
    ensures r.Got? ==> FitsStatement(r.value)
  {
    var (q, b1) :- ReadQueryOrId(b);
    var (ps, b2) :- ReadValues(b1);
    Got(BatchStatement(q, ps), b2)
  }

  function ReadStatements(b: seq<byte>): (r: Read<seq<BatchStatement>>)
    ensures r.Got? ==> |r.value| < SHORT_LIMIT && forall s :: s in r.value ==> FitsStatement(s)
  {
    var (n, b1) :- ReadU16(b);
    ManyAll(ReadStatement, FitsStatement, n, b1);
    ReadMany(ReadStatement, n, b1)
  }

  /** Logged batches without further options. */
  function ReadBatch(b: seq<byte>): (r: Read<Request>)
    ensures r.Got? ==> r.value.Batch? && Fits(r.value)
  {
    var (kind, b1) :- ReadByte(b);
    var (ss, b2) :- ReadStatements(b1);
    var (c, b3) :- ReadU16(b2);
    var (flags, b4) :- ReadByte(b3);
    if kind == 0 && flags == 0 then Got(Batch(ss, c), b4) else Malformed
  }

  function ReadOption(b: seq<byte>): (r: Read<(seq<byte>, seq<byte>)>)
    ensures r.Got? ==> FitsOption(r.value)
  {
    ReadEntry(ReadString, b)
  }

  function ReadOptions(b: seq<byte>): (r: Read<Request>)
    ensures r.Got? ==> r.value.Startup? && Fits(r.value)
  {
    var (n, b1) :- ReadU16(b);
    ManyAll(ReadOption, FitsOption, n, b1);
    var (os, b2) :- ReadMany(ReadOption, n, b1);
    Got(Startup(os), b2)
  }

  function ReadQuery(b: seq<byte>): (r: Read<Request>)
    ensures r.Got? ==> r.value.Query? && Fits(r.value)
  {
    var (q, b1) :- ReadLongString(b);
    var (ps, b2) :- ReadParameters(b1);
    Got(Query(q, ps.0, ps.1), b2)
  }

  function ReadExecute(b: seq<byte>): (r: Read<Request>)
    ensures r.Got? ==> r.value.Execute? && Fits(r.value)
  {
    var (id, b1) :- ReadString(b);
    var (ps, b2) :- ReadParameters(b1);
    Got(Execute(id, ps.0, ps.1), b2)
  }

  function DecodeBody(opcode: byte, b: seq<byte>): (r: Read<Request>)
    ensures r.Got? ==> OpcodeOf(r.value) == opcode && Fits(r.value)
  {
    if opcode == 0x01 then ReadOptions(b)
    else if opcode == 0x05 then Got(Options, b)
    else if opcode == 0x07 then ReadQuery(b)
    else if opcode == 0x09 then
      var (q, b1) :- ReadLongString(b);
      Got(Prepare(q), b1)
    else if opcode == 0x0A then ReadExecute(b)
    else if opcode == 0x0D then ReadBatch(b)
    else Malformed
  }

  // ----- decoding undoes encoding, exactly when the counts fit -----

  lemma ParametersRoundTrip(c: int, params: seq<seq<byte>>, rest: seq<byte>)
    requires 0 <= c < SHORT_LIMIT && Values(params) && |params| < SHORT_LIMIT
    ensures ReadParameters(EncParameters(c, params) + rest) == Got((c, params), rest)
  {
    if params == [] {
      Assoc(EncU16(c), [SKIP_METADATA_FLAG as byte], rest);
      U16RoundTrip(c, [SKIP_METADATA_FLAG as byte] + rest);
      assert ([SKIP_METADATA_FLAG as byte] + rest)[1..] == rest;
    } else {
      var flags := [(SKIP_METADATA_FLAG + VALUES_FLAG) as byte];
      Assoc4(EncU16(c), flags, EncBound(params), rest);
      U16RoundTrip(c, flags + (EncBound(params) + rest));
      assert (flags + (EncBound(params) + rest))[1..] == EncBound(params) + rest;
      assert forall v :: v in params ==> FitsInt(v);
      ValuesRoundTrip(params, rest);
    }
  }

  /** The values bit of the flag byte is set exactly when there are values. */
  lemma ValuesFlagExact(c: int, params: seq<seq<byte>>)
    requires 0 <= c < SHORT_LIMIT && Values(params)
    ensures EncParameters(c, params)[2] % 2 == 1 <==> params != []
    ensures EncParameters(c, params)[2] / 2 % 2 == 1
  {
  }

  lemma StatementRoundTrip(s: BatchStatement, rest: seq<byte>)
    requires HeldStatement(s) && FitsStatement(s)
    ensures ReadStatement(EncStatement(s) + rest) == Got(s, rest)
  {
    var tail := EncBound(s.params) + rest;
    Assoc(EncQueryOrId(s.query), EncBound(s.params), rest);
    match s.query {
      case Text(q) =>
        Assoc([0 as byte], EncBytes(q), tail);
        assert ([0 as byte] + (EncBytes(q) + tail))[1..] == EncBytes(q) + tail;
        LongStringRoundTrip(q, tail);
      case Id(id) =>
        Assoc([1 as byte], EncString(id), tail);
        assert ([1 as byte] + (EncString(id) + tail))[1..] == EncString(id) + tail;
        StringRoundTrip(id, tail);
    }
    assert forall v :: v in s.params ==> FitsInt(v);
    ValuesRoundTrip(s.params, rest);
  }

  lemma StatementsInARow(ss: seq<BatchStatement>, rest: seq<byte>)
    requires forall s :: s in ss ==> HeldStatement(s) && FitsStatement(s)
    ensures ReadMany(ReadStatement, |ss|, EncMany(EncStatement, ss) + rest) == Got(ss, rest)
  {
    var enc, read := EncStatement, ReadStatement;
    forall s, tail | s in ss ensures read(enc(s) + tail) == Got(s, tail) {
      StatementRoundTrip(s, tail);
    }
    ManyRoundTrip(enc, read, ss, rest);
  }

  lemma StatementsRoundTrip(ss: seq<BatchStatement>, rest: seq<byte>)
    requires |ss| < SHORT_LIMIT && forall s :: s in ss ==> HeldStatement(s) && FitsStatement(s)
    ensures ReadStatements(EncStatements(ss) + rest) == Got(ss, rest)
  {
    hide EncU16, ReadU16, EncMany, ReadMany;
    StatementsInARow(ss, rest);
    Tagged(|ss|, EncMany(EncStatement, ss), rest);
  }

  lemma BatchRoundTrip(ss: seq<BatchStatement>, c: int, rest: seq<byte>)
    requires Held(Batch(ss, c)) && Fits(Batch(ss, c))
    ensures ReadBatch(EncBody(Batch(ss, c)) + rest) == Got(Batch(ss, c), rest)
  {
    var last := EncU16(c) + [0 as byte];
    Assoc4([0 as byte], EncStatements(ss), last, rest);
    var b1 := EncStatements(ss) + (last + rest);
    assert ([0 as byte] + b1)[1..] == b1;
    StatementsRoundTrip(ss, last + rest);
    Assoc(EncU16(c), [0 as byte], rest);
    U16RoundTrip(c, [0 as byte] + rest);
    assert ([0 as byte] + rest)[1..] == rest;
  }

  lemma OptionRoundTrip(o: (seq<byte>, seq<byte>), rest: seq<byte>)
    requires FitsOption(o)
    ensures ReadOption(EncEntry(EncString, o) + rest) == Got(o, rest)
  {
    Assoc(EncString(o.0), EncString(o.1), rest);
    StringRoundTrip(o.0, EncString(o.1) + rest);
    StringRoundTrip(o.1, rest);
  }

  lemma OptionsInARow(os: seq<(seq<byte>, seq<byte>)>, rest: seq<byte>)
    requires forall o :: o in os ==> FitsOption(o)
    ensures ReadMany(ReadOption, |os|, EncMany(EntryEncoder(EncString), os) + rest) == Got(os, rest)
  {
    var enc, read := EntryEncoder(EncString), ReadOption;
    forall o, tail | o in os ensures read(enc(o) + tail) == Got(o, tail) {
      OptionRoundTrip(o, tail);
    }
    ManyRoundTrip(enc, read, os, rest);
  }

  lemma OptionsRoundTrip(os: seq<(seq<byte>, seq<byte>)>, rest: seq<byte>)
    requires Fits(Startup(os))
    ensures ReadOptions(EncMap(EncString, os) + rest) == Got(Startup(os), rest)
  {
    hide EncU16, ReadU16, EncMany, ReadMany;
    OptionsInARow(os, rest);
    Tagged(|os|, EncMany(EntryEncoder(EncString), os), rest);
  }

  lemma QueryRoundTrip(q: seq<byte>, c: int, ps: seq<seq<byte>>, rest: seq<byte>)
    requires Held(Query(q, c, ps)) && |ps| < SHORT_LIMIT
    ensures ReadQuery((EncBytes(q) + EncParameters(c, ps)) + rest) == Got(Query(q, c, ps), rest)
  {
    Assoc(EncBytes(q), EncParameters(c, ps), rest);
    LongStringRoundTrip(q, EncParameters(c, ps) + rest);
    ParametersRoundTrip(c, ps, rest);
  }

  lemma ExecuteRoundTrip(id: seq<byte>, c: int, ps: seq<seq<byte>>, rest: seq<byte>)
    requires Held(Execute(id, c, ps)) && FitsShort(id) && |ps| < SHORT_LIMIT
    ensures ReadExecute((EncString(id) + EncParameters(c, ps)) + rest) == Got(Execute(id, c, ps), rest)
  {
    Assoc(EncString(id), EncParameters(c, ps), rest);
    StringRoundTrip(id, EncParameters(c, ps) + rest);
    ParametersRoundTrip(c, ps, rest);
  }

  lemma BodyDecodes(r: Request, rest: seq<byte>)
    requires Held(r) && Fits(r)
    ensures DecodeBody(OpcodeOf(r), EncBody(r) + rest) == Got(r, rest)
  {
    hide ReadOptions, ReadQuery, ReadExecute, ReadBatch, ReadLongString;
    match r {
      case Startup(os) => OptionsRoundTrip(os, rest);
      case Options => assert [] + rest == rest;
      case Query(q, c, ps) => QueryRoundTrip(q, c, ps, rest);
      case Prepare(q) => LongStringRoundTrip(q, rest);
      case Execute(id, c, ps) => ExecuteRoundTrip(id, c, ps, rest);
      case Batch(ss, c) => BatchRoundTrip(ss, c, rest);
    }
  }

  /** Each request body the client can build decodes to that very request, in front of any bytes,
      exactly when its counts and its prepared ids fit the 16-bit fields they are cast to. */
  lemma BodyRoundTrip(r: Request, rest: seq<byte>)
    requires Held(r)
    ensures DecodeBody(OpcodeOf(r), EncBody(r) + rest) == Got(r, rest) <==> Fits(r)
  {
    if Fits(r) {
      BodyDecodes(r, rest);
    }
  }

  // ----- frames -----

  predicate FitsOnWire(lz: Option<Lz4>, r: Request) {
    Held(r) && |EncBody(r)| < INT_LIMIT && |Packed(lz, EncBody(r))| < INT_LIMIT
  }

  /** A request together with its stream id. */
  predicate Sendable(lz: Option<Lz4>, x: (int, Request)) { -0x8000 <= x.0 < 0x8000 && FitsOnWire(lz, x.1) }

  /** The frame `Serialize` must produce. */
  function RequestFrame(lz: Option<Lz4>, x: (int, Request)): (f: Frame)
    requires Sendable(lz, x)
    ensures FitsFrame(f)
  {
    var bytes := Packed(lz, EncBody(x.1));
    Frame(FrameHeader(REQUEST_VERSION, if lz.Some? then COMPRESSION_FLAG else 0, x.0, OpcodeOf(x.1), |bytes|), bytes)
  }

  /** How a server of version 4 reads a request frame: decompress when the frame says so, decode the whole
      body. */
  function Understand(lz: Option<Lz4>, f: Frame): Option<(int, Request)> {
    var compressed := f.header.flags % 2 == 1;
    if f.header.version != 0x04 || (compressed && lz.None?) then None
    else
      var body :- Unpacked(if compressed then lz else None, f.body);
      WholeBody(f.header.stream, DecodeBody(f.header.opcode, body))
  }

  function WholeBody(stream: int, decoded: Read<Request>): Option<(int, Request)> {
    match decoded
    case Malformed => None
    case Got(r, rest) => if rest == [] then Some((stream, r)) else None
  }

  /** The server understands the request on its stream, compressed or not, exactly when it fits. */
  lemma RequestUnderstood(lz: Option<Lz4>, x: (int, Request))
    requires Sendable(lz, x) && Usable(lz)
    ensures Understand(lz, RequestFrame(lz, x)) == Some(x) <==> Fits(x.1)
  {
    hide EncBody, DecodeBody, Held, Fits, Packed, Unpacked, Inverse;
    UnpackedPacked(lz, EncBody(x.1));
    BodyRoundTrip(x.1, []);
    assert EncBody(x.1) + [] == EncBody(x.1);
    assert Unpacked(lz, RequestFrame(lz, x).body) == Some(EncBody(x.1));
  }

  /** With and without compression the same stream, opcode and body arrive; the headers differ in
      the compression flag and the length only. */
  lemma CompressionTransparent(lz: Lz4, x: (int, Request))
    requires Sendable(None, x) && Sendable(Some(lz), x) && Inverse(lz)
    ensures var plain, packed := RequestFrame(None, x), RequestFrame(Some(lz), x);
            && Unpacked(Some(lz), packed.body) == Some(plain.body)
            && packed.header == plain.header.(flags := COMPRESSION_FLAG, length := |packed.body|)
            && plain.header.flags == 0
  {
    UnpackedPacked(Some(lz), EncBody(x.1));
  }

  function FramesOf(lz: Option<Lz4>, rs: seq<(int, Request)>): (fs: seq<Frame>)
    requires forall x :: x in rs ==> Sendable(lz, x)
    ensures |fs| == |rs| && forall f :: f in fs ==> FitsFrame(f)
  {
    if rs == [] then []
    else
      assert Sendable(lz, rs[0]);
      [RequestFrame(lz, rs[0])] + FramesOf(lz, rs[1..])
  }

  function Understood(lz: Option<Lz4>, fs: seq<Frame>): Option<seq<(int, Request)>> {
    if fs == [] then Some([])
    else
      var x :- Understand(lz, fs[0]);
      var xs :- Understood(lz, fs[1..]);
      Some([x] + xs)
  }

  lemma {:induction false} FramesUnderstood(lz: Option<Lz4>, rs: seq<(int, Request)>)
    requires Usable(lz) && forall x :: x in rs ==> Sendable(lz, x) && Fits(x.1)
    ensures Understood(lz, FramesOf(lz, rs)) == Some(rs)
  {
    hide Understand, RequestFrame, Fits, Held, EncBody, Sendable, Inverse;
    if rs != [] {
      assert Sendable(lz, rs[0]);
      RequestUnderstood(lz, rs[0]);
      FramesUnderstood(lz, rs[1..]);
      assert FramesOf(lz, rs)[1..] == FramesOf(lz, rs[1..]);
      assert rs == [rs[0]] + rs[1..];
    }
  }

  /** Requests put on one socket one after the other are recovered from the raw bytes: as many, in
      order, each on its stream, with every field. */
  lemma ServerReceivesRequests(lz: Option<Lz4>, rs: seq<(int, Request)>)
    requires Usable(lz) && forall x :: x in rs ==> Sendable(lz, x) && Fits(x.1)
    ensures var got := Deframe(Stream(FramesOf(lz, rs))); got.Some? && Understood(lz, got.value) == Some(rs)
  {
    DeframeStream(FramesOf(lz, rs));
    FramesUnderstood(lz, rs);
  }

  // ----- the writing methods -----

  method WriteParameters(w: BufferWriter, consistency: int, params: seq<seq<byte>>)
    requires 0 <= consistency < SHORT_LIMIT && Values(params)
    modifies w
    ensures w.buffer == old(w.buffer) + EncParameters(consistency, params)
  {
    w.WriteShort(consistency);
    var flags := SKIP_METADATA_FLAG;
    if params != [] {
      flags := flags + VALUES_FLAG;
    }
    w.WriteOctet(flags as byte);
    Assoc(old(w.buffer), EncU16(consistency), [flags as byte]);
    if params != [] {
      assert forall v :: v in params ==> FitsInt(v);
      w.WriteValues(params);
      Assoc4(old(w.buffer), EncU16(consistency), [flags as byte], EncBound(params));
      Assoc(EncU16(consistency), [flags as byte], EncBound(params));
      Assoc(old(w.buffer), EncU16(consistency) + [flags as byte], EncBound(params));
    }
  }

  method WriteStatement(w: BufferWriter, s: BatchStatement)
    requires HeldStatement(s)
    modifies w
    ensures w.buffer == old(w.buffer) + EncStatement(s)
  {
    match s.query {
      case Text(q) =>
        w.WriteOctet(0);
        w.WriteBlock(q);
        Assoc(old(w.buffer), [0 as byte], EncBytes(q));
      case Id(id) =>
        w.WriteOctet(1);
        w.WriteText(id);
        Assoc(old(w.buffer), [1 as byte], EncString(id));
    }
    assert forall v :: v in s.params ==> FitsInt(v);
    w.WriteValues(s.params);
    Assoc(old(w.buffer), EncQueryOrId(s.query), EncBound(s.params));
  }

  method WriteStatements(w: BufferWriter, ss: seq<BatchStatement>)
    requires forall s :: s in ss ==> HeldStatement(s)
    modifies w
    ensures w.buffer == old(w.buffer) + EncStatements(ss)
  {
    w.WriteShort(ToShort(|ss|));
    ghost var start := w.buffer;
    for i := 0 to |ss|
      invariant w.buffer == start + EncMany(EncStatement, ss[..i])
    {
      hide EncMany, EncStatement, HeldStatement;
      WriteStatement(w, ss[i]);
      EncManySnoc(EncStatement, ss, i);
      Assoc(start, EncMany(EncStatement, ss[..i]), EncStatement(ss[i]));
    }
    assert ss[..|ss|] == ss;
    Assoc(old(w.buffer), EncU16(ToShort(|ss|)), EncMany(EncStatement, ss));
  }

  method WriteBatch(w: BufferWriter, ss: seq<BatchStatement>, c: int)
    requires Held(Batch(ss, c))
    modifies w
    ensures w.buffer == old(w.buffer) + EncBody(Batch(ss, c))
  {
    w.WriteOctet(0);
    WriteStatements(w, ss);
    w.WriteShort(c);
    w.WriteOctet(0);
    var before, last := old(w.buffer) + [0 as byte], EncU16(c) + [0 as byte];
    Assoc(before + EncStatements(ss), EncU16(c), [0 as byte]);
    Assoc(before, EncStatements(ss), last);
    Assoc(old(w.buffer), [0 as byte], EncStatements(ss) + last);
  }

  method SerializeBody(w: BufferWriter, r: Request)
    requires Held(r)
    modifies w
    ensures w.buffer == old(w.buffer) + EncBody(r)
  {
    match r {
      case Startup(os) => w.WriteTextMap(os);
      case Options =>
      case Query(q, c, ps) =>
        w.WriteBlock(q);
        WriteParameters(w, c, ps);
        Assoc(old(w.buffer), EncBytes(q), EncParameters(c, ps));
      case Prepare(q) => w.WriteBlock(q);
      case Execute(id, c, ps) =>
        w.WriteText(id);
        WriteParameters(w, c, ps);
        Assoc(old(w.buffer), EncString(id), EncParameters(c, ps));
      case Batch(ss, c) => WriteBatch(w, ss, c);
    }
  }

  /** `RequestMessage::Serialize` into a fresh buffer: header with length 0, body (through the
      compressor when there is one), then the length patched in if there is a body. The result is
      the frame whose header announces exactly the bytes behind it. */
  method Serialize(stream: int, r: Request, lz: Option<Lz4>) returns (buffer: seq<byte>)
    requires Sendable(lz, (stream, r))
    ensures buffer == EncFrame(RequestFrame(lz, (stream, r)))
  {
    var w := new BufferWriter();
    var h := FrameHeader(REQUEST_VERSION, if lz.Some? then COMPRESSION_FLAG else 0, stream, OpcodeOf(r), 0);
    WriteHeader(w, h);
    assert w.buffer == EncHeader(h);
    if lz.None? {
      SerializeBody(w, r);
    } else {
      var body := new BufferWriter();
      SerializeBody(body, r);
      assert body.buffer == EncBody(r);
      w.buffer := w.buffer + Compress(lz.value, body.buffer);
    }
    var length := |w.buffer| - HEADER_SIZE;
    PatchSetsLengthOnly(h, Packed(lz, EncBody(r)), length);
    if length > 0 {
      UpdateLength(w, length);
    }
    return w.buffer;
  }
}
