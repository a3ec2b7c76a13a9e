/** Response frames: `ReadFrame` and `GetResponseMessageFromHeader` of src/detail/connection_impl.cpp,
    `ParseBody` and the body parsers of src/io/protocol/response_message.hpp. */
module Responses {
  import opened Bytes
  import opened BufferIO
  import opened Frames
  import R = Results

  const ERROR := 0x00
  const READY := 0x02
  const AUTHENTICATE := 0x03
  const SUPPORTED := 0x06
  const RESULT := 0x08

  const ROWS_KIND := 2
  const KEYSPACE_KIND := 3
  const PREPARED_KIND := 4

  datatype Response =
    | Error(code: int, message: seq<byte>)
    | Ready
    | Authenticate(challenge: seq<byte>)
    | Supported(options: map<seq<byte>, seq<seq<byte>>>)
    | Rows(rows: R.RowKind)
    | SetKeyspace(keyspace: seq<byte>)
    | Prepared(prepared: R.PreparedKind)
    | OtherResult(kind: int)   // void, or a kind without a modelled payload

  function ReadResult(b: seq<byte>): Read<Response> {
    var (kind, b1) :- ReadI32(b);
    if kind == ROWS_KIND then
      var (rows, b2) :- R.ReadRows(b1);
      Got(Rows(rows), b2)
    else if kind == KEYSPACE_KIND then
      var (ks, b2) :- ReadString(b1);
      Got(SetKeyspace(ks), b2)
    else if kind == PREPARED_KIND then
      var (p, b2) :- R.ReadPrepared(b1);
      Got(Prepared(p), b2)
    else
      Got(OtherResult(kind), b1)
  }

  function ReadError(b: seq<byte>): Read<Response> {
    var (code, b1) :- ReadI32(b);
    var (message, b2) :- ReadString(b1);
    Got(Error(code, message), b2)
  }

  /** `DoParseBody` of the message class chosen by opcode; any other opcode throws. */
  function ParseBody(opcode: int, b: seq<byte>): Read<Response> {
    if opcode == ERROR then ReadError(b)
    else if opcode == READY then Got(Ready, b)
    else if opcode == AUTHENTICATE then
      var (c, b1) :- ReadString(b);
      Got(Authenticate(c), b1)
    else if opcode == SUPPORTED then
      var (m, b1) :- ReadMap(ReadStringList, b);
      Got(Supported(m), b1)
    else if opcode == RESULT then ReadResult(b)
    else Malformed
  }

  /** One response off the socket: the frame, its direction, its body through the compressor when
      one is in use. Bytes of the body beyond what the parser reads are ignored. */
  function ReadFrame(lz: Option<Lz4>, b: seq<byte>): (r: Read<(int, Response)>)
    ensures r.Got? ==> |r.rest| < |b|
  {
    var (f, rest) :- TakeFrame(b);
    if f.header.version != RESPONSE_VERSION then Malformed
    else match Unpacked(lz, f.body)
      case None => Malformed
      case Some(body) =>
        var (response, _) :- ParseBody(f.header.opcode, body);
        Got((f.header.stream, response), rest)
  }

  /** Repeated `ReadFrame` until the bytes run out or one of them throws. */
  function ReadFrames(lz: Option<Lz4>, b: seq<byte>): seq<(int, Response)>
    decreases |b|
  {
    match ReadFrame(lz, b)
    case Malformed => []
    case Got(x, rest) => [x] + ReadFrames(lz, rest)
  }

  // ----- the server's side -----

  datatype Reply =
    | ErrorReply(code: int, message: seq<byte>)
    | ReadyReply
    | AuthenticateReply(challenge: seq<byte>)
    | SupportedReply(entries: seq<(seq<byte>, seq<seq<byte>>)>)
    | RowsReply(rows: R.RowsResult)
    | KeyspaceReply(keyspace: seq<byte>)
    | PreparedReply(prepared: R.PreparedKind, resultMetadata: seq<byte>)
    | VoidReply

  function OpcodeOf(r: Reply): byte {
    match r
    case ErrorReply(_, _) => ERROR as byte
    case ReadyReply => READY as byte
    case AuthenticateReply(_) => AUTHENTICATE as byte
    case SupportedReply(_) => SUPPORTED as byte
    case RowsReply(_) => RESULT as byte
    case KeyspaceReply(_) => RESULT as byte
    case PreparedReply(_, _) => RESULT as byte
    case VoidReply => RESULT as byte
  }

  predicate FitsReply(r: Reply) {
    match r
    case ErrorReply(code, m) => -INT_LIMIT <= code < INT_LIMIT && FitsShort(m)
    case ReadyReply => true
    case AuthenticateReply(c) => FitsShort(c)
    case SupportedReply(es) => |es| < SHORT_LIMIT && forall e :: e in es ==> FitsShort(e.0) && FitsStringList(e.1)
    case RowsReply(rows) => R.FitsRows(rows)
    case KeyspaceReply(ks) => FitsShort(ks)
    case PreparedReply(p, _) => R.FitsPrepared(p)
    case VoidReply => true
  }

  function EncReply(r: Reply): seq<byte>
    requires FitsReply(r)
  {
    match r
    case ErrorReply(code, m) => EncI32(code) + EncString(m)
    case ReadyReply => []
    case AuthenticateReply(c) => EncString(c)
    case SupportedReply(es) => EncMap(EncStringList, es)
    case RowsReply(rows) => EncI32(ROWS_KIND) + R.EncRows(rows)
    case KeyspaceReply(ks) => EncI32(KEYSPACE_KIND) + EncString(ks)
    case PreparedReply(p, meta) => EncI32(PREPARED_KIND) + (R.EncPrepared(p) + meta)
    case VoidReply => EncI32(1)
  }

  /** What the client is to make of a reply. */
  function Meaning(r: Reply): Response
    requires FitsReply(r)
  {
    match r
    case ErrorReply(code, m) => Error(code, m)
    case ReadyReply => Ready
    case AuthenticateReply(c) => Authenticate(c)
    case SupportedReply(es) => Supported(Collect(es))
    case RowsReply(rs) => Rows(R.RowKind(R.HeadOf(rs), R.SpecOf(rs.meta), |rs.rows|, R.GridValues(rs.rows)))
    case KeyspaceReply(ks) => SetKeyspace(ks)
    case PreparedReply(p, _) => Prepared(p)
    case VoidReply => OtherResult(1)
  }

  lemma KindTagged(kind: int, payload: seq<byte>)
    requires -INT_LIMIT <= kind < INT_LIMIT
    ensures ReadI32(EncI32(kind) + payload) == Got(kind, payload)
  {
    I32RoundTrip(kind, payload);
  }

  lemma RowsReplyParsed(rows: R.RowsResult)
    requires R.FitsRows(rows)
    ensures ReadResult(EncReply(RowsReply(rows))) == Got(Meaning(RowsReply(rows)), [])
  {
    hide R.ReadPrepared, R.ReadRows, R.EncRows;
    KindTagged(ROWS_KIND, R.EncRows(rows));
    R.RowsRoundTrip(rows, []);
    assert R.EncRows(rows) + [] == R.EncRows(rows);
  }

  lemma KeyspaceReplyParsed(ks: seq<byte>)
    requires FitsShort(ks)
    ensures ReadResult(EncReply(KeyspaceReply(ks))) == Got(SetKeyspace(ks), [])
  {
    KindTagged(KEYSPACE_KIND, EncString(ks));
    StringRoundTrip(ks, []);
    assert EncString(ks) + [] == EncString(ks);
  }

  lemma PreparedReplyParsed(p: R.PreparedKind, meta: seq<byte>)
    requires R.FitsPrepared(p)
    ensures ReadResult(EncReply(PreparedReply(p, meta))) == Got(Prepared(p), meta)
  {
    hide R.ReadPrepared, R.EncPrepared, R.ReadRows;
    KindTagged(PREPARED_KIND, R.EncPrepared(p) + meta);
    R.PreparedRoundTrip(p, meta);
  }

  /** Every reply body is parsed to what it means. */
  lemma ReplyParsed(r: Reply)
    requires FitsReply(r)
    ensures var got := ParseBody(OpcodeOf(r) as int, EncReply(r)); got.Got? && got.value == Meaning(r)
  {
    hide ReadResult, ReadMap, EncMap, ReadError, R.EncRows, R.EncPrepared;
    match r {
      case ErrorReply(code, m) => ErrorReplyParsed(code, m);
      case ReadyReply =>
      case AuthenticateReply(c) =>
        StringRoundTrip(c, []);
        assert EncString(c) + [] == EncString(c);
      case SupportedReply(es) => SupportedReplyParsed(es);
      case RowsReply(rows) => RowsReplyParsed(rows);
      case KeyspaceReply(ks) => KeyspaceReplyParsed(ks);
      case PreparedReply(p, meta) => PreparedReplyParsed(p, meta);
      case VoidReply => VoidReplyParsed();
    }
  }

  lemma ErrorReplyParsed(code: int, m: seq<byte>)
    requires FitsReply(ErrorReply(code, m))
    ensures ReadError(EncReply(ErrorReply(code, m))) == Got(Error(code, m), [])
  {
    I32RoundTrip(code, EncString(m));
    StringRoundTrip(m, []);
    assert EncString(m) + [] == EncString(m);
  }

  lemma VoidReplyParsed()
    ensures ReadResult(EncReply(VoidReply)) == Got(OtherResult(1), [])
  {
    KindTagged(1, []);
    assert EncI32(1) + [] == EncI32(1);
  }

  lemma SupportedReplyParsed(es: seq<(seq<byte>, seq<seq<byte>>)>)
    requires FitsReply(SupportedReply(es))
    ensures ReadMap(ReadStringList, EncMap(EncStringList, es)) == Got(Collect(es), [])
  {
    forall e | e in es ensures FitsShort(e.0) && ReadsBack(EncStringList, ReadStringList, e.1) {
      StringListReadsBack(e.1);
    }
    EntriesRoundTrip(EncStringList, ReadStringList, es, []);
    assert EncMap(EncStringList, es) + [] == EncMap(EncStringList, es);
  }

  lemma RowsMeaning(rows: R.RowsResult)
    requires FitsReply(RowsReply(rows))
    ensures Meaning(RowsReply(rows)) == Rows(R.RowKind(R.HeadOf(rows), R.SpecOf(rows.meta), |rows.rows|, R.GridValues(rows.rows)))
  {
    hide FitsReply;
  }

  // ----- response frames -----

  predicate FitsOnWire(lz: Option<Lz4>, x: (int, Reply)) {
    && -0x8000 <= x.0 < 0x8000 && FitsReply(x.1)
    && |EncReply(x.1)| < INT_LIMIT && |Packed(lz, EncReply(x.1))| < INT_LIMIT
  }

  /** A response frame; its body is compressed exactly when compression was negotiated. */
  function ReplyFrame(lz: Option<Lz4>, x: (int, Reply)): (f: Frame)
    requires FitsOnWire(lz, x)
    ensures FitsFrame(f)
  {
    var bytes := Packed(lz, EncReply(x.1));
    Frame(FrameHeader(RESPONSE_VERSION, if lz.Some? then COMPRESSION_FLAG else 0, x.0, OpcodeOf(x.1), |bytes|), bytes)
  }

  function ReplyFrames(lz: Option<Lz4>, xs: seq<(int, Reply)>): (fs: seq<Frame>)
    requires forall x :: x in xs ==> FitsOnWire(lz, x)
    ensures |fs| == |xs| && forall f :: f in fs ==> FitsFrame(f)
  {
    if xs == [] then []
    else
      assert FitsOnWire(lz, xs[0]);
      [ReplyFrame(lz, xs[0])] + ReplyFrames(lz, xs[1..])
  }

  function Meanings(lz: Option<Lz4>, xs: seq<(int, Reply)>): (ms: seq<(int, Response)>)
    requires forall x :: x in xs ==> FitsOnWire(lz, x)
    ensures |ms| == |xs|
  {
    if xs == [] then []
    else
      assert FitsOnWire(lz, xs[0]);
      [(xs[0].0, Meaning(xs[0].1))] + Meanings(lz, xs[1..])
  }

  lemma ReplyFrameRead(lz: Option<Lz4>, x: (int, Reply), rest: seq<byte>)
    requires FitsOnWire(lz, x) && Usable(lz)
    ensures ReadFrame(lz, EncFrame(ReplyFrame(lz, x)) + rest) == Got((x.0, Meaning(x.1)), rest)
  {
    TakeFrameRoundTrip(ReplyFrame(lz, x), rest);
    UnpackedPacked(lz, EncReply(x.1));
    ReplyParsed(x.1);
  }

  /** Replies written one after the other to a socket are read back in order, each with its stream
      and its content, whatever the mix of messages and with or without compression. */
  lemma {:induction false} RepliesRead(lz: Option<Lz4>, xs: seq<(int, Reply)>)
    requires Usable(lz) && forall x :: x in xs ==> FitsOnWire(lz, x)
    ensures ReadFrames(lz, Stream(ReplyFrames(lz, xs))) == Meanings(lz, xs)
  {
    hide ReadFrame, EncFrame, ReplyFrame, Meaning;
    if xs != [] {
      assert FitsOnWire(lz, xs[0]);
      var rest := ReplyFrames(lz, xs[1..]);
      assert ReplyFrames(lz, xs)[1..] == rest;
      ReplyFrameRead(lz, xs[0], Stream(rest));
      RepliesRead(lz, xs[1..]);
    }
  }

  // ----- the reading methods -----

  method ParseResult(reader: BufferReader) returns (r: Option<Response>)
    requires reader.Valid()
    modifies reader`offset
    ensures reader.Valid() && Agrees(r, ReadResult(old(reader.Rest())), reader.Rest())
  {
    var kind :- reader.ReadInt();
    if kind == ROWS_KIND {
      var rows :- R.ParseRows(reader);
      r := Some(Rows(rows));
    } else if kind == KEYSPACE_KIND {
      var ks :- reader.ReadText();
      r := Some(SetKeyspace(ks));
    } else if kind == PREPARED_KIND {
      var p :- R.ParsePrepared(reader);
      r := Some(Prepared(p));
    } else {
      r := Some(OtherResult(kind));
    }
  }

  method ParseMessage(opcode: int, body: seq<byte>) returns (r: Option<Response>)
    ensures r == match ParseBody(opcode, body) case Malformed => None case Got(x, _) => Some(x)
  {
    var reader := new BufferReader(body);
    if opcode == ERROR {
      var code :- reader.ReadInt();
      var message :- reader.ReadText();
      r := Some(Error(code, message));
    } else if opcode == READY {
      r := Some(Ready);
    } else if opcode == AUTHENTICATE {
      var c :- reader.ReadText();
      r := Some(Authenticate(c));
    } else if opcode == SUPPORTED {
      var m :- reader.ReadTextMultiMap();
      r := Some(Supported(m));
    } else if opcode == RESULT {
      r := ParseResult(reader);
    } else {
      r := None;
    }
  }

  /** `socket` holds the bytes the peer sent; receiving past its end is the failed `RecvAll`. */
  method ReceiveFrame(socket: BufferReader, lz: Option<Lz4>) returns (r: Option<(int, Response)>)
    requires socket.Valid()
    modifies socket`offset
    ensures socket.Valid() && Agrees(r, ReadFrame(lz, old(socket.Rest())), socket.Rest())
  {
    hide ReadHeader, Unpacked, ParseBody;
    ghost var start := socket.Rest();
    if socket.offset + HEADER_SIZE > |socket.data| { return None; }
    var headerBuffer := socket.data[socket.offset..socket.offset + HEADER_SIZE];
    socket.offset := socket.offset + HEADER_SIZE;
    HeaderFromPrefix(start);
    assert headerBuffer == start[..HEADER_SIZE];
    var Got(header, _) := ReadHeader(headerBuffer);
    if header.version != RESPONSE_VERSION { return None; }
    if header.length < 0 || socket.offset + header.length > |socket.data| { return None; }
    var bodyBuffer := socket.data[socket.offset..socket.offset + header.length];
    assert bodyBuffer == start[HEADER_SIZE..][..header.length];
    socket.offset := socket.offset + header.length;
    var body :- Unpacked(lz, bodyBuffer);
    var response :- ParseMessage(header.opcode as int, body);
    return Some((header.stream, response));
  }

  /** The header is decided by the first nine bytes. */
  lemma HeaderFromPrefix(b: seq<byte>)
    requires |b| >= HEADER_SIZE
    ensures ReadHeader(b).Got? && ReadHeader(b[..HEADER_SIZE]) == Got(ReadHeader(b).value, [])
    ensures ReadHeader(b).rest == b[HEADER_SIZE..]
  {
    var p := b[..HEADER_SIZE];
    assert p[2..4] == b[2..4];
    assert p[5..] + b[9..] == b[5..];
  }
}
