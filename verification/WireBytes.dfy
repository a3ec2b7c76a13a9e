/** The bytes of CQL Binary Protocol v4 written out: byte order, codes, flags and the order of fields, each
    as literal bytes, so that an encoder and a parser that agree with each other also agree with the
    protocol (include/cassandra/io/protocol/frame.hpp:10-80, src/io/protocol/). */
module WireBytes {
  import opened Bytes
  import opened BufferIO
  import opened ColumnTypes
  import opened Frames
  import R = Results
  import Req = Requests
  import Resp = Responses
  import T = TypedRows

  /** Four bytes as a big-endian number, and as a two's complement one. */
  function Word(a: byte, b: byte, c: byte, d: byte): int { a * 0x100_0000 + b * 0x1_0000 + c * 0x100 + d }

  function SignedWord(a: byte, b: byte, c: byte, d: byte): int {
    if a < 0x80 then Word(a, b, c, d) else Word(a, b, c, d) - 0x1_0000_0000
  }

  // ----- byte order -----

  lemma ShortBytes(a: byte, b: byte, rest: seq<byte>)
    ensures EncU16(a * 0x100 + b) == [a, b] && ReadU16([a, b] + rest) == Got(a * 0x100 + b, rest)
    ensures ReadI16([a, b] + rest) == Got(if a < 0x80 then a * 0x100 + b else a * 0x100 + b - 0x1_0000, rest)
  {
    assert ([a, b] + rest)[2..] == rest;
  }

  lemma WordBytes(a: byte, b: byte, c: byte, d: byte)
    ensures 0 <= Word(a, b, c, d) < 0x1_0000_0000 && EncU32(Word(a, b, c, d)) == [a, b, c, d]
  {
    var hi, lo := a * 0x100 + b, c * 0x100 + d;
    assert Word(a, b, c, d) == hi * 0x1_0000 + lo;
    ShortBytes(a, b, []);
    ShortBytes(c, d, []);
    assert Word(a, b, c, d) / 0x1_0000 == hi && Word(a, b, c, d) % 0x1_0000 == lo;
    hide EncU16, Word;
    assert [a, b] + [c, d] == [a, b, c, d];
  }

  lemma IntBytes(a: byte, b: byte, c: byte, d: byte, rest: seq<byte>)
    ensures -0x8000_0000 <= SignedWord(a, b, c, d) < 0x8000_0000 && EncI32(SignedWord(a, b, c, d)) == [a, b, c, d]
    ensures ReadI32([a, b, c, d] + rest) == Got(SignedWord(a, b, c, d), rest)
  {
    WordBytes(a, b, c, d);
    I32RoundTrip(SignedWord(a, b, c, d), rest);
    hide EncU32, ReadI32;
  }

  lemma LongBytes(a: byte, b: byte, c: byte, d: byte, e: byte, f: byte, g: byte, h: byte, rest: seq<byte>)
    ensures ReadI64([a, b, c, d] + ([e, f, g, h] + rest)) == Got(SignedWord(a, b, c, d) * 0x1_0000_0000 + Word(e, f, g, h), rest)
  {
    hide ReadU32, EncU32, Word, SignedWord, ReadI64, Signed;
    WordBytes(a, b, c, d);
    WordBytes(e, f, g, h);
    U32RoundTrip(Word(a, b, c, d), [e, f, g, h] + rest);
    U32RoundTrip(Word(e, f, g, h), rest);
    TopBit(a, b, c, d);
    HighAndLow([a, b, c, d] + ([e, f, g, h] + rest), Word(a, b, c, d), [e, f, g, h] + rest, Word(e, f, g, h), rest);
  }

  lemma HighAndLow(x: seq<byte>, hi: int, y: seq<byte>, lo: int, rest: seq<byte>)
    requires ReadU32(x) == Got(hi, y) && ReadU32(y) == Got(lo, rest)
    ensures ReadI64(x) == Got((if hi < 0x8000_0000 then hi else hi - 0x1_0000_0000) * 0x1_0000_0000 + lo, rest)
  {
    SignedLong(hi, lo);
    hide ReadU32, Signed;
  }

  lemma TopBit(a: byte, b: byte, c: byte, d: byte)
    ensures SignedWord(a, b, c, d) == if Word(a, b, c, d) < 0x8000_0000 then Word(a, b, c, d) else Word(a, b, c, d) - 0x1_0000_0000
  {
  }

  lemma SignedLong(hi: int, lo: int)
    requires 0 <= hi < 0x1_0000_0000 && 0 <= lo < 0x1_0000_0000
    ensures Signed(hi * 0x1_0000_0000 + lo, 2 * LONG_LIMIT) == (if hi < 0x8000_0000 then hi else hi - 0x1_0000_0000) * 0x1_0000_0000 + lo
  {
  }

  lemma OneOf<X>(enc: X --> seq<byte>, x: X)
    requires enc.requires(x)
    ensures EncMany(enc, [x]) == enc(x)
  {
    assert EncMany(enc, [x]) == enc(x) + [];
  }

  lemma TwoOf<X>(enc: X --> seq<byte>, x: X, y: X)
    requires enc.requires(x) && enc.requires(y)
    ensures EncMany(enc, [x, y]) == enc(x) + enc(y)
  {
    OneOf(enc, y);
    assert [x, y][1..] == [y];
  }

  // ----- frame headers: version, flags, stream, opcode, length -----

  lemma HeaderBytes(v: byte, f: byte, s1: byte, s0: byte, op: byte, a: byte, b: byte, c: byte, d: byte, rest: seq<byte>)
    ensures var stream := if s1 < 0x80 then s1 * 0x100 + s0 else s1 * 0x100 + s0 - 0x1_0000;
            ReadHeader([v, f, s1, s0, op, a, b, c, d] + rest) == Got(FrameHeader(v, f, stream, op, SignedWord(a, b, c, d)), rest)
  {
    var x := [v, f, s1, s0, op, a, b, c, d] + rest;
    assert x[2..4] == [s1, s0] + [] && x[5..] == [a, b, c, d] + rest;
    ShortBytes(s1, s0, []);
    IntBytes(a, b, c, d, rest);
    hide ReadI16, ReadI32;
  }

  /** A request frame starts with version 4, the compression bit, the stream and the request's opcode. */
  lemma RequestHeaderBytes(lz: Option<Lz4>, x: (int, Req.Request))
    requires Req.Sendable(lz, x)
    ensures var b := EncFrame(Req.RequestFrame(lz, x));
            && b[0] == 0x04 && b[1] == (if lz.Some? then 0x01 else 0x00)
            && b[2..4] == EncI16(x.0)
            && b[4] == (match x.1
                        case Startup(_) => 0x01
                        case Options => 0x05
                        case Query(_, _, _) => 0x07
                        case Prepare(_) => 0x09
                        case Execute(_, _, _) => 0x0A
                        case Batch(_, _) => 0x0D)
            && b[5..9] == EncI32(|b| - 9)
  {
    hide Packed, Req.EncBody, EncI16, EncI32;
  }

  // ----- request bodies -----

  lemma ShortOf(n: nat)
    requires n < 0x100
    ensures EncU16(n) == [0, n]
  {
    ShortBytes(0, n, []);
  }

  lemma StringBytes(s: seq<byte>)
    requires |s| < 0x100
    ensures EncString(s) == [0, |s|] + s
  {
    ShortOf(|s|);
  }

  lemma LongStringBytes(s: seq<byte>)
    requires |s| < 0x100
    ensures EncBytes(s) == [0, 0, 0, |s|] + s
  {
    IntBytes(0, 0, 0, |s|, []);
  }

  lemma ValueBytes(v: byte)
    ensures EncBytes([v]) == [0, 0, 0, 1, v] && EncValues([[v]]) == [0, 1, 0, 0, 0, 1, v]
  {
    LongStringBytes([v]);
    ShortOf(1);
    hide EncBytes, EncU16;
    OneOf(EncBytes, [v]);
    assert [0 as byte, 0, 0, 1] + [v] == [0, 0, 0, 1, v];
    assert [0 as byte, 1] + [0, 0, 0, 1, v] == [0, 1, 0, 0, 0, 1, v];
  }

  /** QUERY: the text behind four bytes of length, consistency, flags (0x02, and 0x01 with values), values. */
  lemma QueryBytes(a: byte, b: byte, c1: byte, c0: byte, v: byte)
    ensures Req.EncBody(Req.Query([a, b], c1 * 0x100 + c0, [])) == [0, 0, 0, 2, a, b, c1, c0, 0x02]
    ensures Req.EncBody(Req.Query([a, b], c1 * 0x100 + c0, [[v]])) == [0, 0, 0, 2, a, b, c1, c0, 0x03, 0, 1, 0, 0, 0, 1, v]
  {
    LongStringBytes([a, b]);
    ParameterBytes(c1, c0, v);
    hide EncBytes, Req.EncParameters;
    assert [0, 0, 0, 2] + [a, b] == [0, 0, 0, 2, a, b];
  }

  lemma ParameterBytes(c1: byte, c0: byte, v: byte)
    ensures Req.EncParameters(c1 * 0x100 + c0, []) == [c1, c0, 0x02]
    ensures Req.EncParameters(c1 * 0x100 + c0, [[v]]) == [c1, c0, 0x03, 0, 1, 0, 0, 0, 1, v]
  {
    ShortBytes(c1, c0, []);
    ValueBytes(v);
    hide EncU16, EncValues;
  }

  /** EXECUTE: the id behind two bytes of length, then as in QUERY. */
  lemma ExecuteBytes(i: byte, c1: byte, c0: byte, v: byte)
    ensures Req.EncBody(Req.Execute([i], c1 * 0x100 + c0, [])) == [0, 1, i, c1, c0, 0x02]
    ensures Req.EncBody(Req.Execute([i], c1 * 0x100 + c0, [[v]])) == [0, 1, i, c1, c0, 0x03, 0, 1, 0, 0, 0, 1, v]
  {
    StringBytes([i]);
    ParameterBytes(c1, c0, v);
    hide EncString, Req.EncParameters;
  }

  /** PREPARE, OPTIONS and STARTUP, whose options are a string map. */
  lemma OtherBytes(a: byte, k: byte, v: byte)
    ensures Req.EncBody(Req.Prepare([a])) == [0, 0, 0, 1, a]
    ensures Req.EncBody(Req.Options) == []
    ensures Req.EncBody(Req.Startup([([k], [v])])) == [0, 1, 0, 1, k, 0, 1, v]
  {
    LongStringBytes([a]);
    StringBytes([k]);
    StringBytes([v]);
    ShortOf(1);
    hide EncString, EncBytes, EncU16;
    OneOf(EntryEncoder(EncString), ([k], [v]));
  }

  /** BATCH: logged (0), the statements, consistency, no flags. */
  lemma BatchBytes(ss: seq<Req.BatchStatement>, c1: byte, c0: byte)
    requires forall s :: s in ss ==> Req.HeldStatement(s)
    ensures Req.EncBody(Req.Batch(ss, c1 * 0x100 + c0)) == [0] + (Req.EncStatements(ss) + [c1, c0, 0])
  {
    ShortBytes(c1, c0, []);
    hide Req.EncStatements, EncU16;
    assert [c1, c0] + [0 as byte] == [c1, c0, 0];
  }

  /** The statements of a batch behind their number, each with its kind (0 text, 1 id) and its values. */
  lemma StatementsBytes(a: byte, i: byte, v: byte)
    ensures var ss := [Req.BatchStatement(Req.Text([a]), []), Req.BatchStatement(Req.Id([i]), [[v]])];
            && (forall s :: s in ss ==> Req.HeldStatement(s))
            && Req.EncStatements(ss) == [0, 2] + ([0, 0, 0, 0, 1, a, 0, 0] + [1, 0, 1, i, 0, 1, 0, 0, 0, 1, v])
  {
    var s, t := Req.BatchStatement(Req.Text([a]), []), Req.BatchStatement(Req.Id([i]), [[v]]);
    StatementBytes(a, i, v);
    ShortOf(2);
    assert Req.FitsInt([a]) && Req.FitsInt([v]);
    assert Req.HeldStatement(s) && Req.HeldStatement(t);
    TwoOf(Req.EncStatement, s, t);
    hide Req.EncStatement, EncU16, EncMany, Req.HeldStatement;
  }

  lemma StatementBytes(a: byte, i: byte, v: byte)
    ensures Req.EncStatement(Req.BatchStatement(Req.Text([a]), [])) == [0, 0, 0, 0, 1, a, 0, 0]
    ensures Req.EncStatement(Req.BatchStatement(Req.Id([i]), [[v]])) == [1, 0, 1, i, 0, 1, 0, 0, 0, 1, v]
  {
    LongStringBytes([a]);
    StringBytes([i]);
    ValueBytes(v);
    ShortOf(0);
    assert EncValues([]) == [0, 0];
    hide EncBytes, EncString, EncValues;
  }

  // ----- strings, lists and maps -----

  lemma StringRead(s: seq<byte>, rest: seq<byte>)
    requires |s| < 0x100
    ensures ReadString([0, |s|] + (s + rest)) == Got(s, rest)
    ensures ReadBytes([0, 0, 0, |s|] + (s + rest)) == ReadLongString([0, 0, 0, |s|] + (s + rest)) == Got(s, rest)
    ensures ReadBytes([0xFF, 0xFF, 0xFF, 0xFF] + rest) == Got([], rest)
  {
    StringBytes(s);
    LongStringBytes(s);
    Assoc([0, |s|], s, rest);
    Assoc([0, 0, 0, |s|], s, rest);
    StringRoundTrip(s, rest);
    LongStringRoundTrip(s, rest);
    IntBytes(0xFF, 0xFF, 0xFF, 0xFF, rest);
    hide EncString, EncBytes, ReadString, ReadLongString, EncI32, ReadI32;
  }

  /** What is read first comes first. */
  lemma InOrder<X>(read: seq<byte> -> Read<X>, b: seq<byte>)
    requires read(b).Got? && read(read(b).rest).Got?
    ensures ReadMany(read, 2, b) == Got([read(b).value, read(read(b).rest).value], read(read(b).rest).rest)
  {
    var x, b1 := read(b).value, read(b).rest;
    JustOne(read, b1);
    assert [x] + [read(b1).value] == [x, read(b1).value];
  }

  lemma JustOne<X>(read: seq<byte> -> Read<X>, b: seq<byte>)
    requires read(b).Got?
    ensures ReadMany(read, 1, b) == Got([read(b).value], read(b).rest)
  {
    assert ReadMany(read, 0, read(b).rest) == Got([], read(b).rest);
    assert [read(b).value] + [] == [read(b).value];
  }

  /** A list behind two bytes of count, and a map's entry: the key, then the value. */
  lemma ListAndMapRead(x: seq<byte>, y: seq<byte>, rest: seq<byte>)
    requires FitsShort(x) && FitsShort(y)
    ensures ReadStringList([0, 2] + (EncString(x) + (EncString(y) + rest))) == Got([x, y], rest)
    ensures ReadMap(ReadString, [0, 1] + (EncString(x) + (EncString(y) + rest))) == Got(map[x := y], rest)
  {
    var b := EncString(x) + (EncString(y) + rest);
    StringRoundTrip(x, EncString(y) + rest);
    StringRoundTrip(y, rest);
    ShortBytes(0, 2, b);
    ShortBytes(0, 1, b);
    hide EncString, ReadU16, ReadString;
    InOrder(ReadString, b);
    assert EntryReader(ReadString)(b) == Got((x, y), rest);
    JustOne(EntryReader(ReadString), b);
    OneEntry(x, y);
    hide ReadMany, EntryReader, Collect;
  }

  lemma OneEntry(x: seq<byte>, y: seq<byte>)
    ensures Collect([(x, y)]) == map[x := y]
  {
    assert [(x, y)][..0] == [];
  }

  // ----- column types -----

  lemma CodeRead(code: byte, b: seq<byte>)
    ensures ParseType([0, code] + b) == ParsePayload(code, b)
  {
    ShortBytes(0, code, b);
    hide ReadU16, ParsePayload;
  }

  /** The [option] codes of section 4.2.5.2. */
  lemma TypeRead(e: ColumnType, k: ColumnType, s: seq<byte>, rest: seq<byte>)
    requires WellFormed(e) && WellFormed(k) && FitsShort(s)
    ensures ParseType([0x00, 0x00] + (EncString(s) + rest)) == Got(Custom(s), rest)
    ensures ParseType([0x00, 0x20] + (EncType(e) + rest)) == Got(ListOf(e), rest)
    ensures ParseType([0x00, 0x21] + (EncType(k) + (EncType(e) + rest))) == Got(MapOf(k, e), rest)
    ensures ParseType([0x00, 0x22] + (EncType(e) + rest)) == Got(SetOf(e), rest)
  {
    StringRoundTrip(s, rest);
    TypeRoundTrip(e, rest);
    TypeRoundTrip(k, EncType(e) + rest);
    CodeRead(0x00, EncString(s) + rest);
    CodeRead(0x20, EncType(e) + rest);
    CodeRead(0x21, EncType(k) + (EncType(e) + rest));
    CodeRead(0x22, EncType(e) + rest);
    hide EncString, ReadString, EncType, ParseType, ParseUdtBody, ParseTupleBody;
  }

  /** A tuple: the number of types, then the types in order. */
  lemma TupleRead(e: ColumnType, k: ColumnType, rest: seq<byte>)
    requires WellFormed(e) && WellFormed(k)
    ensures ParseType([0x00, 0x31] + ([0, 2] + (EncType(e) + (EncType(k) + rest)))) == Got(TupleOf([e, k]), rest)
  {
    var b := EncType(e) + (EncType(k) + rest);
    TypeRoundTrip(e, EncType(k) + rest);
    TypeRoundTrip(k, rest);
    CodeRead(0x31, [0, 2] + b);
    ShortBytes(0, 2, b);
    TypesAsMany(2, b);
    InOrder(ParseType, b);
    hide EncType, ParseType, ReadU16, ParseUdtBody, ParseTypes, ReadMany;
  }

  /** A UDT: keyspace, name, number of fields, and each field's name before its type. */
  lemma UdtRead(ks: seq<byte>, name: seq<byte>, f: Field, g: Field, rest: seq<byte>)
    requires FitsShort(ks) && FitsShort(name)
    requires FitsShort(f.name) && FitsShort(g.name) && WellFormed(f.kind) && WellFormed(g.kind)
    ensures ParseType(EncU16(0x0030) + (EncString(ks) + (EncString(name) + (EncU16(2) +
              (EncString(f.name) + (EncType(f.kind) + (EncString(g.name) + (EncType(g.kind) + rest))))))))
            == Got(Udt(ks, name, [f, g]), rest)
  {
    var last := EncString(g.name) + (EncType(g.kind) + rest);
    var fields := EncString(f.name) + (EncType(f.kind) + last);
    FieldRead(f, last);
    FieldRead(g, rest);
    UdtHeadRead(ks, name, 2, fields);
    FieldsAsMany(2, fields);
    InOrder(ParseField, fields);
    hide EncType, EncU16, ReadU16, EncString, ParseField, ParseFields, ReadMany, ReadUdtHead, ParsePayload, ParseType;
    UdtCode(EncString(ks) + (EncString(name) + (EncU16(2) + fields)));
  }

  lemma UdtCode(b: seq<byte>)
    ensures ParseType(EncU16(0x0030) + b) == ParseUdtBody(b)
  {
    U16RoundTrip(0x0030, b);
    hide EncU16, ReadU16, ParseUdtBody, ParseTupleBody;
  }

  lemma UdtHeadRead(ks: seq<byte>, name: seq<byte>, n: nat, b: seq<byte>)
    requires FitsShort(ks) && FitsShort(name) && n < 0x1_0000
    ensures ReadUdtHead(EncString(ks) + (EncString(name) + (EncU16(n) + b))) == Got((ks, name, n), b)
  {
    StringRoundTrip(ks, EncString(name) + (EncU16(n) + b));
    StringRoundTrip(name, EncU16(n) + b);
    U16RoundTrip(n, b);
    hide EncString, ReadString, EncU16, ReadU16;
  }

  lemma FieldRead(f: Field, rest: seq<byte>)
    requires FitsShort(f.name) && WellFormed(f.kind)
    ensures ParseField(EncString(f.name) + (EncType(f.kind) + rest)) == Got(f, rest)
  {
    StringRoundTrip(f.name, EncType(f.kind) + rest);
    TypeRoundTrip(f.kind, rest);
    hide EncType, ParseType, EncString, ReadString;
  }

  /** Every other code stands for itself, and nothing more is read. */
  lemma NativeRead(hi: byte, lo: byte, rest: seq<byte>)
    requires hi == 0 ==> lo !in {0x00, 0x20, 0x21, 0x22, 0x30, 0x31}
    ensures ParseType([hi, lo] + rest) == Got(Native(hi * 0x100 + lo), rest)
  {
    ShortBytes(hi, lo, rest);
    hide ReadU16;
  }

  // ----- RESULT bodies -----

  /** Bit 0x01: a global table; bit 0x02: more pages; bit 0x04: no metadata. */
  lemma FlagBits(flags: int)
    ensures R.GlobalTableSpec(flags) <==> flags % 8 in {1, 3, 5, 7}
    ensures R.HasMorePages(flags) <==> flags % 8 in {2, 3, 6, 7}
    ensures R.NoMetadata(flags) <==> flags % 8 in {4, 5, 6, 7}
  {
    LowBits(flags / 8, flags % 8);
    SmallBits(flags % 8);
  }

  lemma LowBits(q: int, r: nat)
    requires r < 8
    ensures var f := 8 * q + r; f % 2 == r % 2 && f / 2 % 2 == r / 2 % 2 && f / 4 % 2 == r / 4 % 2
  {
    var f := 8 * q + r;
    assert f / 2 == 4 * q + r / 2 && f / 4 == 2 * q + r / 4;
  }

  lemma SmallBits(r: nat)
    requires r < 8
    ensures r % 2 == 1 <==> r in {1, 3, 5, 7}
    ensures r / 2 % 2 == 1 <==> r in {2, 3, 6, 7}
    ensures r / 4 % 2 == 1 <==> r in {4, 5, 6, 7}
  {
  }

  /** A column: keyspace and table unless they are global, name, type. */
  lemma ColumnRead(c: R.Column, rest: seq<byte>)
    requires R.FitsColumn(false, c)
    ensures R.ReadColumn(false, EncString(c.keyspace) + (EncString(c.table) + (EncString(c.name) + (EncType(c.kind) + rest)))) == Got(c, rest)
    ensures R.ReadColumn(true, EncString(c.name) + (EncType(c.kind) + rest)) == Got(R.Column([], [], c.name, c.kind), rest)
  {
    var tail := EncString(c.name) + (EncType(c.kind) + rest);
    StringRoundTrip(c.keyspace, EncString(c.table) + tail);
    StringRoundTrip(c.table, tail);
    StringRoundTrip(c.name, EncType(c.kind) + rest);
    TypeRoundTrip(c.kind, rest);
    hide EncString, ReadString, EncType, ParseType;
  }

  /** The global keyspace comes before the global table, and both before the columns. */
  lemma TableRead(ks: seq<byte>, table: seq<byte>, columns: seq<R.Column>, n: nat, b: seq<byte>, rest: seq<byte>)
    requires FitsShort(ks) && FitsShort(table)
    requires ReadMany(R.ColumnReader(true), n, b) == Got(columns, rest)
    ensures R.ReadTableSpec(true, n, EncString(ks) + (EncString(table) + b)) == Got(R.TableSpec(ks, table, columns), rest)
  {
    StringRoundTrip(ks, EncString(table) + b);
    StringRoundTrip(table, b);
    hide EncString, ReadString, ReadMany;
  }

  /** Rows: flags, column count, paging state if there is one (bit 0x02), table and columns unless left out
      (bit 0x04), row count, rows. */
  lemma RowsRead(f: byte, n: nat, paging: seq<byte>, spec: R.TableSpec, specBytes: seq<byte>, k: nat,
                 rows: seq<seq<seq<byte>>>, rowBytes: seq<byte>, rest: seq<byte>)
    requires f < 8 && n < INT_LIMIT && k < INT_LIMIT && |paging| < INT_LIMIT
    requires if f < 4 then R.ReadTableSpec(f % 2 == 1, n, specBytes) == Got(spec, EncI32(k) + rowBytes)
             else spec == R.TableSpec([], [], []) && specBytes == EncI32(k) + rowBytes
    requires ReadMany(R.RowReader(n), k, rowBytes) == Got(rows, rest)
    ensures f in {2, 3, 6, 7} ==>
              R.ReadRows(EncI32(f) + (EncI32(n) + (EncBytes(paging) + specBytes)))
              == Got(R.RowKind(R.RowsHead(f, n, paging), spec, k, rows), rest)
    ensures f in {0, 1, 4, 5} ==>
              R.ReadRows(EncI32(f) + (EncI32(n) + specBytes))
              == Got(R.RowKind(R.RowsHead(f, n, []), spec, k, rows), rest)
  {
    FlagBits(f);
    hide R.ReadRows, R.ReadRowsHead, R.ReadTableSpec, ReadMany, EncI32, EncBytes;
    hide R.HasMorePages, R.NoMetadata, R.GlobalTableSpec, R.RowReader;
    if f in {2, 3, 6, 7} {
      HeadRead(f, n, paging, specBytes);
      RowsBehind(R.RowsHead(f, n, paging), EncI32(f) + (EncI32(n) + (EncBytes(paging) + specBytes)), spec, specBytes, k, rows, rowBytes, rest);
    } else {
      ShortHeadRead(f, n, specBytes);
      RowsBehind(R.RowsHead(f, n, []), EncI32(f) + (EncI32(n) + specBytes), spec, specBytes, k, rows, rowBytes, rest);
    }
  }

  lemma RowsBehind(head: R.RowsHead, b: seq<byte>, spec: R.TableSpec, specBytes: seq<byte>, k: nat,
                   rows: seq<seq<seq<byte>>>, rowBytes: seq<byte>, rest: seq<byte>)
    requires R.ReadRowsHead(b) == Got(head, specBytes) && 0 <= head.columnsCount && k < INT_LIMIT
    requires if R.NoMetadata(head.flags) then spec == R.TableSpec([], [], []) && specBytes == EncI32(k) + rowBytes
             else R.ReadTableSpec(R.GlobalTableSpec(head.flags), head.columnsCount, specBytes) == Got(spec, EncI32(k) + rowBytes)
    requires ReadMany(R.RowReader(head.columnsCount), k, rowBytes) == Got(rows, rest)
    ensures R.ReadRows(b) == Got(R.RowKind(head, spec, k, rows), rest)
  {
    I32RoundTrip(k, rowBytes);
    hide EncI32, ReadI32, R.ReadTableSpec, ReadMany, R.GlobalTableSpec, R.NoMetadata, R.ReadRowsHead;
  }

  lemma HeadRead(f: byte, n: nat, paging: seq<byte>, after: seq<byte>)
    requires R.HasMorePages(f) && n < INT_LIMIT && |paging| < INT_LIMIT
    ensures R.ReadRowsHead(EncI32(f) + (EncI32(n) + (EncBytes(paging) + after))) == Got(R.RowsHead(f, n, paging), after)
  {
    var tail := EncBytes(paging) + after;
    I32RoundTrip(f, EncI32(n) + tail);
    I32RoundTrip(n, tail);
    LongStringRoundTrip(paging, after);
    hide EncI32, ReadI32, EncBytes, ReadBytes, R.HasMorePages;
  }

  lemma ShortHeadRead(f: byte, n: nat, after: seq<byte>)
    requires !R.HasMorePages(f) && n < INT_LIMIT
    ensures R.ReadRowsHead(EncI32(f) + (EncI32(n) + after)) == Got(R.RowsHead(f, n, []), after)
  {
    I32RoundTrip(f, EncI32(n) + after);
    I32RoundTrip(n, after);
    hide EncI32, ReadI32, R.HasMorePages;
  }

  /** A negative number of columns or rows is not taken for an empty list, but where no list of that many
      is made: the cells of a row, and the bind columns. */
  lemma NegativeCounts(head: R.RowsHead, c: int, b: seq<byte>)
    requires -INT_LIMIT <= c < 0
    ensures R.ReadGrid(head.columnsCount, EncI32(c) + b) == Malformed && R.ReadShorts(EncI32(c) + b) == Malformed
    ensures head.columnsCount < 0 && !R.NoMetadata(head.flags) ==> R.ReadRowsSpec(head, b) == Malformed
    ensures R.ReadRow(c, b) == Got([], b)
  {
    I32RoundTrip(c, b);
    hide EncI32, ReadI32, R.ReadTableSpec;
  }

  /** A length beyond the end of the buffer is an error, and a negative one an empty [bytes]. */
  lemma CutShort(n: int, b: seq<byte>)
    ensures |b| < n < 0x1_0000 ==> ReadString(EncU16(n) + b) == Malformed
    ensures |b| < n < INT_LIMIT ==> ReadBytes(EncI32(n) + b) == ReadLongString(EncI32(n) + b) == Malformed
    ensures -INT_LIMIT <= n <= 0 ==> ReadBytes(EncI32(n) + b) == Got([], b)
    ensures -INT_LIMIT <= n < 0 ==> ReadLongString(EncI32(n) + b) == Malformed
  {
    if |b| < n < 0x1_0000 {
      U16RoundTrip(n, b);
    }
    if -INT_LIMIT <= n < INT_LIMIT {
      I32RoundTrip(n, b);
    }
    hide EncU16, ReadU16, EncI32, ReadI32;
  }

  /** Prepared: id, flags, column count, partition key positions behind their count, table and columns. */
  lemma PreparedRead(id: seq<byte>, f: byte, n: nat, keys: seq<int>, spec: R.TableSpec, specBytes: seq<byte>, rest: seq<byte>)
    requires FitsShort(id) && n < INT_LIMIT && |keys| < INT_LIMIT && forall k :: k in keys ==> 0 <= k < 0x1_0000
    requires R.ReadTableSpec(f % 2 == 1, n, specBytes) == Got(spec, rest)
    ensures R.ReadPrepared(EncString(id) + (EncI32(f) + (EncI32(n) + ((EncI32(|keys|) + EncMany(EncU16, keys)) + specBytes))))
            == Got(R.PreparedKind(id, f, n, keys, spec), rest)
  {
    var after := R.EncShorts(keys) + specBytes;
    PreparedHeadRead(id, f, n, after);
    R.ShortsRoundTrip(keys, specBytes);
    PreparedBehind(EncString(id) + (EncI32(f) + (EncI32(n) + after)), id, f, n, keys, spec, after, specBytes, rest);
  }

  lemma PreparedBehind(b: seq<byte>, id: seq<byte>, f: byte, n: nat, keys: seq<int>, spec: R.TableSpec,
                       after: seq<byte>, specBytes: seq<byte>, rest: seq<byte>)
    requires R.ReadPreparedHead(b) == Got((id, f as int, n as int), after) && R.ReadShorts(after) == Got(keys, specBytes)
    requires R.ReadTableSpec(f % 2 == 1, n, specBytes) == Got(spec, rest)
    ensures R.ReadPrepared(b) == Got(R.PreparedKind(id, f, n, keys, spec), rest)
  {
    hide R.ReadTableSpec, R.ReadShorts, R.ReadPreparedHead;
  }

  lemma PreparedHeadRead(id: seq<byte>, f: byte, n: nat, after: seq<byte>)
    requires FitsShort(id) && n < INT_LIMIT
    ensures R.ReadPreparedHead(EncString(id) + (EncI32(f) + (EncI32(n) + after))) == Got((id, f as int, n as int), after)
  {
    StringRoundTrip(id, EncI32(f) + (EncI32(n) + after));
    I32RoundTrip(f, EncI32(n) + after);
    I32RoundTrip(n, after);
    hide EncI32, ReadI32, EncString, ReadString;
  }

  // ----- responses -----

  /** The opcodes, with what their bodies start with. */
  lemma ResponseRead(code: int, s: seq<byte>, b: seq<byte>)
    requires -0x8000_0000 <= code < 0x8000_0000 && FitsShort(s)
    ensures Resp.ParseBody(0x00, EncI32(code) + (EncString(s) + b)) == Got(Resp.Error(code, s), b)
    ensures Resp.ParseBody(0x02, b) == Got(Resp.Ready, b)
    ensures Resp.ParseBody(0x03, EncString(s) + b) == Got(Resp.Authenticate(s), b)
    ensures var m := ReadMap(ReadStringList, b);
            m.Got? ==> Resp.ParseBody(0x06, b) == Got(Resp.Supported(m.value), m.rest)
    ensures forall opcode :: opcode !in {0x00, 0x02, 0x03, 0x06, 0x08} ==> Resp.ParseBody(opcode, b) == Malformed
  {
    I32RoundTrip(code, EncString(s) + b);
    StringRoundTrip(s, b);
    hide EncI32, ReadI32, EncString, ReadString, ReadMap, Resp.ReadResult;
  }

  /** The kinds of RESULT: 2 Rows, 3 Set_keyspace, 4 Prepared; any other has no payload here. */
  lemma ResultRead(kind: int, b: seq<byte>)
    requires -0x8000_0000 <= kind < 0x8000_0000
    ensures Resp.ParseBody(0x08, EncI32(kind) + b) ==
            match kind {
              case 2 => var (rows, b1) :- R.ReadRows(b); Got(Resp.Rows(rows), b1)
              case 3 => var (ks, b1) :- ReadString(b); Got(Resp.SetKeyspace(ks), b1)
              case 4 => var (p, b1) :- R.ReadPrepared(b); Got(Resp.Prepared(p), b1)
              case _ => Got(Resp.OtherResult(kind), b)
            }
  {
    I32RoundTrip(kind, b);
    hide EncI32, ReadI32, ReadString, R.ReadRows, R.ReadPrepared, Resp.ReadError, ReadMap;
  }

  /** Nothing is taken for a response unless its first byte is 0x84. */
  lemma ResponseVersion(lz: Option<Lz4>, b: seq<byte>)
    ensures Resp.ReadFrame(lz, b).Got? ==> |b| >= 9 && b[0] == 0x84
  {
    hide Resp.ParseBody, Unpacked;
  }

  /** A response frame starts with 0x84, the compression bit, the stream and the response's opcode. */
  lemma ReplyHeaderBytes(lz: Option<Lz4>, x: (int, Resp.Reply))
    requires Resp.FitsOnWire(lz, x)
    ensures var b := EncFrame(Resp.ReplyFrame(lz, x));
            && b[0] == 0x84 && b[1] == (if lz.Some? then 0x01 else 0x00) && b[2..4] == EncI16(x.0)
            && b[4] == (match x.1
                        case ErrorReply(_, _) => 0x00
                        case ReadyReply => 0x02
                        case AuthenticateReply(_) => 0x03
                        case SupportedReply(_) => 0x06
                        case _ => 0x08)
            && b[5..9] == EncI32(|b| - 9)
  {
    hide Packed, Resp.EncReply, EncI16, EncI32;
  }

  // ----- compression and values -----

  /** The block is preceded by the original size. */
  lemma CompressedBytes(lz: Lz4, source: seq<byte>)
    requires |source| < 0x100
    ensures Compress(lz, source) == [0, 0, 0, |source|] + lz.compress(source)
  {
    IntBytes(0, 0, 0, |source|, []);
  }

  /** What is decompressed has the size announced, or it is an error. */
  lemma DecompressedSize(lz: Lz4, n: int, block: seq<byte>)
    requires -INT_LIMIT <= n < INT_LIMIT
    ensures var r, out := Decompress(lz, EncI32(n) + block), if n < 0 then None else lz.decompress(block, n);
            r == if out.Some? && |out.value| == n then out else None
  {
    I32RoundTrip(n, block);
    hide EncI32, ReadI32;
  }

  /** The client decompresses whenever it has a compressor: the flags of a response make no difference. */
  lemma FlagsIgnored(lz: Option<Lz4>, f: Frame, flags: byte, rest: seq<byte>)
    requires FitsFrame(f)
    ensures Resp.ReadFrame(lz, EncFrame(f) + rest) == Resp.ReadFrame(lz, EncFrame(f.(header := f.header.(flags := flags))) + rest)
  {
    TakeFrameRoundTrip(f, rest);
    TakeFrameRoundTrip(f.(header := f.header.(flags := flags)), rest);
    hide EncFrame, TakeFrame, Unpacked, Resp.ParseBody;
  }

  /** Integers are big-endian two's complement of two, four or eight bytes, text is itself. */
  lemma CellBytes(a: byte, b: byte, c: byte, d: byte, s: seq<byte>)
    requires |s| < INT_LIMIT
    ensures T.ValueOf(T.IntKind, [a, b, c, d]) == Some(T.Int(SignedWord(a, b, c, d)))
    ensures T.HasKind(T.Int(SignedWord(a, b, c, d)), T.IntKind) && T.CellOf(T.Int(SignedWord(a, b, c, d))) == [a, b, c, d]
    ensures var n := if a < 0x80 then a * 0x100 + b else a * 0x100 + b - 0x1_0000;
            && T.ValueOf(T.SmallIntKind, [a, b]) == Some(T.SmallInt(n))
            && T.HasKind(T.SmallInt(n), T.SmallIntKind) && T.CellOf(T.SmallInt(n)) == [a, b]
    ensures T.ValueOf(T.TextKind, s) == Some(T.Str(s)) && T.HasKind(T.Str(s), T.TextKind) && T.CellOf(T.Str(s)) == s
  {
    IntBytes(a, b, c, d, []);
    ShortBytes(a, b, []);
    assert [a, b, c, d] + [] == [a, b, c, d] && [a, b] + [] == [a, b];
    hide ReadI32, ReadI16, EncI32, EncI16, SignedWord;
  }

  lemma LongCellBytes(a: byte, b: byte, c: byte, d: byte, e: byte, f: byte, g: byte, h: byte)
    ensures T.ValueOf(T.BigIntKind, [a, b, c, d] + [e, f, g, h])
            == Some(T.BigInt(SignedWord(a, b, c, d) * 0x1_0000_0000 + Word(e, f, g, h)))
    ensures forall n :: T.HasKind(T.BigInt(n), T.BigIntKind) ==> |T.CellOf(T.BigInt(n))| == 8
  {
    LongBytes(a, b, c, d, e, f, g, h, []);
    assert [e, f, g, h] + [] == [e, f, g, h];
    hide ReadI64;
  }
}
