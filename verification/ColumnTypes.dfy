/** The recursive column-type grammar of section 4.2.5.2 of CQL Binary Protocol v4 and the
    mutually recursive parser of src/io/protocol/column_option.cpp. */
module ColumnTypes {
  import opened Bytes
  import opened BufferIO

  const CUSTOM := 0x0000
  const LIST := 0x0020
  const MAP := 0x0021
  const SET := 0x0022
  const UDT := 0x0030
  const TUPLE := 0x0031

  /** A parsed `ColumnOption`. Every code without a payload, known or not, is kept as `Native`. */
  datatype ColumnType =
    | Native(code: int)
    | Custom(className: seq<byte>)
    | ListOf(element: ColumnType)
    | SetOf(element: ColumnType)
    | MapOf(key: ColumnType, value: ColumnType)
    | TupleOf(elements: seq<ColumnType>)
    | Udt(keyspace: seq<byte>, name: seq<byte>, fields: seq<Field>)

  datatype Field = Field(name: seq<byte>, kind: ColumnType)

  /** The length and code bounds of the protocol. */
  predicate WellFormed(t: ColumnType) {
    match t
    case Native(code) => 0 <= code < SHORT_LIMIT && code !in {CUSTOM, LIST, MAP, SET, UDT, TUPLE}
    case Custom(s) => FitsShort(s)
    case ListOf(e) => WellFormed(e)
    case SetOf(e) => WellFormed(e)
    case MapOf(k, v) => WellFormed(k) && WellFormed(v)
    case TupleOf(es) => |es| < SHORT_LIMIT && WellFormedTypes(es)
    case Udt(ks, n, fs) => FitsShort(ks) && FitsShort(n) && |fs| < SHORT_LIMIT && WellFormedFields(fs)
  }

  predicate WellFormedTypes(ts: seq<ColumnType>) {
    ts == [] || (WellFormed(ts[0]) && WellFormedTypes(ts[1..]))
  }

  predicate WellFormedFields(fs: seq<Field>) {
    fs == [] || (FitsShort(fs[0].name) && WellFormed(fs[0].kind) && WellFormedFields(fs[1..]))
  }

  // ----- keyspace, name and field count of a UDT -----

  function EncUdtHead(ks: seq<byte>, name: seq<byte>, n: int): seq<byte>
    requires 0 <= n < SHORT_LIMIT
  {
    EncString(ks) + (EncString(name) + EncU16(n))
  }

  function ReadUdtHead(b: seq<byte>): (r: Read<(seq<byte>, seq<byte>, int)>)
    ensures r.Got? ==> 0 <= r.value.2 < SHORT_LIMIT && FitsShort(r.value.0) && FitsShort(r.value.1) && |r.rest| < |b|
  {
    var (ks, b1) :- ReadString(b);
    var (name, b2) :- ReadString(b1);
    var (n, b3) :- ReadU16(b2);
    Got((ks, name, n), b3)
  }

  lemma UdtHeadRoundTrip(ks: seq<byte>, name: seq<byte>, n: int, rest: seq<byte>)
    requires 0 <= n < SHORT_LIMIT && FitsShort(ks) && FitsShort(name)
    ensures ReadUdtHead(EncUdtHead(ks, name, n) + rest) == Got((ks, name, n), rest)
  {
    Assoc4(EncString(ks), EncString(name), EncU16(n), rest);
    StringRoundTrip(ks, EncString(name) + (EncU16(n) + rest));
    StringRoundTrip(name, EncU16(n) + rest);
    U16RoundTrip(n, rest);
  }

  lemma UdtHeadExact(b: seq<byte>)
    ensures var r := ReadUdtHead(b); r.Got? ==> b == EncUdtHead(r.value.0, r.value.1, r.value.2) + r.rest
  {
    var r := ReadUdtHead(b);
    if r.Got? {
      StringExact(b);
      var b1 := ReadString(b).rest;
      StringExact(b1);
      var b2 := ReadString(b1).rest;
      U16Exact(b2);
      Chain(EncString(r.value.0), EncString(r.value.1), EncU16(r.value.2), r.rest, b1, b2);
    }
  }

  // ----- the encoding the server sends -----

  function Code(t: ColumnType): int {
    match t
    case Native(code) => code
    case Custom(_) => CUSTOM
    case ListOf(_) => LIST
    case SetOf(_) => SET
    case MapOf(_, _) => MAP
    case TupleOf(_) => TUPLE
    case Udt(_, _, _) => UDT
  }

  function EncType(t: ColumnType): seq<byte>
    requires WellFormed(t)
    decreases t, 1
  {
    EncU16(Code(t)) + EncPayload(t)
  }

  function EncPayload(t: ColumnType): seq<byte>
    requires WellFormed(t)
    decreases t, 0
  {
    match t
    case Native(_) => []
    case Custom(s) => EncString(s)
    case ListOf(e) => EncType(e)
    case SetOf(e) => EncType(e)
    case MapOf(k, v) => EncType(k) + EncType(v)
    case TupleOf(es) => EncTupleBody(es)
    case Udt(ks, n, fs) => EncUdtBody(ks, n, fs)
  }

  function EncTupleBody(es: seq<ColumnType>): seq<byte>
    requires |es| < SHORT_LIMIT && WellFormedTypes(es)
    decreases es, 1
  {
    EncU16(|es|) + EncTypes(es)
  }

  function EncUdtBody(ks: seq<byte>, name: seq<byte>, fs: seq<Field>): seq<byte>
    requires |fs| < SHORT_LIMIT && WellFormedFields(fs)
    decreases fs, 1
  {
    EncUdtHead(ks, name, |fs|) + EncFields(fs)
  }

  function EncTypes(ts: seq<ColumnType>): seq<byte>
    requires WellFormedTypes(ts)
    decreases ts, 0
  {
    if ts == [] then [] else EncType(ts[0]) + EncTypes(ts[1..])
  }

  function EncFields(fs: seq<Field>): seq<byte>
    requires WellFormedFields(fs)
    decreases fs, 0
  {
    if fs == [] then [] else EncString(fs[0].name) + (EncType(fs[0].kind) + EncFields(fs[1..]))
  }

  // ----- the parser -----

  /** Terminates on every buffer: the measure is the number of bytes left, also through the
      counted tuple and UDT loops. */
  function ParseType(b: seq<byte>): (r: Read<ColumnType>)
    ensures r.Got? ==> |r.rest| + 2 <= |b|
    decreases |b|, 0
  {
    var (code, b1) :- ReadU16(b);
    ParsePayload(code, b1)
  }

  function ParsePayload(code: int, b: seq<byte>): (r: Read<ColumnType>)
    ensures r.Got? ==> Code(r.value) == code && |r.rest| <= |b|
    decreases |b|, 4
  {
    if code == CUSTOM then
      var (s, b1) :- ReadString(b);
      Got(Custom(s), b1)
    else if code == LIST then
      var (e, b1) :- ParseType(b);
      Got(ListOf(e), b1)
    else if code == MAP then
      var (k, b1) :- ParseType(b);
      var (v, b2) :- ParseType(b1);
      Got(MapOf(k, v), b2)
    else if code == SET then
      var (e, b1) :- ParseType(b);
      Got(SetOf(e), b1)
    else if code == UDT then
      ParseUdtBody(b)
    else if code == TUPLE then
      ParseTupleBody(b)
    else
      Got(Native(code), b)
  }

  function ParseTupleBody(b: seq<byte>): (r: Read<ColumnType>)
    ensures r.Got? ==> r.value.TupleOf? && |r.rest| <= |b|
    decreases |b|, 3
  {
    var (n, b1) :- ReadU16(b);
    var (es, b2) :- ParseTypes(n, b1);
    Got(TupleOf(es), b2)
  }

  function ParseUdtBody(b: seq<byte>): (r: Read<ColumnType>)
    ensures r.Got? ==> r.value.Udt? && |r.rest| <= |b|
    decreases |b|, 3
  {
    var (head, b1) :- ReadUdtHead(b);
    var (fs, b2) :- ParseFields(head.2, b1);
    Got(Udt(head.0, head.1, fs), b2)
  }

  function ParseTypes(n: nat, b: seq<byte>): (r: Read<seq<ColumnType>>)
    ensures r.Got? ==> |r.value| == n && |r.rest| <= |b|
    decreases |b|, 1
  {
    if n == 0 then Got([], b)
    else
      var (t, b1) :- ParseType(b);
      var (ts, b2) :- ParseTypes(n - 1, b1);
      Got([t] + ts, b2)
  }

  function ParseField(b: seq<byte>): (r: Read<Field>)
    ensures r.Got? ==> |r.rest| + 2 <= |b|
    decreases |b|, 1
  {
    var (name, b1) :- ReadString(b);
    var (t, b2) :- ParseType(b1);
    Got(Field(name, t), b2)
  }

  function ParseFields(n: nat, b: seq<byte>): (r: Read<seq<Field>>)
    ensures r.Got? ==> |r.value| == n && |r.rest| <= |b|
    decreases |b|, 2
  {
    if n == 0 then Got([], b)
    else
      var (f, b1) :- ParseField(b);
      var (fs, b2) :- ParseFields(n - 1, b1);
      Got([f] + fs, b2)
  }

  // ----- parsing undoes encoding -----

  lemma {:induction false} TypeRoundTrip(t: ColumnType, rest: seq<byte>)
    requires WellFormed(t)
    ensures ParseType(EncType(t) + rest) == Got(t, rest)
    decreases t, 1
  {
    Tagged(Code(t), EncPayload(t), rest);
    PayloadRoundTrip(t, rest);
  }

  lemma {:induction false} PayloadRoundTrip(t: ColumnType, rest: seq<byte>)
    requires WellFormed(t)
    ensures ParsePayload(Code(t), EncPayload(t) + rest) == Got(t, rest)
    decreases t, 0
  {
    hide EncTupleBody, EncUdtBody, ParseTupleBody, ParseUdtBody;
    match t {
      case Native(_) => assert [] + rest == rest;
      case Custom(s) => StringRoundTrip(s, rest);
      case ListOf(e) => TypeRoundTrip(e, rest);
      case SetOf(e) => TypeRoundTrip(e, rest);
      case MapOf(k, v) =>
        Assoc(EncType(k), EncType(v), rest);
        TypeRoundTrip(k, EncType(v) + rest);
        TypeRoundTrip(v, rest);
      case TupleOf(es) => TupleBodyRoundTrip(es, rest);
      case Udt(ks, name, fs) => UdtBodyRoundTrip(ks, name, fs, rest);
    }
  }

  lemma {:induction false} TupleBodyRoundTrip(es: seq<ColumnType>, rest: seq<byte>)
    requires WellFormed(TupleOf(es))
    ensures ParseTupleBody(EncTupleBody(es) + rest) == Got(TupleOf(es), rest)
    decreases es, 1
  {
    TypesRoundTrip(es, rest);
    Tagged(|es|, EncTypes(es), rest);
  }

  lemma {:induction false} UdtBodyRoundTrip(ks: seq<byte>, name: seq<byte>, fs: seq<Field>, rest: seq<byte>)
    requires WellFormed(Udt(ks, name, fs))
    ensures ParseUdtBody(EncUdtBody(ks, name, fs) + rest) == Got(Udt(ks, name, fs), rest)
    decreases fs, 1
  {
    Assoc(EncUdtHead(ks, name, |fs|), EncFields(fs), rest);
    UdtHeadRoundTrip(ks, name, |fs|, EncFields(fs) + rest);
    FieldsRoundTrip(fs, rest);
  }

  lemma {:induction false} TypesRoundTrip(ts: seq<ColumnType>, rest: seq<byte>)
    requires WellFormedTypes(ts)
    ensures ParseTypes(|ts|, EncTypes(ts) + rest) == Got(ts, rest)
    decreases ts, 0
  {
    if ts == [] {
      assert EncTypes(ts) + rest == rest;
    } else {
      Assoc(EncType(ts[0]), EncTypes(ts[1..]), rest);
      TypeRoundTrip(ts[0], EncTypes(ts[1..]) + rest);
      TypesRoundTrip(ts[1..], rest);
      assert ts == [ts[0]] + ts[1..];
    }
  }

  lemma {:induction false} FieldsRoundTrip(fs: seq<Field>, rest: seq<byte>)
    requires WellFormedFields(fs)
    ensures ParseFields(|fs|, EncFields(fs) + rest) == Got(fs, rest)
    decreases fs, 0
  {
    if fs == [] {
      assert EncFields(fs) + rest == rest;
    } else {
      var f, after := fs[0], EncFields(fs[1..]);
      Assoc(EncString(f.name), EncType(f.kind) + after, rest);
      StringRoundTrip(f.name, EncType(f.kind) + after + rest);
      Assoc(EncType(f.kind), after, rest);
      TypeRoundTrip(f.kind, after + rest);
      assert ParseField(EncFields(fs) + rest) == Got(f, after + rest);
      hide ParseField, EncString, EncType, WellFormed;
      FieldsRoundTrip(fs[1..], rest);
      assert fs == [f] + fs[1..];
    }
  }

  // ----- and encoding undoes parsing -----

  lemma {:induction false} TypeExact(b: seq<byte>)
    ensures var r := ParseType(b); r.Got? ==> WellFormed(r.value) && b == EncType(r.value) + r.rest
    decreases |b|, 0
  {
    var r := ParseType(b);
    if r.Got? {
      var b1 := ReadU16(b).rest;
      PayloadExact(ReadU16(b).value, b1);
      TaggedExact(b, EncPayload(r.value), r.rest);
    }
  }

  lemma {:induction false} PayloadExact(code: int, b: seq<byte>)
    requires 0 <= code < SHORT_LIMIT
    ensures var r := ParsePayload(code, b); r.Got? ==> WellFormed(r.value) && b == EncPayload(r.value) + r.rest
    decreases |b|, 3
  {
    var r := ParsePayload(code, b);
    if r.Got? {
      match r.value {
        case Native(_) => assert b == [] + b;
        case Custom(s) => StringExact(b);
        case ListOf(e) => TypeExact(b);
        case SetOf(e) => TypeExact(b);
        case MapOf(k, v) =>
          TypeExact(b);
          TypeExact(ParseType(b).rest);
          Assoc(EncType(k), EncType(v), r.rest);
        case TupleOf(es) => TupleBodyExact(b);
        case Udt(ks, name, fs) => UdtBodyExact(b);
      }
    }
  }

  lemma {:induction false} TupleBodyExact(b: seq<byte>)
    ensures var r := ParseTupleBody(b); r.Got? ==> WellFormed(r.value) && b == EncTupleBody(r.value.elements) + r.rest
    decreases |b|, 2
  {
    var r := ParseTupleBody(b);
    if r.Got? {
      TypesExact(|r.value.elements|, ReadU16(b).rest);
      TaggedExact(b, EncTypes(r.value.elements), r.rest);
    }
  }

  lemma {:induction false} UdtBodyExact(b: seq<byte>)
    ensures var r := ParseUdtBody(b);
            r.Got? ==> WellFormed(r.value) && b == EncUdtBody(r.value.keyspace, r.value.name, r.value.fields) + r.rest
    decreases |b|, 2
  {
    var r := ParseUdtBody(b);
    if r.Got? {
      var Udt(ks, name, fs) := r.value;
      UdtHeadExact(b);
      FieldsExact(|fs|, ReadUdtHead(b).rest);
      Assoc(EncUdtHead(ks, name, |fs|), EncFields(fs), r.rest);
    }
  }

  lemma {:induction false} TypesExact(n: nat, b: seq<byte>)
    ensures var r := ParseTypes(n, b); r.Got? ==> WellFormedTypes(r.value) && b == EncTypes(r.value) + r.rest
    decreases |b|, 1
  {
    var r := ParseTypes(n, b);
    if n == 0 {
      assert b == [] + b;
    } else if r.Got? {
      TypeExact(b);
      TypesExact(n - 1, ParseType(b).rest);
      assert r.value[1..] == ParseTypes(n - 1, ParseType(b).rest).value;
      Assoc(EncType(r.value[0]), EncTypes(r.value[1..]), r.rest);
    }
  }

  lemma {:induction false} FieldsExact(n: nat, b: seq<byte>)
    ensures var r := ParseFields(n, b); r.Got? ==> WellFormedFields(r.value) && b == EncFields(r.value) + r.rest
    decreases |b|, 1
  {
    var r := ParseFields(n, b);
    if n == 0 {
      assert b == [] + b;
    } else if r.Got? {
      FieldExact(b);
      var Got(f, b1) := ParseField(b);
      FieldsExact(n - 1, b1);
      assert r.value[1..] == ParseFields(n - 1, b1).value;
      var after := EncFields(r.value[1..]);
      Assoc(EncType(f.kind), after, r.rest);
      Assoc(EncString(f.name), EncType(f.kind) + after, r.rest);
    }
  }

  lemma {:induction false} FieldExact(b: seq<byte>)
    ensures var r := ParseField(b);
            r.Got? ==> FitsShort(r.value.name) && WellFormed(r.value.kind)
                       && b == EncString(r.value.name) + (EncType(r.value.kind) + r.rest)
    decreases |b|, 0
  {
    if ParseField(b).Got? {
      StringExact(b);
      TypeExact(ReadString(b).rest);
    }
  }

  /** The parser accepts a buffer with a given result exactly when the buffer starts with that
      type's encoding: nothing else is accepted and nothing is read past it. */
  lemma ParseTypeCharacterised(b: seq<byte>, t: ColumnType, rest: seq<byte>)
    ensures ParseType(b) == Got(t, rest) <==> WellFormed(t) && b == EncType(t) + rest
  {
    TypeExact(b);
    if WellFormed(t) && b == EncType(t) + rest {
      TypeRoundTrip(t, rest);
    }
  }

  /** No type's encoding is a prefix of another's. */
  lemma PrefixFree(t: ColumnType, u: ColumnType, after: seq<byte>)
    requires WellFormed(t) && WellFormed(u)
    requires EncType(t) + after == EncType(u)
    ensures t == u && after == []
  {
    TypeRoundTrip(t, after);
    TypeRoundTrip(u, []);
    assert EncType(u) + [] == EncType(u);
  }

  // ----- the parsing methods -----

  lemma {:induction false} TypesAsMany(n: nat, b: seq<byte>)
    ensures ParseTypes(n, b) == ReadMany(ParseType, n, b)
  {
    hide ParsePayload;
    if n > 0 && ParseType(b).Got? {
      TypesAsMany(n - 1, ParseType(b).rest);
    }
  }

  lemma {:induction false} FieldsAsMany(n: nat, b: seq<byte>)
    ensures ParseFields(n, b) == ReadMany(ParseField, n, b)
  {
    hide ParseType;
    if n > 0 && ParseField(b).Got? {
      FieldsAsMany(n - 1, ParseField(b).rest);
    }
  }

  method ParseColumnOption(reader: BufferReader) returns (r: Option<ColumnType>)
    requires reader.Valid()
    modifies reader`offset
    ensures reader.Valid() && Agrees(r, ParseType(old(reader.Rest())), reader.Rest())
    decreases |reader.data| - reader.offset, 0
  {
    ghost var start := reader.Rest();
    var code :- reader.ReadShort();
    assert |reader.Rest()| < |start|;
    r := ParseOptionPayload(reader, code);
  }

  method ParseOptionPayload(reader: BufferReader, code: int) returns (r: Option<ColumnType>)
    requires reader.Valid()
    modifies reader`offset
    ensures reader.Valid() && Agrees(r, ParsePayload(code, old(reader.Rest())), reader.Rest())
    decreases |reader.data| - reader.offset, 4
  {
    ghost var start := reader.Rest();
    if code == CUSTOM {
      var s :- reader.ReadText();
      r := Some(Custom(s));
    } else if code == LIST {
      var e :- ParseColumnOption(reader);
      r := Some(ListOf(e));
    } else if code == MAP {
      var k :- ParseColumnOption(reader);
      assert |reader.Rest()| < |start|;
      var v :- ParseColumnOption(reader);
      r := Some(MapOf(k, v));
    } else if code == SET {
      var e :- ParseColumnOption(reader);
      r := Some(SetOf(e));
    } else if code == UDT {
      r := ParseUdtPayload(reader);
    } else if code == TUPLE {
      r := ParseTuplePayload(reader);
    } else {
      r := Some(Native(code));
    }
  }

  method ParseTuplePayload(reader: BufferReader) returns (r: Option<ColumnType>)
    requires reader.Valid()
    modifies reader`offset
    ensures reader.Valid() && Agrees(r, ParseTupleBody(old(reader.Rest())), reader.Rest())
    decreases |reader.data| - reader.offset, 3
  {
    var count :- reader.ReadShort();
    var elements :- ParseTupleElements(reader, count);
    r := Some(TupleOf(elements));
  }

  method ParseTupleElements(reader: BufferReader, count: nat) returns (r: Option<seq<ColumnType>>)
    requires reader.Valid()
    modifies reader`offset
    ensures reader.Valid() && Agrees(r, ParseTypes(count, old(reader.Rest())), reader.Rest())
    decreases |reader.data| - reader.offset, 2
  {
    ghost var start := reader.Rest();
    TypesAsMany(count, start);
    var elements: seq<ColumnType> := [];
    for i := 0 to count
      invariant reader.Valid() && old(reader.offset) <= reader.offset
      invariant ReadMany(ParseType, i, start) == Got(elements, reader.Rest())
    {
      ManyStep(ParseType, i, count, start);
      var e :- ParseColumnOption(reader);
      elements := elements + [e];
    }
    return Some(elements);
  }

  method ParseUdtPayload(reader: BufferReader) returns (r: Option<ColumnType>)
    requires reader.Valid()
    modifies reader`offset
    ensures reader.Valid() && Agrees(r, ParseUdtBody(old(reader.Rest())), reader.Rest())
    decreases |reader.data| - reader.offset, 3
  {
    ghost var start := reader.Rest();
    var head :- ParseUdtHead(reader);
    assert |reader.Rest()| < |start|;
    var fields :- ParseUdtFields(reader, head.2);
    r := Some(Udt(head.0, head.1, fields));
  }

  method ParseUdtFields(reader: BufferReader, count: nat) returns (r: Option<seq<Field>>)
    requires reader.Valid()
    modifies reader`offset
    ensures reader.Valid() && Agrees(r, ParseFields(count, old(reader.Rest())), reader.Rest())
    decreases |reader.data| - reader.offset, 2
  {
    ghost var start := reader.Rest();
    FieldsAsMany(count, start);
    hide ParseField, ParseFields;
    var fields: seq<Field> := [];
    for i := 0 to count
      invariant reader.Valid() && old(reader.offset) <= reader.offset
      invariant ReadMany(ParseField, i, start) == Got(fields, reader.Rest())
    {
      ManyStep(ParseField, i, count, start);
      var f :- ParseUdtField(reader);
      fields := fields + [f];
    }
    return Some(fields);
  }

  method ParseUdtHead(reader: BufferReader) returns (r: Option<(seq<byte>, seq<byte>, int)>)
    requires reader.Valid()
    modifies reader`offset
    ensures reader.Valid() && Agrees(r, ReadUdtHead(old(reader.Rest())), reader.Rest())
  {
    var ks :- reader.ReadText();
    var name :- reader.ReadText();
    var count :- reader.ReadShort();
    r := Some((ks, name, count));
  }

  method ParseUdtField(reader: BufferReader) returns (r: Option<Field>)
    requires reader.Valid()
    modifies reader`offset
    ensures reader.Valid() && Agrees(r, ParseField(old(reader.Rest())), reader.Rest())
    decreases |reader.data| - reader.offset, 1
  {
    ghost var start := reader.Rest();
    var name :- reader.ReadText();
    assert |reader.Rest()| < |start|;
    var t :- ParseColumnOption(reader);
    r := Some(Field(name, t));
  }
}
