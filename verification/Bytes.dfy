/** Big-endian integers and the reader/writer pair every codec of the driver is built on
    (include/cassandra/io/buffer_io_base.hpp, integral_types.hpp, buffer_reader.hpp). */
module Bytes {

  type byte = x: int | 0 <= x < 256

  const SHORT_LIMIT := 0x1_0000          // first value a [short] cannot hold
  const INT_LIMIT := 0x8000_0000         // first value an [int] cannot hold
  const LONG_LIMIT := 0x8000_0000_0000_0000

  datatype Option<+T> = None | Some(value: T) {
    predicate IsFailure() { None? }
    function PropagateFailure<U>(): Option<U> requires None? { None }
    function Extract(): T requires Some? { value }
  }

  /** Outcome of reading a value from the front of a buffer: the value and the unread bytes, or the
      exception the reader throws ("Buffer underread" of `EnsureSize`, or an impossible length). */
  datatype Read<+T> = Malformed | Got(value: T, rest: seq<byte>) {
    predicate IsFailure() { Malformed? }
    function PropagateFailure<U>(): Read<U> requires Malformed? { Malformed }
    function Extract(): (T, seq<byte>) requires Got? { (value, rest) }
  }

  // ----- integers -----

  function EncU16(n: int): (b: seq<byte>)
    requires 0 <= n < SHORT_LIMIT
    ensures |b| == 2
  {
    [n / 256, n % 256]
  }

  function EncU32(n: int): (b: seq<byte>)
    requires 0 <= n < 2 * INT_LIMIT
    ensures |b| == 4
  {
    EncU16(n / 0x1_0000) + EncU16(n % 0x1_0000)
  }

  function EncU64(n: int): (b: seq<byte>)
    requires 0 <= n < 2 * LONG_LIMIT
    ensures |b| == 8
  {
    EncU32(n / 0x1_0000_0000) + EncU32(n % 0x1_0000_0000)
  }

  /** Two's complement of a signed value in a word of `modulus` states. */
  function Unsigned(v: int, modulus: int): int { if v < 0 then v + modulus else v }
  function Signed(u: int, modulus: int): int { if 2 * u < modulus then u else u - modulus }

  function EncI16(v: int): (b: seq<byte>)
    requires -0x8000 <= v < 0x8000
    ensures |b| == 2
  {
    EncU16(Unsigned(v, SHORT_LIMIT))
  }

  function EncI32(v: int): (b: seq<byte>)
    requires -INT_LIMIT <= v < INT_LIMIT
    ensures |b| == 4
  {
    EncU32(Unsigned(v, 2 * INT_LIMIT))
  }

  function EncI64(v: int): (b: seq<byte>)
    requires -LONG_LIMIT <= v < LONG_LIMIT
    ensures |b| == 8
  {
    EncU64(Unsigned(v, 2 * LONG_LIMIT))
  }

  function ReadByte(b: seq<byte>): (r: Read<int>)
    ensures r.Got? ==> 0 <= r.value < 256 && b == [r.value] + r.rest
  {
    if |b| < 1 then Malformed else Got(b[0], b[1..])
  }

  function ReadU16(b: seq<byte>): (r: Read<int>)
    ensures r.Got? ==> 0 <= r.value < SHORT_LIMIT && |r.rest| == |b| - 2
  {
    if |b| < 2 then Malformed else Got(b[0] as int * 256 + b[1], b[2..])
  }

  function ReadU32(b: seq<byte>): (r: Read<int>)
    ensures r.Got? ==> 0 <= r.value < 2 * INT_LIMIT && |r.rest| == |b| - 4
  {
    if |b| < 4 then Malformed
    else Got((b[0] as int * 256 + b[1]) * 0x1_0000 + b[2] as int * 256 + b[3], b[4..])
  }

  function ReadU64(b: seq<byte>): (r: Read<int>)
    ensures r.Got? ==> 0 <= r.value < 2 * LONG_LIMIT && |r.rest| == |b| - 8
  {
    var (hi, r1) :- ReadU32(b);
    var (lo, r2) :- ReadU32(r1);
    Got(hi * 0x1_0000_0000 + lo, r2)
  }

  function ReadI16(b: seq<byte>): (r: Read<int>)
    ensures r.Got? ==> -0x8000 <= r.value < 0x8000 && |r.rest| == |b| - 2
  {
    var (u, rest) :- ReadU16(b);
    Got(Signed(u, SHORT_LIMIT), rest)
  }

  function ReadI32(b: seq<byte>): (r: Read<int>)
    ensures r.Got? ==> -INT_LIMIT <= r.value < INT_LIMIT && |r.rest| == |b| - 4
  {
    var (u, rest) :- ReadU32(b);
    Got(Signed(u, 2 * INT_LIMIT), rest)
  }

  function ReadI64(b: seq<byte>): (r: Read<int>)
    ensures r.Got? ==> -LONG_LIMIT <= r.value < LONG_LIMIT && |r.rest| == |b| - 8
  {
    var (u, rest) :- ReadU64(b);
    Got(Signed(u, 2 * LONG_LIMIT), rest)
  }

  lemma U16RoundTrip(n: int, rest: seq<byte>)
    requires 0 <= n < SHORT_LIMIT
    ensures ReadU16(EncU16(n) + rest) == Got(n, rest)
  {
    assert (EncU16(n) + rest)[2..] == rest;
  }

  /** Reading is exact as well: the bytes consumed are the ones writing the value produces. */
  lemma U16Exact(b: seq<byte>)
    ensures ReadU16(b).Got? ==> b == EncU16(ReadU16(b).value) + ReadU16(b).rest
  {
  }

  lemma U32RoundTrip(n: int, rest: seq<byte>)
    requires 0 <= n < 2 * INT_LIMIT
    ensures ReadU32(EncU32(n) + rest) == Got(n, rest)
  {
    assert (EncU32(n) + rest)[4..] == rest;
  }

  lemma U64RoundTrip(n: int, rest: seq<byte>)
    requires 0 <= n < 2 * LONG_LIMIT
    ensures ReadU64(EncU64(n) + rest) == Got(n, rest)
  {
    var hi, lo := n / 0x1_0000_0000, n % 0x1_0000_0000;
    assert EncU64(n) + rest == EncU32(hi) + (EncU32(lo) + rest);
    U32RoundTrip(hi, EncU32(lo) + rest);
    U32RoundTrip(lo, rest);
  }

  lemma I16RoundTrip(v: int, rest: seq<byte>)
    requires -0x8000 <= v < 0x8000
    ensures ReadI16(EncI16(v) + rest) == Got(v, rest)
  {
    U16RoundTrip(Unsigned(v, SHORT_LIMIT), rest);
  }

  lemma I32RoundTrip(v: int, rest: seq<byte>)
    requires -INT_LIMIT <= v < INT_LIMIT
    ensures ReadI32(EncI32(v) + rest) == Got(v, rest)
  {
    U32RoundTrip(Unsigned(v, 2 * INT_LIMIT), rest);
  }

  lemma I64RoundTrip(v: int, rest: seq<byte>)
    requires -LONG_LIMIT <= v < LONG_LIMIT
    ensures ReadI64(EncI64(v) + rest) == Got(v, rest)
  {
    U64RoundTrip(Unsigned(v, 2 * LONG_LIMIT), rest);
  }

  lemma Assoc(a: seq<byte>, b: seq<byte>, c: seq<byte>)
    ensures (a + b) + c == a + (b + c)
  {
  }

  lemma Assoc4(a: seq<byte>, b: seq<byte>, c: seq<byte>, d: seq<byte>)
    ensures (a + (b + c)) + d == a + (b + (c + d))
  {
  }

  lemma Chain(a: seq<byte>, b: seq<byte>, c: seq<byte>, rest: seq<byte>, b1: seq<byte>, b2: seq<byte>)
    requires b1 == b + b2 && b2 == c + rest
    ensures a + b1 == (a + (b + c)) + rest
  {
    Assoc4(a, b, c, rest);
  }

  /** A [short] tag in front of a payload. */
  lemma Tagged(tag: int, payload: seq<byte>, rest: seq<byte>)
    requires 0 <= tag < SHORT_LIMIT
    ensures ReadU16((EncU16(tag) + payload) + rest) == Got(tag, payload + rest)
  {
    Assoc(EncU16(tag), payload, rest);
    U16RoundTrip(tag, payload + rest);
  }

  lemma TaggedExact(b: seq<byte>, payload: seq<byte>, rest: seq<byte>)
    requires ReadU16(b).Got? && ReadU16(b).rest == payload + rest
    ensures b == (EncU16(ReadU16(b).value) + payload) + rest
  {
    U16Exact(b);
  }

  /** A container size cast to a [short]: it wraps. */
  function ToShort(n: nat): (r: int)
    ensures 0 <= r < SHORT_LIMIT && r <= n
    ensures r == n <==> n < SHORT_LIMIT
  {
    n % 0x1_0000
  }

  // ----- strings and byte blocks -----

  /** [string] and [short bytes]. The length is cast to 16 bits and only that many bytes are
      copied, so a longer value is silently cut (string_types.hpp:66-77, list_types.hpp:103-112). */
  function EncString(s: seq<byte>): seq<byte> {
    var n := ToShort(|s|);
    EncU16(n) + s[..n]
  }

  function ReadString(b: seq<byte>): (r: Read<seq<byte>>)
    ensures r.Got? ==> |r.rest| + 2 + |r.value| == |b| && |r.value| < SHORT_LIMIT
  {
    var (n, r) :- ReadU16(b);
    if |r| < n then Malformed else Got(r[..n], r[n..])
  }

  /** [long string] and [bytes] with a value present. */
  function EncBytes(v: seq<byte>): (b: seq<byte>)
    requires |v| < INT_LIMIT
    ensures |b| == 4 + |v|
  {
    EncI32(|v|) + v
  }

  function ReadLongString(b: seq<byte>): (r: Read<seq<byte>>)
    ensures r.Got? ==> |r.rest| + 4 + |r.value| == |b| && |r.value| < INT_LIMIT
  {
    var (n, r) :- ReadI32(b);
    if n < 0 || |r| < n then Malformed else Got(r[..n], r[n..])
  }

  /** [bytes]: a non-positive length stands for an empty value (list_types.hpp:84-95). */
  function ReadBytes(b: seq<byte>): (r: Read<seq<byte>>)
    ensures r.Got? ==> |r.rest| + 4 + |r.value| == |b| && |r.value| < INT_LIMIT
  {
    var (n, r) :- ReadI32(b);
    if n <= 0 then Got([], r)
    else if |r| < n then Malformed else Got(r[..n], r[n..])
  }

  /** A string survives the wire exactly when its length fits a [short];
      what arrives is otherwise its prefix of length |s| mod 65536. */
  lemma StringRoundTrip(s: seq<byte>, rest: seq<byte>)
    ensures ReadString(EncString(s) + rest) == Got(s[..ToShort(|s|)], rest)
    ensures ReadString(EncString(s) + rest) == Got(s, rest) <==> |s| < SHORT_LIMIT
  {
    var n := ToShort(|s|);
    assert EncString(s) + rest == EncU16(n) + (s[..n] + rest);
    U16RoundTrip(n, s[..n] + rest);
    assert |s| < SHORT_LIMIT ==> s[..n] == s;
  }

  lemma StringExact(b: seq<byte>)
    ensures ReadString(b).Got? ==> b == EncString(ReadString(b).value) + ReadString(b).rest
  {
    U16Exact(b);
    if ReadString(b).Got? {
      var n, r := ReadU16(b).value, ReadU16(b).rest;
      assert r == r[..n] + r[n..];
    }
  }

  lemma LongStringRoundTrip(s: seq<byte>, rest: seq<byte>)
    requires |s| < INT_LIMIT
    ensures ReadLongString(EncBytes(s) + rest) == Got(s, rest)
    ensures ReadBytes(EncBytes(s) + rest) == Got(s, rest)
  {
    assert EncBytes(s) + rest == EncI32(|s|) + (s + rest);
    I32RoundTrip(|s|, s + rest);
  }

  // ----- counted repetition -----

  /** `n` values read one after the other. */
  function ReadMany<T>(read: seq<byte> -> Read<T>, n: nat, b: seq<byte>): (r: Read<seq<T>>)
    ensures r.Got? ==> |r.value| == n
  {
    if n == 0 then Got([], b)
    else
      var (x, b1) :- read(b);
      var (xs, b2) :- ReadMany(read, n - 1, b1);
      Got([x] + xs, b2)
  }

  function EncMany<T>(enc: T --> seq<byte>, xs: seq<T>): seq<byte>
    requires forall x :: x in xs ==> enc.requires(x)
  {
    if xs == [] then [] else enc(xs[0]) + EncMany(enc, xs[1..])
  }

  /** If each element reads back in front of any bytes, so does the whole run. */
  lemma {:induction false} ManyRoundTrip<T>(enc: T --> seq<byte>, read: seq<byte> -> Read<T>, xs: seq<T>, rest: seq<byte>)
    requires forall x :: x in xs ==> enc.requires(x)
    requires forall x, tail :: x in xs ==> read(enc(x) + tail) == Got(x, tail)
    ensures ReadMany(read, |xs|, EncMany(enc, xs) + rest) == Got(xs, rest)
  {
    if xs != [] {
      var tail := EncMany(enc, xs[1..]) + rest;
      assert EncMany(enc, xs) + rest == enc(xs[0]) + tail;
      assert xs[0] in xs;
      ManyRoundTrip(enc, read, xs[1..], rest);
      assert xs == [xs[0]] + xs[1..];
    }
  }

  /** Reading `n` values is reading the first `k` and then the remaining ones. */
  lemma {:induction false} ManySplit<T>(read: seq<byte> -> Read<T>, k: nat, n: nat, b: seq<byte>)
    requires k <= n
    ensures ReadMany(read, n, b) ==
            match ReadMany(read, k, b) {
              case Malformed => Malformed
              case Got(xs, b1) =>
                match ReadMany(read, n - k, b1) {
                  case Malformed => Malformed
                  case Got(ys, b2) => Got(xs + ys, b2)
                }
            }
  {
    if k == 0 {
      match ReadMany(read, n, b) {
        case Malformed =>
        case Got(ys, _) => assert [] + ys == ys;
      }
    } else {
      match read(b) {
        case Malformed =>
        case Got(x, b1) =>
          ManySplit(read, k - 1, n - 1, b1);
          match ReadMany(read, k - 1, b1) {
            case Malformed =>
            case Got(xs, b2) =>
              match ReadMany(read, n - k, b2) {
                case Malformed =>
                case Got(ys, _) => assert [x] + (xs + ys) == ([x] + xs) + ys;
              }
          }
      }
    }
  }

  /** Every element of a counted read has the property the element reader guarantees. */
  lemma {:induction false} ManyAll<T>(read: seq<byte> -> Read<T>, p: T -> bool, n: nat, b: seq<byte>)
    requires forall b' :: read(b').Got? ==> p(read(b').value)
    ensures ReadMany(read, n, b).Got? ==> forall x :: x in ReadMany(read, n, b).value ==> p(x)
  {
    if n > 0 && read(b).Got? {
      ManyAll(read, p, n - 1, read(b).rest);
    }
  }

  /** One turn of a counted read loop. */
  lemma ManyStep<T>(read: seq<byte> -> Read<T>, i: nat, n: nat, b: seq<byte>)
    requires i < n && ReadMany(read, i, b).Got?
    ensures var before := ReadMany(read, i, b);
            match read(before.rest) {
              case Malformed => ReadMany(read, n, b) == Malformed
              case Got(x, b1) => ReadMany(read, i + 1, b) == Got(before.value + [x], b1)
            }
  {
    ManySplit(read, i, n, b);
    ManySplit(read, i, i + 1, b);
    var b0 := ReadMany(read, i, b).rest;
    match read(b0) {
      case Malformed =>
      case Got(x, b1) => assert ReadMany(read, 0, b1) == Got([], b1) && [x] + [] == [x];
    }
  }
}
