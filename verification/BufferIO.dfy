/** The buffer reader and writer objects: a cursor that advances over received bytes and a
    buffer that grows, with the counted list and map loops of list_types.hpp and map_types.hpp. */
module BufferIO {
  import opened Bytes

  /** What a reading method did, against the function that specifies it:
      same failure, same value, cursor exactly behind the bytes read. */
  ghost predicate Agrees<T>(result: Option<T>, spec: Read<T>, rest: seq<byte>) {
    match spec
    case Malformed => result == None
    case Got(v, r) => result == Some(v) && rest == r
  }

  class BufferReader {
    const data: seq<byte>
    var offset: nat

    constructor (data: seq<byte>)
      ensures this.data == data && Valid() && Rest() == data
    {
      this.data := data;
      offset := 0;
    }

    ghost predicate Valid() reads this { offset <= |data| }

    /** The bytes not read yet. */
    ghost function Rest(): seq<byte>
      requires Valid()
      reads this
    {
      data[offset..]
    }

    method ReadOctet() returns (r: Option<int>)
      requires Valid()
      modifies this`offset
      ensures Valid() && Agrees(r, ReadByte(old(Rest())), Rest())
    {
      if offset + 1 > |data| { return None; }
      r := Some(data[offset]);
      offset := offset + 1;
    }

    method ReadShort() returns (r: Option<int>)
      requires Valid()
      modifies this`offset
      ensures Valid() && Agrees(r, ReadU16(old(Rest())), Rest())
    {
      if offset + 2 > |data| { return None; }
      r := Some(data[offset] as int * 256 + data[offset + 1]);
      offset := offset + 2;
    }

    method ReadInt() returns (r: Option<int>)
      requires Valid()
      modifies this`offset
      ensures Valid() && Agrees(r, ReadI32(old(Rest())), Rest())
    {
      if offset + 4 > |data| { return None; }
      var hi, lo := data[offset] as int * 256 + data[offset + 1], data[offset + 2] as int * 256 + data[offset + 3];
      r := Some(Signed(hi * 0x1_0000 + lo, 2 * INT_LIMIT));
      offset := offset + 4;
    }

    method ReadText() returns (r: Option<seq<byte>>)
      requires Valid()
      modifies this`offset
      ensures Valid() && Agrees(r, ReadString(old(Rest())), Rest())
    {
      var n :- ReadShort();
      if offset + n > |data| { return None; }
      assert data[offset..offset + n] == Rest()[..n];
      r := Some(data[offset..offset + n]);
      offset := offset + n;
    }

    method ReadCell() returns (r: Option<seq<byte>>)
      requires Valid()
      modifies this`offset
      ensures Valid() && Agrees(r, ReadBytes(old(Rest())), Rest())
    {
      var n :- ReadInt();
      if n <= 0 { return Some([]); }
      if offset + n > |data| { return None; }
      assert data[offset..offset + n] == Rest()[..n];
      r := Some(data[offset..offset + n]);
      offset := offset + n;
    }

    /** [string list]: the element loop of `ListBinaryParser`. */
    method ReadTexts() returns (r: Option<seq<seq<byte>>>)
      requires Valid()
      modifies this`offset
      ensures Valid() && Agrees(r, ReadStringList(old(Rest())), Rest())
    {
      var n :- ReadShort();
      ghost var start := Rest();
      var value: seq<seq<byte>> := [];
      for i := 0 to n
        invariant Valid() && ReadMany(ReadString, i, start) == Got(value, Rest())
      {
        ManyStep(ReadString, i, n, start);
        var x :- ReadText();
        value := value + [x];
      }
      return Some(value);
    }

    method ReadTextsEntry() returns (r: Option<(seq<byte>, seq<seq<byte>>)>)
      requires Valid()
      modifies this`offset
      ensures Valid() && Agrees(r, ReadEntry(ReadStringList, old(Rest())), Rest())
    {
      var key :- ReadText();
      var v :- ReadTexts();
      r := Some((key, v));
    }

    /** [string multimap]: the emplacing loop of `MapBinaryParser`. */
    method ReadTextMultiMap() returns (r: Option<map<seq<byte>, seq<seq<byte>>>>)
      requires Valid()
      modifies this`offset
      ensures Valid() && Agrees(r, ReadMap(ReadStringList, old(Rest())), Rest())
    {
      var n :- ReadShort();
      ghost var start := Rest();
      ghost var entries: seq<(seq<byte>, seq<seq<byte>>)> := [];
      ghost var readEntry := EntryReader(ReadStringList);
      var value: map<seq<byte>, seq<seq<byte>>> := map[];
      for i := 0 to n
        invariant Valid() && ReadMany(readEntry, i, start) == Got(entries, Rest())
        invariant value == Collect(entries)
      {
        ManyStep(readEntry, i, n, start);
        var e :- ReadTextsEntry();
        CollectSnoc(entries, e);
        entries := entries + [e];
        value := Emplace(value, e.0, e.1);
      }
      return Some(value);
    }
  }

  class BufferWriter {
    var buffer: seq<byte>

    constructor ()
      ensures buffer == []
    {
      buffer := [];
    }

    method WriteOctet(v: byte)
      modifies this
      ensures buffer == old(buffer) + [v]
    {
      buffer := buffer + [v];
    }

    method WriteShort(v: int)
      requires 0 <= v < SHORT_LIMIT
      modifies this
      ensures buffer == old(buffer) + EncU16(v)
    {
      buffer := buffer + [v / 256, v % 256];
    }

    method WriteInt(v: int)
      requires -INT_LIMIT <= v < INT_LIMIT
      modifies this
      ensures buffer == old(buffer) + EncI32(v)
    {
      buffer := buffer + EncI32(v);
    }

    method WriteText(s: seq<byte>)
      modifies this
      ensures buffer == old(buffer) + EncString(s)
    {
      var n := ToShort(|s|);
      WriteShort(n);
      buffer := buffer + s[..n];
    }

    method WriteBlock(v: seq<byte>)
      requires |v| < INT_LIMIT
      modifies this
      ensures buffer == old(buffer) + EncBytes(v)
    {
      WriteInt(|v|);
      buffer := buffer + v;
    }

    /** The value loop shared by QUERY, EXECUTE and BATCH (request_message.hpp:114-118, 204-211). */
    method WriteValues(values: seq<seq<byte>>)
      requires forall v :: v in values ==> |v| < INT_LIMIT
      modifies this
      ensures buffer == old(buffer) + EncValues(values)
    {
      WriteShort(ToShort(|values|));
      ghost var start := buffer;
      for i := 0 to |values|
        invariant buffer == start + EncMany(EncBytes, values[..i])
      {
        WriteBlock(values[i]);
        EncManySnoc(EncBytes, values, i);
        Assoc(start, EncMany(EncBytes, values[..i]), EncBytes(values[i]));
      }
      assert values[..|values|] == values;
      Assoc(old(buffer), EncU16(ToShort(|values|)), EncMany(EncBytes, values));
    }

    method WriteTextEntry(e: (seq<byte>, seq<byte>))
      modifies this
      ensures buffer == old(buffer) + EncEntry(EncString, e)
    {
      WriteText(e.0);
      WriteText(e.1);
      Assoc(old(buffer), EncString(e.0), EncString(e.1));
    }

    /** [string map]: the entry loop of `MapBinaryFormatter`, in whatever order the container iterates. */
    method WriteTextMap(entries: seq<(seq<byte>, seq<byte>)>)
      modifies this
      ensures buffer == old(buffer) + EncMap(EncString, entries)
    {
      WriteShort(ToShort(|entries|));
      ghost var start := buffer;
      ghost var enc := EntryEncoder(EncString);
      for i := 0 to |entries|
        invariant buffer == start + EncMany(enc, entries[..i])
      {
        WriteTextEntry(entries[i]);
        EncManySnoc(enc, entries, i);
        Assoc(start, EncMany(enc, entries[..i]), enc(entries[i]));
      }
      assert entries[..|entries|] == entries;
      Assoc(old(buffer), EncU16(ToShort(|entries|)), EncMany(enc, entries));
    }
  }

  // ----- counted lists -----

  lemma {:induction false} EncManySnoc<T>(enc: T --> seq<byte>, xs: seq<T>, i: nat)
    requires i < |xs| && forall x :: x in xs ==> enc.requires(x)
    ensures EncMany(enc, xs[..i + 1]) == EncMany(enc, xs[..i]) + enc(xs[i])
  {
    if i == 0 {
      assert xs[..1][1..] == [];
    } else {
      EncManySnoc(enc, xs[1..], i - 1);
      assert xs[..i + 1][1..] == xs[1..][..i] && xs[..i][1..] == xs[1..][..i - 1];
    }
  }

  /** A [short] count, cast from the container's size, then every element. */
  function EncValues(values: seq<seq<byte>>): seq<byte>
    requires forall v :: v in values ==> |v| < INT_LIMIT
  {
    EncU16(ToShort(|values|)) + EncMany(EncBytes, values)
  }

  /** The receiving side of section 4.1.4: a null or unset value (negative length) is not accepted here,
      because this client never sends one. */
  function ReadValues(b: seq<byte>): (r: Read<seq<seq<byte>>>)
    ensures r.Got? ==> |r.value| < SHORT_LIMIT
  {
    var (n, r) :- ReadU16(b);
    ReadMany(ReadLongString, n, r)
  }

  /** Bound values arrive unchanged exactly when their number fits the [short] that counts them. */
  lemma ValuesRoundTrip(values: seq<seq<byte>>, rest: seq<byte>)
    requires forall v :: v in values ==> |v| < INT_LIMIT
    ensures ReadValues(EncValues(values) + rest) == Got(values, rest) <==> |values| < SHORT_LIMIT
  {
    if |values| < SHORT_LIMIT {
      ValuesInARow(values, rest);
      hide EncU16, ReadU16, EncMany, ReadMany;
      var payload := EncMany(EncBytes, values);
      Tagged(|values|, payload, rest);
    }
  }

  lemma ValuesInARow(values: seq<seq<byte>>, rest: seq<byte>)
    requires forall v :: v in values ==> |v| < INT_LIMIT
    ensures ReadMany(ReadLongString, |values|, EncMany(EncBytes, values) + rest) == Got(values, rest)
  {
    var enc, read := EncBytes, ReadLongString;
    forall v, tail | v in values ensures read(enc(v) + tail) == Got(v, tail) {
      LongStringRoundTrip(v, tail);
    }
    hide EncU16, ReadU16, EncMany, ReadMany;
    ManyRoundTrip(enc, read, values, rest);
  }

  function EncStringList(xs: seq<seq<byte>>): seq<byte> {
    EncU16(ToShort(|xs|)) + EncMany(EncString, xs)
  }

  function ReadStringList(b: seq<byte>): Read<seq<seq<byte>>> {
    var (n, r) :- ReadU16(b);
    ReadMany(ReadString, n, r)
  }

  predicate FitsShort(s: seq<byte>) { |s| < SHORT_LIMIT }

  predicate FitsStringList(xs: seq<seq<byte>>) {
    |xs| < SHORT_LIMIT && forall x :: x in xs ==> FitsShort(x)
  }

  /** A list of strings comes back exactly when its size and every length fit a [short]: a longer
      string is cut, and of a longer list only the first `|xs|` mod 65536 strings are read. */
  lemma StringListRoundTrip(xs: seq<seq<byte>>, rest: seq<byte>)
    ensures ReadStringList(EncStringList(xs) + rest) == Got(xs, rest) <==> FitsStringList(xs)
  {
    StringListFits(EncStringList(xs) + rest);
    if FitsStringList(xs) {
      StringsInARow(xs, rest);
      hide EncU16, ReadU16, EncMany, ReadMany;
      Tagged(|xs|, EncMany(EncString, xs), rest);
    }
  }

  /** Only such lists are ever read. */
  lemma StringListFits(b: seq<byte>)
    ensures ReadStringList(b).Got? ==> FitsStringList(ReadStringList(b).value)
  {
    if ReadU16(b).Got? {
      ManyAll(ReadString, FitsShort, ReadU16(b).value, ReadU16(b).rest);
    }
  }

  lemma StringsInARow(xs: seq<seq<byte>>, rest: seq<byte>)
    requires forall x :: x in xs ==> FitsShort(x)
    ensures ReadMany(ReadString, |xs|, EncMany(EncString, xs) + rest) == Got(xs, rest)
  {
    var enc, read := EncString, ReadString;
    forall x, tail | x in xs ensures read(enc(x) + tail) == Got(x, tail) {
      assert FitsShort(x);
      StringRoundTrip(x, tail);
    }
    hide EncU16, ReadU16, EncMany, ReadMany;
    ManyRoundTrip(enc, read, xs, rest);
  }

  // ----- maps -----

  function EncEntry<V>(enc: V -> seq<byte>, e: (seq<byte>, V)): seq<byte> {
    EncString(e.0) + enc(e.1)
  }

  function ReadEntry<V>(read: seq<byte> -> Read<V>, b: seq<byte>): Read<(seq<byte>, V)> {
    var (k, b1) :- ReadString(b);
    var (v, b2) :- read(b1);
    Got((k, v), b2)
  }

  function EntryEncoder<V>(enc: V -> seq<byte>): ((seq<byte>, V)) -> seq<byte> {
    (e: (seq<byte>, V)) => EncEntry(enc, e)
  }

  function EntryReader<V>(read: seq<byte> -> Read<V>): seq<byte> -> Read<(seq<byte>, V)> {
    b => ReadEntry(read, b)
  }

  function EncMap<V>(enc: V -> seq<byte>, entries: seq<(seq<byte>, V)>): seq<byte> {
    EncU16(ToShort(|entries|)) + EncMany(EntryEncoder(enc), entries)
  }

  function ReadMap<V>(read: seq<byte> -> Read<V>, b: seq<byte>): Read<map<seq<byte>, V>> {
    var (n, r) :- ReadU16(b);
    var (entries, r1) :- ReadMany(EntryReader(read), n, r);
    Got(Collect(entries), r1)
  }

  /** `emplace` keeps the value already stored under a key. */
  function Emplace<K, V>(m: map<K, V>, k: K, v: V): map<K, V> {
    if k in m then m else m[k := v]
  }

  function Collect<K, V>(entries: seq<(K, V)>): (m: map<K, V>) {
    if entries == [] then map[]
    else
      var n := |entries| - 1;
      Emplace(Collect(entries[..n]), entries[n].0, entries[n].1)
  }

  lemma CollectSnoc<K, V>(entries: seq<(K, V)>, e: (K, V))
    ensures Collect(entries + [e]) == Emplace(Collect(entries), e.0, e.1)
  {
    assert (entries + [e])[..|entries|] == entries;
  }

  /** `entries` lists the map in some order, each key once. */
  ghost predicate Enumerates<K(!new), V(!new)>(entries: seq<(K, V)>, m: map<K, V>) {
    && (forall i, j :: 0 <= i < j < |entries| ==> entries[i].0 != entries[j].0)
    && (forall i :: 0 <= i < |entries| ==> entries[i].0 in m && m[entries[i].0] == entries[i].1)
    && (forall k :: k in m ==> exists i :: 0 <= i < |entries| && entries[i].0 == k)
  }

  /** Emplacing an entry list keeps exactly the listed keys ... */
  lemma {:induction false} CollectKeys<K(!new), V(!new)>(entries: seq<(K, V)>, k: K)
    ensures k in Collect(entries) <==> exists i :: 0 <= i < |entries| && entries[i].0 == k
  {
    if entries != [] {
      var n := |entries| - 1;
      var init := entries[..n];
      CollectKeys(init, k);
      if i :| 0 <= i < |init| && init[i].0 == k {
        assert entries[i].0 == k;
      }
      if i :| 0 <= i < n && entries[i].0 == k {
        assert init[i].0 == k;
      }
    }
  }

  /** ... and under each key the value listed first. */
  lemma {:induction false} CollectFirstWins<K(!new), V(!new)>(entries: seq<(K, V)>, i: nat)
    requires i < |entries| && forall j :: 0 <= j < i ==> entries[j].0 != entries[i].0
    ensures entries[i].0 in Collect(entries) && Collect(entries)[entries[i].0] == entries[i].1
  {
    var n := |entries| - 1;
    var init := entries[..n];
    CollectKeys(init, entries[i].0);
    if i < n {
      CollectFirstWins(init, i);
    }
  }

  lemma CollectEnumeration<K(!new), V(!new)>(entries: seq<(K, V)>, m: map<K, V>)
    requires Enumerates(entries, m)
    ensures Collect(entries) == m
  {
    forall k ensures k in Collect(entries) <==> k in m {
      CollectKeys(entries, k);
    }
    forall k | k in m ensures Collect(entries)[k] == m[k] {
      var i :| 0 <= i < |entries| && entries[i].0 == k;
      CollectFirstWins(entries, i);
    }
  }

  ghost predicate ReadsBack<V(!new)>(enc: V -> seq<byte>, read: seq<byte> -> Read<V>, v: V) {
    forall tail :: read(enc(v) + tail) == Got(v, tail)
  }

  lemma EntryRoundTrip<V(!new)>(enc: V -> seq<byte>, read: seq<byte> -> Read<V>, e: (seq<byte>, V), rest: seq<byte>)
    requires FitsShort(e.0) && ReadsBack(enc, read, e.1)
    ensures ReadEntry(read, EncEntry(enc, e) + rest) == Got(e, rest)
  {
    Assoc(EncString(e.0), enc(e.1), rest);
    StringRoundTrip(e.0, enc(e.1) + rest);
  }

  lemma EntriesInARow<V(!new)>(enc: V -> seq<byte>, read: seq<byte> -> Read<V>, entries: seq<(seq<byte>, V)>, rest: seq<byte>)
    requires forall e :: e in entries ==> FitsShort(e.0) && ReadsBack(enc, read, e.1)
    ensures ReadMany(EntryReader(read), |entries|, EncMany(EntryEncoder(enc), entries) + rest) == Got(entries, rest)
  {
    var encE, readE := EntryEncoder(enc), EntryReader(read);
    forall e, tail | e in entries ensures readE(encE(e) + tail) == Got(e, tail) {
      EntryRoundTrip(enc, read, e, tail);
    }
    hide EntryEncoder, EntryReader, EncMany, ReadMany;
    ManyRoundTrip(encE, readE, entries, rest);
  }

  /** Of a list of more than 65535 entries only the first `|entries|` mod 65536 are read. */
  lemma EntriesCounted<V(!new)>(enc: V -> seq<byte>, read: seq<byte> -> Read<V>, entries: seq<(seq<byte>, V)>, rest: seq<byte>)
    requires forall e :: e in entries ==> FitsShort(e.0) && ReadsBack(enc, read, e.1)
    ensures var n := ToShort(|entries|);
            ReadMap(read, EncMap(enc, entries) + rest)
            == Got(Collect(entries[..n]), EncMany(EntryEncoder(enc), entries[n..]) + rest)
  {
    var n, encE := ToShort(|entries|), EntryEncoder(enc);
    EntriesInARow(enc, read, entries[..n], EncMany(encE, entries[n..]) + rest);
    EncManySplit(encE, entries, n);
    hide EncU16, ReadU16, EncMany, ReadMany, EntryEncoder, EntryReader, Collect;
    Assoc(EncMany(encE, entries[..n]), EncMany(encE, entries[n..]), rest);
    Tagged(n, EncMany(encE, entries), rest);
  }

  lemma {:induction false} EncManySplit<T>(enc: T -> seq<byte>, xs: seq<T>, n: nat)
    requires n <= |xs|
    ensures EncMany(enc, xs) == EncMany(enc, xs[..n]) + EncMany(enc, xs[n..])
  {
    if n > 0 {
      EncManySplit(enc, xs[1..], n - 1);
      assert xs[..n][1..] == xs[1..][..n - 1] && xs[n..] == xs[1..][n - 1..];
    }
  }

  /** What a map is read from: fitting keys with values the value reader may give. */
  lemma MapFits<V(!new)>(read: seq<byte> -> Read<V>, fits: V -> bool, b: seq<byte>)
    requires forall b' :: read(b').Got? ==> fits(read(b').value)
    ensures var r := ReadMap(read, b);
            r.Got? ==> forall k :: k in r.value ==> FitsShort(k) && fits(r.value[k])
  {
    if ReadMap(read, b).Got? {
      var n, b1 := ReadU16(b).value, ReadU16(b).rest;
      ManyAll(EntryReader(read), (e: (seq<byte>, V)) => FitsShort(e.0) && fits(e.1), n, b1);
      var entries := ReadMany(EntryReader(read), n, b1).value;
      forall k | k in Collect(entries) ensures FitsShort(k) && fits(Collect(entries)[k]) {
        CollectFrom(entries, k);
      }
    }
  }

  lemma {:induction false} CollectFrom<K(!new), V(!new)>(entries: seq<(K, V)>, k: K)
    requires k in Collect(entries)
    ensures (k, Collect(entries)[k]) in entries
  {
    var n := |entries| - 1;
    if k in Collect(entries[..n]) {
      CollectFrom(entries[..n], k);
    }
  }

  /** An entry list whose values read back, repeated keys included, is parsed to the map its
      emplacement gives exactly when the number of entries and every key fit a [short]. */
  lemma EntriesRoundTrip<V(!new)>(enc: V -> seq<byte>, read: seq<byte> -> Read<V>, entries: seq<(seq<byte>, V)>, rest: seq<byte>)
    requires forall e :: e in entries ==> ReadsBack(enc, read, e.1)
    ensures ReadMap(read, EncMap(enc, entries) + rest) == Got(Collect(entries), rest)
            <==> |entries| < SHORT_LIMIT && forall e :: e in entries ==> FitsShort(e.0)
  {
    hide *;
    if |entries| < SHORT_LIMIT && forall e :: e in entries ==> FitsShort(e.0) {
      EntriesCounted(enc, read, entries, rest);
      MoreLeft(enc, entries, |entries|, rest);
      assert entries[..|entries|] == entries;
    } else if ReadMap(read, EncMap(enc, entries) + rest) == Got(Collect(entries), rest) {
      KeysRead(enc, read, entries, rest);
      EntriesCounted(enc, read, entries, rest);
      MoreLeft(enc, entries, ToShort(|entries|), rest);
    }
  }

  lemma KeysRead<V(!new)>(enc: V -> seq<byte>, read: seq<byte> -> Read<V>, entries: seq<(seq<byte>, V)>, rest: seq<byte>)
    requires ReadMap(read, EncMap(enc, entries) + rest) == Got(Collect(entries), rest)
    ensures forall e :: e in entries ==> FitsShort(e.0)
  {
    MapFits(read, v => true, EncMap(enc, entries) + rest);
    hide *;
    forall e | e in entries ensures FitsShort(e.0) {
      var i :| 0 <= i < |entries| && entries[i] == e;
      CollectKeys(entries, e.0);
    }
  }

  /** Entries that were not read leave bytes behind. */
  lemma MoreLeft<V>(enc: V -> seq<byte>, entries: seq<(seq<byte>, V)>, n: nat, rest: seq<byte>)
    requires n <= |entries|
    ensures EncMany(EntryEncoder(enc), entries[n..]) + rest == rest <==> n == |entries|
  {
    var left := EncMany(EntryEncoder(enc), entries[n..]);
    if n < |entries| {
      assert |EncEntry(enc, entries[n])| >= 2;
      assert |left + rest| > |rest|;
    } else {
      assert left + rest == rest;
    }
  }

  /** Whatever order the container iterates its entries in, parsing what was formatted gives the same
      map and leaves exactly the bytes that followed if and only if the number of entries, the keys and
      the values fit. The value codec is a parameter, with the condition under which its values read
      back, so the statement nests. */
  lemma MapRoundTrip<V(!new)>(enc: V -> seq<byte>, read: seq<byte> -> Read<V>, fits: V -> bool,
                              entries: seq<(seq<byte>, V)>, m: map<seq<byte>, V>, rest: seq<byte>)
    requires Enumerates(entries, m)
    requires forall v :: fits(v) ==> ReadsBack(enc, read, v)
    requires forall b :: read(b).Got? ==> fits(read(b).value)
    ensures ReadMap(read, EncMap(enc, entries) + rest) == Got(m, rest)
            <==> |entries| < SHORT_LIMIT && forall k :: k in m ==> FitsShort(k) && fits(m[k])
  {
    CollectEnumeration(entries, m);
    MapFits(read, fits, EncMap(enc, entries) + rest);
    hide ReadMap, EncMap, Collect, ReadsBack, FitsShort;
    if forall k :: k in m ==> FitsShort(k) && fits(m[k]) {
      forall e | e in entries ensures FitsShort(e.0) && ReadsBack(enc, read, e.1) {
        var i :| 0 <= i < |entries| && entries[i] == e;
        assert entries[i].0 in m;
      }
      EntriesRoundTrip(enc, read, entries, rest);
    }
  }

  lemma StringListReadsBack(xs: seq<seq<byte>>)
    requires FitsStringList(xs)
    ensures ReadsBack(EncStringList, ReadStringList, xs)
  {
    forall tail ensures ReadStringList(EncStringList(xs) + tail) == Got(xs, tail) {
      StringListRoundTrip(xs, tail);
    }
  }

  /** The SUPPORTED body: a string multimap, i.e. a map of lists. */
  lemma MultiMapRoundTrip(entries: seq<(seq<byte>, seq<seq<byte>>)>, m: map<seq<byte>, seq<seq<byte>>>, rest: seq<byte>)
    requires Enumerates(entries, m)
    ensures ReadMap(ReadStringList, EncMap(EncStringList, entries) + rest) == Got(m, rest)
            <==> |entries| < SHORT_LIMIT && forall k :: k in m ==> FitsShort(k) && FitsStringList(m[k])
  {
    forall xs | FitsStringList(xs) ensures ReadsBack(EncStringList, ReadStringList, xs) {
      StringListReadsBack(xs);
    }
    forall b ensures ReadStringList(b).Got? ==> FitsStringList(ReadStringList(b).value) {
      StringListFits(b);
    }
    MapRoundTrip(EncStringList, ReadStringList, FitsStringList, entries, m, rest);
  }
}
