/** RESULT bodies (sections 4.2.5.2 and 4.2.5.4 of CQL Binary Protocol v4):
    `ResultMessage::ParseRows` and `PreparedKind::Parse` of src/io/protocol/response_message.hpp. */
module Results {
  import opened Bytes
  import opened BufferIO
  import opened ColumnTypes

  datatype Column = Column(keyspace: seq<byte>, table: seq<byte>, name: seq<byte>, kind: ColumnType)

  /** What `ParseRows` stores. */
  datatype RowKind = RowKind(head: RowsHead, spec: TableSpec, rowsCount: int, rows: seq<seq<seq<byte>>>)
  datatype RowsHead = RowsHead(flags: int, columnsCount: int, pagingState: seq<byte>)
  datatype TableSpec = TableSpec(keyspace: seq<byte>, table: seq<byte>, columns: seq<Column>)

  // `Flags` of a result: bit tests on a two's complement [int].
  predicate GlobalTableSpec(flags: int) { flags % 2 == 1 }
  predicate HasMorePages(flags: int) { flags / 2 % 2 == 1 }
  predicate NoMetadata(flags: int) { flags / 4 % 2 == 1 }

  // ----- columns -----

  function ReadColumn(global: bool, b: seq<byte>): Read<Column> {
    var (ks, b1) :- if global then Got([], b) else ReadString(b);
    var (table, b2) :- if global then Got([], b1) else ReadString(b1);
    var (name, b3) :- ReadString(b2);
    var (t, b4) :- ParseType(b3);
    Got(Column(ks, table, name, t), b4)
  }

  function ColumnReader(global: bool): seq<byte> -> Read<Column> { b => ReadColumn(global, b) }

  predicate FitsColumn(global: bool, c: Column) {
    && FitsShort(c.name) && WellFormed(c.kind)
    && (if global then c.keyspace == [] && c.table == [] else FitsShort(c.keyspace) && FitsShort(c.table))
  }

  function EncOwner(global: bool, keyspace: seq<byte>, table: seq<byte>): seq<byte> {
    if global then [] else EncString(keyspace) + EncString(table)
  }

  function EncColumn(global: bool, c: Column): seq<byte>
    requires FitsColumn(global, c)
  {
    EncOwner(global, c.keyspace, c.table) + (EncString(c.name) + EncType(c.kind))
  }

  function ColumnEncoder(global: bool): Column --> seq<byte> {
    c requires FitsColumn(global, c) => EncColumn(global, c)
  }

  lemma ColumnRoundTrip(global: bool, c: Column, rest: seq<byte>)
    requires FitsColumn(global, c)
    ensures ReadColumn(global, EncColumn(global, c) + rest) == Got(c, rest)
  {
    var tail := EncString(c.name) + (EncType(c.kind) + rest);
    Assoc4(EncOwner(global, c.keyspace, c.table), EncString(c.name), EncType(c.kind), rest);
    if global {
      assert [] + tail == tail;
    } else {
      Assoc(EncString(c.keyspace), EncString(c.table), tail);
      StringRoundTrip(c.keyspace, EncString(c.table) + tail);
      StringRoundTrip(c.table, tail);
    }
    StringRoundTrip(c.name, EncType(c.kind) + rest);
    TypeRoundTrip(c.kind, rest);
  }

  lemma ColumnsRoundTrip(global: bool, columns: seq<Column>, rest: seq<byte>)
    requires forall c :: c in columns ==> FitsColumn(global, c)
    ensures ReadMany(ColumnReader(global), |columns|, EncMany(ColumnEncoder(global), columns) + rest) == Got(columns, rest)
  {
    forall c, tail | c in columns ensures ColumnReader(global)(ColumnEncoder(global)(c) + tail) == Got(c, tail) {
      ColumnRoundTrip(global, c, tail);
    }
    ManyRoundTrip(ColumnEncoder(global), ColumnReader(global), columns, rest);
  }

  // ----- table specification -----

  /** The global keyspace and table when flagged, then `n` columns. */
  function ReadTableSpec(global: bool, n: nat, b: seq<byte>): Read<TableSpec> {
    var (ks, b1) :- if global then ReadString(b) else Got([], b);
    var (table, b2) :- if global then ReadString(b1) else Got([], b1);
    var (columns, b3) :- ReadMany(ColumnReader(global), n, b2);
    Got(TableSpec(ks, table, columns), b3)
  }

  predicate FitsSpec(global: bool, s: TableSpec) {
    && (forall c :: c in s.columns ==> FitsColumn(global, c))
    && (if global then FitsShort(s.keyspace) && FitsShort(s.table) else s.keyspace == [] && s.table == [])
  }

  function EncTableSpec(global: bool, s: TableSpec): seq<byte>
    requires FitsSpec(global, s)
  {
    EncOwner(!global, s.keyspace, s.table) + EncMany(ColumnEncoder(global), s.columns)
  }

  lemma TableSpecRoundTrip(global: bool, s: TableSpec, rest: seq<byte>)
    requires FitsSpec(global, s)
    ensures ReadTableSpec(global, |s.columns|, EncTableSpec(global, s) + rest) == Got(s, rest)
  {
    var columns := EncMany(ColumnEncoder(global), s.columns);
    var tail := columns + rest;
    Assoc(EncOwner(!global, s.keyspace, s.table), columns, rest);
    if global {
      Assoc(EncString(s.keyspace), EncString(s.table), tail);
      StringRoundTrip(s.keyspace, EncString(s.table) + tail);
      StringRoundTrip(s.table, tail);
    } else {
      assert [] + tail == tail;
    }
    ColumnsRoundTrip(global, s.columns, rest);
  }

  // ----- head and cells of a Rows result -----

  function ReadRowsHead(b: seq<byte>): Read<RowsHead> {
    var (flags, b1) :- ReadI32(b);
    var (n, b2) :- ReadI32(b1);
    var (paging, b3) :- if HasMorePages(flags) then ReadBytes(b2) else Got([], b2);
    Got(RowsHead(flags, n, paging), b3)
  }

  function ReadRow(n: int, b: seq<byte>): (r: Read<seq<seq<byte>>>)
    ensures r.Got? ==> |r.value| == if n < 0 then 0 else n
  {
    ReadMany(ReadBytes, if n < 0 then 0 else n, b)
  }

  function RowReader(n: int): seq<byte> -> Read<seq<seq<byte>>> { b => ReadRow(n, b) }

  /** Row count, then that many rows; reserving room for a negative count throws. */
  function ReadGrid(columnsCount: int, b: seq<byte>): Read<seq<seq<seq<byte>>>> {
    var (n, b1) :- ReadI32(b);
    if n < 0 then Malformed else ReadMany(RowReader(columnsCount), n, b1)
  }

  function ReadRowsSpec(head: RowsHead, b: seq<byte>): Read<TableSpec> {
    if NoMetadata(head.flags) then Got(TableSpec([], [], []), b)
    else if head.columnsCount < 0 then Malformed
    else ReadTableSpec(GlobalTableSpec(head.flags), head.columnsCount, b)
  }

  function ReadRows(b: seq<byte>): Read<RowKind> {
    var (head, b1) :- ReadRowsHead(b);
    var (spec, b2) :- ReadRowsSpec(head, b1);
    var (rows, b3) :- ReadGrid(head.columnsCount, b2);
    Got(RowKind(head, spec, |rows|, rows), b3)
  }

  // ----- the section 4.2.5.2 encoding -----

  datatype Metadata =
    | Omitted(count: nat, globalFlag: bool)
    | PerColumn(columns: seq<Column>)
    | Global(keyspace: seq<byte>, table: seq<byte>, columns: seq<Column>)

  /** A Rows result as the server sees it; a cell is null or a value. */
  datatype RowsResult = RowsResult(meta: Metadata, paging: Option<seq<byte>>, rows: seq<seq<Option<seq<byte>>>>)

  function ColumnsCount(m: Metadata): nat { if m.Omitted? then m.count else |m.columns| }

  function IsGlobal(m: Metadata): bool { m.Global? || (m.Omitted? && m.globalFlag) }

  function FlagsOf(r: RowsResult): int {
    (if IsGlobal(r.meta) then 1 else 0) + (if r.paging.Some? then 2 else 0) + (if r.meta.Omitted? then 4 else 0)
  }

  function SpecOf(m: Metadata): TableSpec {
    match m
    case Omitted(_, _) => TableSpec([], [], [])
    case PerColumn(cs) => TableSpec([], [], cs)
    case Global(ks, t, cs) => TableSpec(ks, t, cs)
  }

  predicate FitsCell(c: Option<seq<byte>>) { c.Some? ==> |c.value| < INT_LIMIT }

  predicate FitsCells(row: seq<Option<seq<byte>>>) { forall c :: c in row ==> FitsCell(c) }

  predicate FitsRows(r: RowsResult) {
    && ColumnsCount(r.meta) < INT_LIMIT && |r.rows| < INT_LIMIT
    && (!r.meta.Omitted? ==> FitsSpec(r.meta.Global?, SpecOf(r.meta)))
    && FitsCell(r.paging)
    && forall row :: row in r.rows ==> FitsCells(row) && |row| == ColumnsCount(r.meta)
  }

  function EncCell(c: Option<seq<byte>>): seq<byte>
    requires FitsCell(c)
  {
    if c.None? then EncI32(-1) else EncBytes(c.value)
  }

  function EncRow(row: seq<Option<seq<byte>>>): seq<byte>
    requires FitsCells(row)
  {
    EncMany(EncCell, row)
  }

  function EncRowsHead(r: RowsResult): seq<byte>
    requires FitsRows(r)
  {
    EncI32(FlagsOf(r)) + (EncI32(ColumnsCount(r.meta)) + EncPaging(r.paging))
  }

  function EncPaging(paging: Option<seq<byte>>): seq<byte>
    requires FitsCell(paging)
  {
    if paging.Some? then EncBytes(paging.value) else []
  }

  function EncGrid(r: RowsResult): seq<byte>
    requires FitsRows(r)
  {
    EncI32(|r.rows|) + EncMany(EncRow, r.rows)
  }

  function EncMetadata(m: Metadata): seq<byte>
    requires !m.Omitted? ==> FitsSpec(m.Global?, SpecOf(m))
  {
    if m.Omitted? then [] else EncTableSpec(m.Global?, SpecOf(m))
  }

  function EncRows(r: RowsResult): seq<byte>
    requires FitsRows(r)
  {
    EncRowsHead(r) + (EncMetadata(r.meta) + EncGrid(r))
  }

  /** The bytes of a cell as the client keeps them: null and empty coincide. */
  function CellValue(c: Option<seq<byte>>): seq<byte> { if c.None? then [] else c.value }

  function RowValues(row: seq<Option<seq<byte>>>): (r: seq<seq<byte>>)
    ensures |r| == |row|
  {
    if row == [] then [] else [CellValue(row[0])] + RowValues(row[1..])
  }

  function GridValues(rows: seq<seq<Option<seq<byte>>>>): (g: seq<seq<seq<byte>>>)
    ensures |g| == |rows|
  {
    if rows == [] then [] else [RowValues(rows[0])] + GridValues(rows[1..])
  }

  function HeadOf(r: RowsResult): RowsHead {
    RowsHead(FlagsOf(r), ColumnsCount(r.meta), CellValue(r.paging))
  }

  lemma FlagsMeaning(r: RowsResult)
    ensures 0 <= FlagsOf(r) < 8
    ensures GlobalTableSpec(FlagsOf(r)) == IsGlobal(r.meta)
    ensures HasMorePages(FlagsOf(r)) == r.paging.Some?
    ensures NoMetadata(FlagsOf(r)) == r.meta.Omitted?
  {
  }

  lemma HeadRoundTrip(flags: int, n: nat, paging: Option<seq<byte>>, rest: seq<byte>)
    requires 0 <= flags < 8 && n < INT_LIMIT && FitsCell(paging) && HasMorePages(flags) == paging.Some?
    ensures ReadRowsHead((EncI32(flags) + (EncI32(n) + EncPaging(paging))) + rest) ==
            Got(RowsHead(flags, n, CellValue(paging)), rest)
  {
    var tail := EncPaging(paging) + rest;
    Assoc4(EncI32(flags), EncI32(n), EncPaging(paging), rest);
    I32RoundTrip(flags, EncI32(n) + tail);
    I32RoundTrip(n, tail);
    if paging.Some? {
      LongStringRoundTrip(paging.value, rest);
    } else {
      assert tail == rest;
    }
  }

  lemma RowsSpecRoundTrip(m: Metadata, head: RowsHead, rest: seq<byte>)
    requires NoMetadata(head.flags) == m.Omitted? && GlobalTableSpec(head.flags) == IsGlobal(m)
    requires head.columnsCount == ColumnsCount(m) && (!m.Omitted? ==> FitsSpec(m.Global?, SpecOf(m)))
    ensures ReadRowsSpec(head, EncMetadata(m) + rest) == Got(SpecOf(m), rest)
  {
    if m.Omitted? {
      assert [] + rest == rest;
    } else {
      TableSpecRoundTrip(m.Global?, SpecOf(m), rest);
    }
  }

  lemma CellRoundTrip(c: Option<seq<byte>>, rest: seq<byte>)
    requires FitsCell(c)
    ensures ReadBytes(EncCell(c) + rest) == Got(CellValue(c), rest)
  {
    if c.Some? {
      LongStringRoundTrip(c.value, rest);
    } else {
      I32RoundTrip(-1, rest);
    }
  }

  lemma {:induction false} RowRoundTrip(row: seq<Option<seq<byte>>>, rest: seq<byte>)
    requires FitsCells(row)
    ensures ReadRow(|row|, EncRow(row) + rest) == Got(RowValues(row), rest)
  {
    if row == [] {
      assert EncRow(row) + rest == rest;
    } else {
      var tail := EncRow(row[1..]) + rest;
      Assoc(EncCell(row[0]), EncRow(row[1..]), rest);
      CellRoundTrip(row[0], tail);
      RowRoundTrip(row[1..], rest);
    }
  }

  lemma {:induction false} GridRowsRoundTrip(n: nat, rows: seq<seq<Option<seq<byte>>>>, rest: seq<byte>)
    requires forall row :: row in rows ==> FitsCells(row) && |row| == n
    ensures ReadMany(RowReader(n), |rows|, EncMany(EncRow, rows) + rest) == Got(GridValues(rows), rest)
  {
    if rows == [] {
      assert EncMany(EncRow, rows) + rest == rest;
    } else {
      assert rows[0] in rows;
      Assoc(EncRow(rows[0]), EncMany(EncRow, rows[1..]), rest);
      RowRoundTrip(rows[0], EncMany(EncRow, rows[1..]) + rest);
      GridRowsRoundTrip(n, rows[1..], rest);
    }
  }

  lemma {:induction false} RowValuesAt(row: seq<Option<seq<byte>>>, j: nat)
    requires j < |row|
    ensures RowValues(row)[j] == CellValue(row[j])
  {
    if j > 0 {
      RowValuesAt(row[1..], j - 1);
    }
  }

  /** The grid kept by the client has the shape of the one sent, cell for cell. */
  lemma {:induction false} GridValuesAt(rows: seq<seq<Option<seq<byte>>>>, i: nat, j: nat)
    requires i < |rows| && j < |rows[i]|
    ensures |GridValues(rows)[i]| == |rows[i]| && GridValues(rows)[i][j] == CellValue(rows[i][j])
  {
    if i == 0 {
      RowValuesAt(rows[0], j);
    } else {
      GridValuesAt(rows[1..], i - 1, j);
    }
  }

  lemma GridRoundTrip(r: RowsResult, rest: seq<byte>)
    requires FitsRows(r)
    ensures ReadGrid(ColumnsCount(r.meta), EncGrid(r) + rest) == Got(GridValues(r.rows), rest)
  {
    var cells := EncMany(EncRow, r.rows);
    Assoc(EncI32(|r.rows|), cells, rest);
    I32RoundTrip(|r.rows|, cells + rest);
    GridRowsRoundTrip(ColumnsCount(r.meta), r.rows, rest);
  }

  /** For every metadata shape, every nesting of column types and every grid of cells, parsing the
      protocol's encoding yields the same flags, paging state, table specification and types and
      exactly the grid sent, and stops exactly where the encoding ends. */
  lemma RowsRoundTrip(r: RowsResult, rest: seq<byte>)
    requires FitsRows(r)
    ensures ReadRows(EncRows(r) + rest) == Got(RowKind(HeadOf(r), SpecOf(r.meta), |r.rows|, GridValues(r.rows)), rest)
  {
    FlagsMeaning(r);
    hide ReadRowsSpec, ReadGrid, EncMetadata, EncGrid, FlagsOf;
    Assoc4(EncRowsHead(r), EncMetadata(r.meta), EncGrid(r), rest);
    HeadRoundTrip(FlagsOf(r), ColumnsCount(r.meta), r.paging, EncMetadata(r.meta) + (EncGrid(r) + rest));
    RowsSpecRoundTrip(r.meta, HeadOf(r), EncGrid(r) + rest);
    GridRoundTrip(r, rest);
  }

  // ----- Prepared results -----

  datatype PreparedKind = PreparedKind(id: seq<byte>, flags: int, columnCount: int, partitionKeys: seq<int>, spec: TableSpec)

  /** A `std::vector<Short>`: an [int] count and that many [short]s. */
  function ReadShorts(b: seq<byte>): Read<seq<int>> {
    var (n, b1) :- ReadI32(b);
    if n < 0 then Malformed else ReadMany(ReadU16, n, b1)
  }

  function ReadPreparedHead(b: seq<byte>): Read<(seq<byte>, int, int)> {
    var (id, b1) :- ReadString(b);
    var (flags, b2) :- ReadI32(b1);
    var (n, b3) :- ReadI32(b2);
    Got((id, flags, n), b3)
  }

  function ReadPrepared(b: seq<byte>): Read<PreparedKind> {
    var (head, b1) :- ReadPreparedHead(b);
    var (keys, b2) :- ReadShorts(b1);
    var (spec, b3) :- ReadTableSpec(GlobalTableSpec(head.1), if head.2 < 0 then 0 else head.2, b2);
    Got(PreparedKind(head.0, head.1, head.2, keys, spec), b3)
  }

  predicate FitsPrepared(p: PreparedKind) {
    && FitsShort(p.id)
    && (p.flags == 0 || p.flags == 1)
    && p.columnCount == |p.spec.columns| < INT_LIMIT
    && |p.partitionKeys| < INT_LIMIT && (forall k :: k in p.partitionKeys ==> 0 <= k < SHORT_LIMIT)
    && FitsSpec(p.flags == 1, p.spec)
  }

  function EncPreparedHead(p: PreparedKind): seq<byte>
    requires FitsPrepared(p)
  {
    EncString(p.id) + (EncI32(p.flags) + EncI32(p.columnCount))
  }

  function EncShorts(keys: seq<int>): seq<byte>
    requires |keys| < INT_LIMIT && forall k :: k in keys ==> 0 <= k < SHORT_LIMIT
  {
    EncI32(|keys|) + EncMany(EncU16, keys)
  }

  /** The prefix of a section 4.2.5.4 body that the client reads; the result metadata follows it. */
  function EncPrepared(p: PreparedKind): seq<byte>
    requires FitsPrepared(p)
  {
    EncPreparedHead(p) + (EncShorts(p.partitionKeys) + EncTableSpec(p.flags == 1, p.spec))
  }

  lemma ShortsRoundTrip(keys: seq<int>, rest: seq<byte>)
    requires |keys| < INT_LIMIT && forall k :: k in keys ==> 0 <= k < SHORT_LIMIT
    ensures ReadShorts(EncShorts(keys) + rest) == Got(keys, rest)
  {
    Assoc(EncI32(|keys|), EncMany(EncU16, keys), rest);
    I32RoundTrip(|keys|, EncMany(EncU16, keys) + rest);
    forall k, tail | k in keys ensures ReadU16(EncU16(k) + tail) == Got(k, tail) {
      U16RoundTrip(k, tail);
    }
    ManyRoundTrip(EncU16, ReadU16, keys, rest);
  }

  lemma PreparedHeadRoundTrip(p: PreparedKind, rest: seq<byte>)
    requires FitsPrepared(p)
    ensures ReadPreparedHead(EncPreparedHead(p) + rest) == Got((p.id, p.flags, p.columnCount), rest)
  {
    Assoc4(EncString(p.id), EncI32(p.flags), EncI32(p.columnCount), rest);
    StringRoundTrip(p.id, EncI32(p.flags) + (EncI32(p.columnCount) + rest));
    I32RoundTrip(p.flags, EncI32(p.columnCount) + rest);
    I32RoundTrip(p.columnCount, rest);
  }

  /** The statement id, the bind columns with their types and the partition key are read back
      whatever result metadata follows. */
  lemma PreparedRoundTrip(p: PreparedKind, rest: seq<byte>)
    requires FitsPrepared(p)
    ensures ReadPrepared(EncPrepared(p) + rest) == Got(p, rest)
  {
    var global := p.flags == 1;
    Assoc4(EncPreparedHead(p), EncShorts(p.partitionKeys), EncTableSpec(global, p.spec), rest);
    PreparedHeadRoundTrip(p, EncShorts(p.partitionKeys) + (EncTableSpec(global, p.spec) + rest));
    ShortsRoundTrip(p.partitionKeys, EncTableSpec(global, p.spec) + rest);
    TableSpecRoundTrip(global, p.spec, rest);
  }

  // ----- the parsing methods -----

  method ParseResultColumn(reader: BufferReader, global: bool) returns (r: Option<Column>)
    requires reader.Valid()
    modifies reader`offset
    ensures reader.Valid() && Agrees(r, ReadColumn(global, old(reader.Rest())), reader.Rest())
  {
    var ks, table := [], [];
    if !global {
      ks :- reader.ReadText();
      table :- reader.ReadText();
    }
    var name :- reader.ReadText();
    var t :- ParseColumnOption(reader);
    r := Some(Column(ks, table, name, t));
  }

  method ParseColumns(reader: BufferReader, global: bool, count: nat) returns (r: Option<seq<Column>>)
    requires reader.Valid()
    modifies reader`offset
    ensures reader.Valid() && Agrees(r, ReadMany(ColumnReader(global), count, old(reader.Rest())), reader.Rest())
  {
    ghost var start := reader.Rest();
    var columns: seq<Column> := [];
    for i := 0 to count
      invariant reader.Valid() && ReadMany(ColumnReader(global), i, start) == Got(columns, reader.Rest())
    {
      ManyStep(ColumnReader(global), i, count, start);
      var c :- ParseResultColumn(reader, global);
      columns := columns + [c];
    }
    return Some(columns);
  }

  method ParseTableSpec(reader: BufferReader, global: bool, count: nat) returns (r: Option<TableSpec>)
    requires reader.Valid()
    modifies reader`offset
    ensures reader.Valid() && Agrees(r, ReadTableSpec(global, count, old(reader.Rest())), reader.Rest())
  {
    var ks, table := [], [];
    if global {
      ks :- reader.ReadText();
      table :- reader.ReadText();
    }
    var columns :- ParseColumns(reader, global, count);
    r := Some(TableSpec(ks, table, columns));
  }

  method ParseRow(reader: BufferReader, columnsCount: int) returns (r: Option<seq<seq<byte>>>)
    requires reader.Valid()
    modifies reader`offset
    ensures reader.Valid() && Agrees(r, ReadRow(columnsCount, old(reader.Rest())), reader.Rest())
  {
    ghost var start := reader.Rest();
    var n: nat := if columnsCount < 0 then 0 else columnsCount;    // a negative count makes no turn
    var row: seq<seq<byte>> := [];
    for j := 0 to n
      invariant reader.Valid() && ReadMany(ReadBytes, j, start) == Got(row, reader.Rest())
    {
      ManyStep(ReadBytes, j, n, start);
      var cell :- reader.ReadCell();
      row := row + [cell];
    }
    return Some(row);
  }

  method ParseGrid(reader: BufferReader, columnsCount: int) returns (r: Option<seq<seq<seq<byte>>>>)
    requires reader.Valid()
    modifies reader`offset
    ensures reader.Valid() && Agrees(r, ReadGrid(columnsCount, old(reader.Rest())), reader.Rest())
  {
    var count :- reader.ReadInt();
    if count < 0 { return None; }
    ghost var start := reader.Rest();
    var rows: seq<seq<seq<byte>>> := [];
    for i := 0 to count
      invariant reader.Valid() && ReadMany(RowReader(columnsCount), i, start) == Got(rows, reader.Rest())
    {
      ManyStep(RowReader(columnsCount), i, count, start);
      var row :- ParseRow(reader, columnsCount);
      rows := rows + [row];
    }
    return Some(rows);
  }

  method ParseRowsHead(reader: BufferReader) returns (r: Option<RowsHead>)
    requires reader.Valid()
    modifies reader`offset
    ensures reader.Valid() && Agrees(r, ReadRowsHead(old(reader.Rest())), reader.Rest())
  {
    var flags :- reader.ReadInt();
    var count :- reader.ReadInt();
    var paging := [];
    if HasMorePages(flags) {
      paging :- reader.ReadCell();
    }
    r := Some(RowsHead(flags, count, paging));
  }

  method ParseRows(reader: BufferReader) returns (r: Option<RowKind>)
    requires reader.Valid()
    modifies reader`offset
    ensures reader.Valid() && Agrees(r, ReadRows(old(reader.Rest())), reader.Rest())
  {
    var head :- ParseRowsHead(reader);
    var spec := TableSpec([], [], []);
    if !NoMetadata(head.flags) {
      if head.columnsCount < 0 { return None; }
      spec :- ParseTableSpec(reader, GlobalTableSpec(head.flags), head.columnsCount);
    }
    var rows :- ParseGrid(reader, head.columnsCount);
    r := Some(RowKind(head, spec, |rows|, rows));
  }

  method ParseShorts(reader: BufferReader) returns (r: Option<seq<int>>)
    requires reader.Valid()
    modifies reader`offset
    ensures reader.Valid() && Agrees(r, ReadShorts(old(reader.Rest())), reader.Rest())
  {
    var count :- reader.ReadInt();
    if count < 0 { return None; }
    ghost var start := reader.Rest();
    var keys: seq<int> := [];
    for i := 0 to count
      invariant reader.Valid() && ReadMany(ReadU16, i, start) == Got(keys, reader.Rest())
    {
      ManyStep(ReadU16, i, count, start);
      var k :- reader.ReadShort();
      keys := keys + [k];
    }
    return Some(keys);
  }

  method ParsePrepared(reader: BufferReader) returns (r: Option<PreparedKind>)
    requires reader.Valid()
    modifies reader`offset
    ensures reader.Valid() && Agrees(r, ReadPrepared(old(reader.Rest())), reader.Rest())
  {
    var id :- reader.ReadText();
    var flags :- reader.ReadInt();
    var count :- reader.ReadInt();
    var keys :- ParseShorts(reader);
    var spec :- ParseTableSpec(reader, GlobalTableSpec(flags), if count < 0 then 0 else count);
    r := Some(PreparedKind(id, flags, count, keys, spec));
  }
}
