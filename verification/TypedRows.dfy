/** C++ values as bound parameters and as extracted rows: StaticQueryParameters and
    DynamicQueryParameters (query_parameters.hpp), the [bytes] forms of integers and strings
    (integral_types.hpp, string_types.hpp), `Row::To`/`ExtractTuple` (row.hpp) and
    `ResultSet::AsContainer` (result_set.hpp). A row type is the list of its column kinds. */
module TypedRows {
  import opened Bytes
  import opened BufferIO
  import opened Frames
  import R = Results
  import Req = Requests
  import Resp = Responses

  datatype Kind = SmallIntKind | IntKind | BigIntKind | TextKind
  datatype Value = SmallInt(n: int) | Int(n: int) | BigInt(n: int) | Str(s: seq<byte>)

  predicate HasKind(v: Value, k: Kind) {
    match k
    case SmallIntKind => v.SmallInt? && -0x8000 <= v.n < 0x8000
    case IntKind => v.Int? && -INT_LIMIT <= v.n < INT_LIMIT
    case BigIntKind => v.BigInt? && -LONG_LIMIT <= v.n < LONG_LIMIT
    case TextKind => v.Str? && |v.s| < INT_LIMIT
  }

  predicate InRange(v: Value) { exists k :: HasKind(v, k) }

  predicate Bindable(row: seq<Value>) { forall v :: v in row ==> InRange(v) }

  predicate RowOf(row: seq<Value>, kinds: seq<Kind>) {
    |row| == |kinds| && forall j :: 0 <= j < |row| ==> HasKind(row[j], kinds[j])
  }

  /** The cell a value is formatted into. */
  function CellOf(v: Value): (c: seq<byte>)
    requires InRange(v)
    ensures |c| < INT_LIMIT
  {
    match v
    case SmallInt(n) => EncI16(n)
    case Int(n) => EncI32(n)
    case BigInt(n) => EncI64(n)
    case Str(s) => s
  }

  function Strip<T>(r: Read<T>): Option<T> {
    match r
    case Malformed => None
    case Got(x, _) => Some(x)
  }

  /** Reading a whole cell as a value of kind `k`; a cell too short for an integer throws. */
  function ValueOf(k: Kind, cell: seq<byte>): Option<Value> {
    match k
    case SmallIntKind => var n :- Strip(ReadI16(cell)); Some(SmallInt(n))
    case IntKind => var n :- Strip(ReadI32(cell)); Some(Int(n))
    case BigIntKind => var n :- Strip(ReadI64(cell)); Some(BigInt(n))
    case TextKind => Some(Str(cell))
  }

  lemma CellRoundTrip(v: Value, k: Kind)
    requires HasKind(v, k)
    ensures ValueOf(k, CellOf(v)) == Some(v)
  {
    assert CellOf(v) + [] == CellOf(v);
    match k {
      case SmallIntKind => I16RoundTrip(v.n, []);
      case IntKind => I32RoundTrip(v.n, []);
      case BigIntKind => I64RoundTrip(v.n, []);
      case TextKind =>
    }
  }

  // ----- parameters -----

  function CellsOf(row: seq<Value>): (cells: seq<seq<byte>>)
    requires Bindable(row)
    ensures |cells| == |row| && Req.Values(cells)
  {
    if row == [] then []
    else
      var rest := CellsOf(row[1..]);
      assert forall c :: c in rest ==> Req.FitsInt(c);
      [CellOf(row[0])] + rest
  }

  lemma {:induction false} CellsAt(row: seq<Value>, j: nat)
    requires j < |row| && Bindable(row)
    ensures CellsOf(row)[j] == CellOf(row[j])
  {
    if j > 0 {
      CellsAt(row[1..], j - 1);
    }
  }

  /** Values of the right kinds can be bound. */
  lemma RowOfIsBindable(row: seq<Value>, kinds: seq<Kind>)
    requires RowOf(row, kinds)
    ensures Bindable(row)
  {
    forall v | v in row ensures InRange(v) {
      var j :| 0 <= j < |row| && row[j] == v;
      assert HasKind(v, kinds[j]);
    }
  }

  /** What writing a value into a parameter slot leaves there: an integer is appended to the bytes
      already in the slot, a string replaces them. */
  function Bound(slot: seq<byte>, v: Value): seq<byte>
    requires InRange(v)
  {
    if v.Str? then v.s else slot + CellOf(v)
  }

  /** So a slot carries the value written to it exactly when it was empty or the value is a string:
      writing integers into a parameter holder a second time sends the earlier bytes as well. */
  lemma BoundExact(slot: seq<byte>, v: Value)
    requires InRange(v)
    ensures Bound(slot, v) == CellOf(v) <==> v.Str? || slot == []
  {
    if !v.Str? && slot != [] {
      assert |Bound(slot, v)| > |CellOf(v)|;
    }
  }

  /** `std::vector::resize`. */
  function Resized(args: seq<seq<byte>>, n: nat): (r: seq<seq<byte>>)
    ensures |r| == n && forall i :: 0 <= i < n ==> r[i] == if i < |args| then args[i] else []
  {
    seq(n, i requires 0 <= i < n => if i < |args| then args[i] else [])
  }

  class DynamicQueryParameters {
    var args: seq<seq<byte>>

    constructor ()
      ensures args == []
    {
      args := [];
    }

    /** `Write(index, arg)`. */
    method WriteAt(index: nat, v: Value)
      requires index < |args| && InRange(v)
      modifies this
      ensures args == old(args)[index := if v.Str? then v.s else old(args)[index] + CellOf(v)]
    {
      if v.Str? {
        args := args[index := v.s];
      } else {
        args := args[index := args[index] + CellOf(v)];
      }
    }

    /** `Write(args...)`: the argument pack in order with a running index. */
    method Write(row: seq<Value>)
      requires Bindable(row)
      modifies this
      ensures |args| == |row|
      ensures forall i :: 0 <= i < |row| ==> args[i] == Bound(Resized(old(args), |row|)[i], row[i])
      ensures old(args) == [] ==> args == CellsOf(row)
    {
      args := Resized(args, |row|);
      var index := 0;
      while index < |row|
        invariant 0 <= index <= |row| == |args|
        invariant forall i :: 0 <= i < |row| ==>
                    args[i] == if i < index then Bound(Resized(old(args), |row|)[i], row[i]) else Resized(old(args), |row|)[i]
      {
        WriteAt(index, row[index]);
        index := index + 1;
      }
      if old(args) == [] {
        forall i | 0 <= i < |row| ensures args[i] == CellsOf(row)[i] {
          CellsAt(row, i);
          BoundExact([], row[i]);
        }
        assert args == CellsOf(row);
      }
    }
  }

  // ----- extraction -----

  /** `ExtractTuple`: the first columns of the row, one per kind; `None` is an exception. */
  function Extract(kinds: seq<Kind>, cells: seq<seq<byte>>): (r: Option<seq<Value>>)
    requires |kinds| <= |cells|
    ensures r.Some? ==> |r.value| == |kinds|
  {
    if kinds == [] then Some([])
    else
      var v :- ValueOf(kinds[0], cells[0]);
      var vs :- Extract(kinds[1..], cells[1..]);
      Some([v] + vs)
  }

  /** `Row::To`: a row with fewer columns than the type has members is an error. */
  function RowTo(kinds: seq<Kind>, columnsCount: int, cells: seq<seq<byte>>): Option<seq<Value>>
    requires columnsCount == |cells|
  {
    if |kinds| > columnsCount then None else Extract(kinds, cells)
  }

  function AsContainer(kinds: seq<Kind>, columnsCount: int, grid: seq<seq<seq<byte>>>): Option<seq<seq<Value>>>
    requires forall row :: row in grid ==> |row| == columnsCount
  {
    if grid == [] then Some([])
    else
      var first :- RowTo(kinds, columnsCount, grid[0]);
      var rest :- AsContainer(kinds, columnsCount, grid[1..]);
      Some([first] + rest)
  }

  /** Columns beyond those of the row type do not disturb the extraction. */
  lemma {:induction false} ExtractCells(row: seq<Value>, kinds: seq<Kind>, extra: seq<seq<byte>>)
    requires RowOf(row, kinds) && Bindable(row)
    ensures Extract(kinds, CellsOf(row) + extra) == Some(row)
  {
    if row != [] {
      var cells := CellsOf(row) + extra;
      assert cells[0] == CellOf(row[0]) && cells[1..] == CellsOf(row[1..]) + extra;
      CellRoundTrip(row[0], kinds[0]);
      hide CellOf, ValueOf, HasKind;
      ExtractCells(row[1..], kinds[1..], extra);
      assert row == [row[0]] + row[1..];
    }
  }

  /** Extraction succeeds exactly when every column the type asks for holds a value of its kind, and then
      gives these values in order. */
  lemma {:induction false} ExtractAt(kinds: seq<Kind>, cells: seq<seq<byte>>)
    requires |kinds| <= |cells|
    ensures var r := Extract(kinds, cells);
            && (r.Some? <==> forall j :: 0 <= j < |kinds| ==> ValueOf(kinds[j], cells[j]).Some?)
            && (r.Some? ==> forall j :: 0 <= j < |kinds| ==> ValueOf(kinds[j], cells[j]) == Some(r.value[j]))
  {
    hide ValueOf;
    if kinds != [] {
      ExtractAt(kinds[1..], cells[1..]);
      assert forall j :: 0 < j < |kinds| ==> kinds[j] == kinds[1..][j - 1] && cells[j] == cells[1..][j - 1];
      assert forall j :: 0 <= j < |kinds| - 1 ==> kinds[j + 1] == kinds[1..][j] && cells[j + 1] == cells[1..][j];
    }
  }

  /** A row narrower than its type is an error; of a wider one the first columns are taken. */
  lemma RowToExact(kinds: seq<Kind>, cells: seq<seq<byte>>)
    ensures |cells| < |kinds| ==> RowTo(kinds, |cells|, cells) == None
    ensures |kinds| <= |cells| ==>
              var r := RowTo(kinds, |cells|, cells);
              && (r.Some? <==> forall j :: 0 <= j < |kinds| ==> ValueOf(kinds[j], cells[j]).Some?)
              && (r.Some? ==> |r.value| == |kinds| && forall j :: 0 <= j < |kinds| ==> ValueOf(kinds[j], cells[j]) == Some(r.value[j]))
  {
    if |kinds| <= |cells| {
      ExtractAt(kinds, cells);
    }
  }

  /** So a row of values comes back from its cells whatever columns follow them. */
  lemma WiderRow(row: seq<Value>, kinds: seq<Kind>, extra: seq<seq<byte>>)
    requires RowOf(row, kinds) && Bindable(row)
    ensures RowTo(kinds, |row| + |extra|, CellsOf(row) + extra) == Some(row)
  {
    ExtractCells(row, kinds, extra);
  }

  /** A null (or empty) cell: an error in an integer column, the empty string in a text column. */
  lemma NullCell(k: Kind)
    ensures ValueOf(k, R.CellValue(None)) == if k == TextKind then Some(Str([])) else None
  {
  }

  method ExtractTuple(kinds: seq<Kind>, cells: seq<seq<byte>>) returns (r: Option<seq<Value>>)
    requires |kinds| <= |cells|
    ensures r == Extract(kinds, cells)
  {
    var values: seq<Value> := [];
    var columnIndex := 0;
    assert kinds[0..] == kinds && cells[0..] == cells;
    assert Extract(kinds, cells).Some? ==> [] + Extract(kinds, cells).value == Extract(kinds, cells).value;
    while columnIndex < |kinds|
      invariant 0 <= columnIndex <= |kinds| && |values| == columnIndex
      invariant Extract(kinds, cells) == Prepend(values, Extract(kinds[columnIndex..], cells[columnIndex..]))
    {
      var v :- ValueOf(kinds[columnIndex], cells[columnIndex]);
      PrependStep(values, v, kinds[columnIndex..], cells[columnIndex..]);
      assert kinds[columnIndex..][1..] == kinds[columnIndex + 1..];
      assert cells[columnIndex..][1..] == cells[columnIndex + 1..];
      values := values + [v];
      columnIndex := columnIndex + 1;
    }
    assert values + [] == values;
    return Some(values);
  }

  function Prepend<T>(xs: seq<T>, r: Option<seq<T>>): Option<seq<T>> {
    if r.None? then None else Some(xs + r.value)
  }

  lemma PrependStep(values: seq<Value>, v: Value, kinds: seq<Kind>, cells: seq<seq<byte>>)
    requires 0 < |kinds| <= |cells| && ValueOf(kinds[0], cells[0]) == Some(v)
    ensures Prepend(values, Extract(kinds, cells)) == Prepend(values + [v], Extract(kinds[1..], cells[1..]))
  {
    match Extract(kinds[1..], cells[1..]) {
      case None =>
      case Some(vs) => assert values + ([v] + vs) == (values + [v]) + vs;
    }
  }

  // ----- from parameters to extracted rows -----

  /** The rows a table holds after each of `rows` was inserted with its values as parameters. */
  function Stored(rows: seq<seq<seq<byte>>>): (cells: seq<seq<Option<seq<byte>>>>)
    ensures |cells| == |rows|
  {
    if rows == [] then [] else [Present(rows[0])] + Stored(rows[1..])
  }

  function Present(row: seq<seq<byte>>): (cells: seq<Option<seq<byte>>>)
    ensures |cells| == |row|
  {
    if row == [] then [] else [Some(row[0])] + Present(row[1..])
  }

  lemma {:induction false} PresentValues(row: seq<seq<byte>>)
    requires Req.Values(row)
    ensures R.RowValues(Present(row)) == row && R.FitsCells(Present(row))
  {
    if row != [] {
      assert forall v :: v in row[1..] ==> v in row;
      PresentValues(row[1..]);
      assert row[0] in row && Req.FitsInt(row[0]);
      forall c | c in Present(row) ensures R.FitsCell(c) {
        assert c == Some(row[0]) || c in Present(row[1..]);
      }
    }
  }

  predicate TypedRow(kinds: seq<Kind>, row: seq<Value>) { RowOf(row, kinds) }

  function ParamRows(kinds: seq<Kind>, rows: seq<seq<Value>>): (ps: seq<seq<seq<byte>>>)
    requires forall i :: 0 <= i < |rows| ==> TypedRow(kinds, rows[i])
    ensures |ps| == |rows|
    ensures forall i :: 0 <= i < |rows| ==> |ps[i]| == |kinds| && Req.Values(ps[i])
  {
    if rows == [] then []
    else
      assert TypedRow(kinds, rows[0]);
      RowOfIsBindable(rows[0], kinds);
      [CellsOf(rows[0])] + ParamRows(kinds, rows[1..])
  }

  lemma {:induction false} StoredRows(n: nat, ps: seq<seq<seq<byte>>>)
    requires forall i :: 0 <= i < |ps| ==> |ps[i]| == n && Req.Values(ps[i])
    ensures R.GridValues(Stored(ps)) == ps
    ensures forall row :: row in Stored(ps) ==> R.FitsCells(row) && |row| == n
  {
    if ps != [] {
      PresentValues(ps[0]);
      StoredRows(n, ps[1..]);
      assert ps == [ps[0]] + ps[1..];
      forall row | row in Stored(ps) ensures R.FitsCells(row) && |row| == n {
        assert row == Present(ps[0]) || row in Stored(ps[1..]);
      }
    }
  }

  lemma {:induction false} ContainerOfParams(kinds: seq<Kind>, rows: seq<seq<Value>>)
    requires forall i :: 0 <= i < |rows| ==> TypedRow(kinds, rows[i])
    ensures var ps := ParamRows(kinds, rows);
            && (forall row :: row in ps ==> |row| == |kinds|)
            && AsContainer(kinds, |kinds|, ps) == Some(rows)
  {
    hide TypedRow, CellsOf, RowTo, Bindable;
    if rows != [] {
      FirstRow(kinds, rows[0]);
      ContainerOfParams(kinds, rows[1..]);
      ContainerStep(kinds, CellsOf(rows[0]), ParamRows(kinds, rows[1..]), rows[0], rows[1..]);
      assert rows == [rows[0]] + rows[1..];
    }
  }

  lemma ContainerStep(kinds: seq<Kind>, cells: seq<seq<byte>>, grid: seq<seq<seq<byte>>>, row: seq<Value>, rows: seq<seq<Value>>)
    requires |cells| == |kinds| && RowTo(kinds, |kinds|, cells) == Some(row)
    requires (forall r :: r in grid ==> |r| == |kinds|) && AsContainer(kinds, |kinds|, grid) == Some(rows)
    ensures AsContainer(kinds, |kinds|, [cells] + grid) == Some([row] + rows)
  {
    hide RowTo;
    assert ([cells] + grid)[1..] == grid;
  }

  lemma FirstRow(kinds: seq<Kind>, row: seq<Value>)
    requires TypedRow(kinds, row)
    ensures Bindable(row) && |CellsOf(row)| == |kinds| && RowTo(kinds, |kinds|, CellsOf(row)) == Some(row)
  {
    RowOfIsBindable(row, kinds);
    ExtractCells(row, kinds, []);
    assert CellsOf(row) + [] == CellsOf(row);
  }

  /** The response carrying the stored rows, under any column metadata of the right width. */
  function SelectReply(meta: R.Metadata, paging: Option<seq<byte>>, ps: seq<seq<seq<byte>>>): Resp.Reply {
    Resp.RowsReply(R.RowsResult(meta, paging, Stored(ps)))
  }

  /** Values bound as parameters, stored as sent and returned as [bytes] cells of a Rows result come
      back from the response frame as the same rows in the same order, for every list of rows, every
      row type, every metadata shape and with or without compression. */
  lemma RowsComeBack(kinds: seq<Kind>, rows: seq<seq<Value>>, meta: R.Metadata, paging: Option<seq<byte>>,
                     lz: Option<Lz4>, stream: int, rest: seq<byte>)
    requires forall i :: 0 <= i < |rows| ==> TypedRow(kinds, rows[i])
    requires R.ColumnsCount(meta) == |kinds| && Usable(lz)
    requires Resp.FitsOnWire(lz, (stream, SelectReply(meta, paging, ParamRows(kinds, rows))))
    ensures var reply := (stream, SelectReply(meta, paging, ParamRows(kinds, rows)));
            var got := Resp.ReadFrame(lz, EncFrame(Resp.ReplyFrame(lz, reply)) + rest);
            && got.Got? && got.rest == rest && got.value.0 == stream && got.value.1.Rows?
            && var kept := got.value.1.rows;
               && kept.head.columnsCount == |kinds| && kept.rowsCount == |rows|
               && (forall row :: row in kept.rows ==> |row| == |kinds|)
               && AsContainer(kinds, kept.head.columnsCount, kept.rows) == Some(rows)
  {
    hide *;
    var ps := ParamRows(kinds, rows);
    Resp.ReplyFrameRead(lz, (stream, SelectReply(meta, paging, ps)), rest);
    OnWireFits(lz, (stream, SelectReply(meta, paging, ps)));
    SelectMeaning(meta, paging, ps);
    KeptRows(kinds, rows);
  }

  lemma OnWireFits(lz: Option<Lz4>, x: (int, Resp.Reply))
    requires Resp.FitsOnWire(lz, x)
    ensures Resp.FitsReply(x.1)
  {
    hide Resp.EncReply, Resp.FitsReply, Packed;
  }

  /** What the client keeps of the reply. */
  lemma SelectMeaning(meta: R.Metadata, paging: Option<seq<byte>>, ps: seq<seq<seq<byte>>>)
    requires Resp.FitsReply(SelectReply(meta, paging, ps))
    ensures var m := Resp.Meaning(SelectReply(meta, paging, ps));
            && m.Rows? && m.rows.head.columnsCount == R.ColumnsCount(meta) && m.rows.rowsCount == |ps|
            && m.rows.rows == R.GridValues(Stored(ps))
  {
    hide Resp.FitsReply, Resp.Meaning, Stored, R.GridValues, R.FlagsOf, R.SpecOf;
    Resp.RowsMeaning(R.RowsResult(meta, paging, Stored(ps)));
  }

  lemma KeptRows(kinds: seq<Kind>, rows: seq<seq<Value>>)
    requires forall i :: 0 <= i < |rows| ==> TypedRow(kinds, rows[i])
    ensures var ps := ParamRows(kinds, rows);
            && |ps| == |rows| && R.GridValues(Stored(ps)) == ps
            && (forall row :: row in ps ==> |row| == |kinds|)
            && AsContainer(kinds, |kinds|, ps) == Some(rows)
  {
    var ps := ParamRows(kinds, rows);
    hide TypedRow, ParamRows, Stored, R.GridValues, AsContainer;
    StoredRows(|kinds|, ps);
    ContainerOfParams(kinds, rows);
  }
}
