/**
 * `execute_sqlx` of src/app/connection/posgres.rs: the rows of a query
 * result turned into text, one cell list per row, with the column names of
 * the first row that has columns as headers.
 *
 * The row stream is given as the rows it yields, in order, and whether it
 * then ends or fails with a driver error. The array writer it calls for
 * Array columns is not part of this model; it is the `writeArray` oracle.
 */
module Posgres {
  import opened Wrappers
  import Utf8
  import opened Types
  import Connection

  /** A column of a fetched row, with the row's value in it. */
  datatype Field = Field(name: string, typeInfo: TypeInfo, value: Value)

  type Row = seq<Field>

  const NotSupported: string := "not supported"

  /** The outcome of running a query. */
  datatype Fetch =
    | Fetched(headers: seq<string>, rows: seq<seq<string>>)
    | Failed(error: Connection.DbError)
    | Panicked(panic: Panic)

  /** The column names of a row, in column order. */
  function Names(row: Row): (names: seq<string>)
    ensures |names| == |row|
    ensures forall i :: 0 <= i < |row| ==> names[i] == row[i].name
  {
    seq(|row|, i requires 0 <= i < |row| => row[i].name)
  }

  /** An Enum value read as a str: its text when it is valid UTF-8, "not supported" when NULL or not text. */
  function EnumText(v: Value): (t: string)
    ensures v.Raw? && Utf8.Decode(v.bytes).Some? ==> t == Utf8.Decode(v.bytes).value
    ensures v.Null? || Utf8.Decode(v.bytes).None? ==> t == NotSupported
  {
    match v
    case Null => NotSupported
    case Raw(b) =>
      match Utf8.Decode(b)
      case Some(s) => s
      case None => NotSupported
  }

  /** The cells one column contributes, by the kind of its type. */
  function ColumnCells(w: Wire, f: Field): (r: Result<seq<string>, Panic>)
    ensures f.typeInfo.kind.Pseudo? || f.typeInfo.kind.Domain? || f.typeInfo.kind.Composite? || f.typeInfo.kind.Range?
      ==> r == Ok([NotSupported])
    ensures f.typeInfo.kind.Enum? ==> r == Ok([EnumText(f.value)])
    ensures !f.typeInfo.kind.Simple? && !f.typeInfo.kind.Array? ==> r.Ok? && |r.value| == 1
    ensures f.typeInfo.kind.Simple? ==> r == ScalarCells(w, f.typeInfo, f.value) && (r.Ok? ==> |r.value| <= 1)
  {
    match f.typeInfo.kind
    case Simple => ScalarCells(w, f.typeInfo, f.value)
    case Array(element) => Ok(w.writeArray(element, f.value))
    case Pseudo => Ok([NotSupported])
    case Domain(_) => Ok([NotSupported])
    case Composite(_) => Ok([NotSupported])
    case Enum(_) => Ok([EnumText(f.value)])
    case Range(_) => Ok([NotSupported])
  }

  /** Whether every column of the row gives its cells without panic. */
  predicate ColumnsOk(w: Wire, row: Row)
  {
    forall i :: 0 <= i < |row| ==> ColumnCells(w, row[i]).Ok?
  }

  /** The cells of a row: its columns' cells in column order, or the first panic. */
  function RowCells(w: Wire, row: Row): (r: Result<seq<string>, Panic>)
    decreases |row|
  {
    if row == [] then Ok([])
    else
      var n := |row| - 1;
      match RowCells(w, row[..n])
      case Err(p) => Err(p)
      case Ok(cells) => Appended(cells, ColumnCells(w, row[n]))
  }

  lemma {:induction false} RowCellsPanicStays(w: Wire, row: Row, i: nat)
    requires i <= |row| && RowCells(w, row[..i]).Err?
    ensures RowCells(w, row) == RowCells(w, row[..i])
    decreases |row|
  {
    if i < |row| {
      var n := |row| - 1;
      assert row[..n][..i] == row[..i];
      RowCellsPanicStays(w, row[..n], i);
    } else {
      assert row[..i] == row;
    }
  }

  /** A row gives its cells exactly when none of its columns panics. */
  lemma {:induction false} RowCellsOk(w: Wire, row: Row)
    ensures RowCells(w, row).Ok? <==> ColumnsOk(w, row)
    decreases |row|
  {
    if row != [] {
      var n := |row| - 1;
      RowCellsOk(w, row[..n]);
      assert forall i :: 0 <= i < n ==> row[..n][i] == row[i];
    }
  }

  /** A row without panic has at least one cell per non-Simple, non-Array column. */
  lemma {:induction false} RowCellsCount(w: Wire, row: Row)
    requires RowCells(w, row).Ok?
    requires forall i :: 0 <= i < |row| ==> !row[i].typeInfo.kind.Simple? && !row[i].typeInfo.kind.Array?
    ensures |RowCells(w, row).value| == |row|
    decreases |row|
  {
    if row != [] {
      var n := |row| - 1;
      RowCellsCount(w, row[..n]);
    }
  }

  /** `headers` before a row is handled, and after. */
  function NextHeaders(headers: seq<string>, row: Row): seq<string>
  {
    if headers == [] then Names(row) else headers
  }

  /** The headers after the given rows. */
  function Headers(rows: seq<Row>): seq<string>
    decreases |rows|
  {
    if rows == [] then [] else NextHeaders(Headers(rows[..|rows| - 1]), rows[|rows| - 1])
  }

  /** The headers are the column names of the first row that has columns. */
  lemma {:induction false} HeadersOfFirstRowWithColumns(rows: seq<Row>, j: nat)
    requires j < |rows| && |rows[j]| > 0
    requires forall m :: 0 <= m < j ==> |rows[m]| == 0
    ensures Headers(rows) == Names(rows[j])
    decreases |rows|
  {
    var n := |rows| - 1;
    if j < n {
      assert rows[..n][j] == rows[j];
      HeadersOfFirstRowWithColumns(rows[..n], j);
    } else {
      HeadersEmpty(rows[..n]);
    }
  }

  /** Rows without columns leave the headers empty; so does a result with no rows. */
  lemma {:induction false} HeadersEmpty(rows: seq<Row>)
    requires forall m :: 0 <= m < |rows| ==> |rows[m]| == 0
    ensures Headers(rows) == []
    decreases |rows|
  {
    if rows != [] {
      HeadersEmpty(rows[..|rows| - 1]);
    }
  }

  /** Once set, the headers are never reassigned by later rows. */
  lemma {:induction false} HeadersStable(rows: seq<Row>, m: nat)
    requires m <= |rows| && Headers(rows[..m]) != []
    ensures Headers(rows) == Headers(rows[..m])
    decreases |rows|
  {
    if m < |rows| {
      var n := |rows| - 1;
      assert rows[..n][..m] == rows[..m];
      HeadersStable(rows[..n], m);
    } else {
      assert rows[..m] == rows;
    }
  }

  /** Whether every row gives its cells without panic. */
  predicate RowsOk(w: Wire, rows: seq<Row>)
  {
    forall i :: 0 <= i < |rows| ==> RowCells(w, rows[i]).Ok?
  }

  /** The cell lists of the rows, in stream order, or the first panic. */
  function Table(w: Wire, rows: seq<Row>): (r: Result<seq<seq<string>>, Panic>)
    decreases |rows|
  {
    if rows == [] then Ok([])
    else
      var n := |rows| - 1;
      match Table(w, rows[..n])
      case Err(p) => Err(p)
      case Ok(t) =>
        match RowCells(w, rows[n])
        case Err(p) => Err(p)
        case Ok(cells) => Ok(t + [cells])
  }

  lemma {:induction false} TablePanicStays(w: Wire, rows: seq<Row>, i: nat)
    requires i <= |rows| && Table(w, rows[..i]).Err?
    ensures Table(w, rows) == Table(w, rows[..i])
    decreases |rows|
  {
    if i < |rows| {
      var n := |rows| - 1;
      assert rows[..n][..i] == rows[..i];
      TablePanicStays(w, rows[..n], i);
    } else {
      assert rows[..i] == rows;
    }
  }

  /** The table is read exactly when no row panics. */
  lemma {:induction false} TableOk(w: Wire, rows: seq<Row>)
    ensures Table(w, rows).Ok? <==> RowsOk(w, rows)
    decreases |rows|
  {
    if rows != [] {
      var n := |rows| - 1;
      TableOk(w, rows[..n]);
      assert forall i :: 0 <= i < n ==> rows[..n][i] == rows[i];
    }
  }

  /** Exactly one output row per fetched row, in the order the stream yields them. */
  lemma {:induction false} TableInStreamOrder(w: Wire, rows: seq<Row>)
    requires Table(w, rows).Ok?
    ensures |Table(w, rows).value| == |rows|
    ensures forall i :: 0 <= i < |rows| ==> RowCells(w, rows[i]).Ok? && Table(w, rows).value[i] == RowCells(w, rows[i]).value
    decreases |rows|
  {
    if rows != [] {
      var n := |rows| - 1;
      TableInStreamOrder(w, rows[..n]);
      forall i | 0 <= i < n ensures rows[..n][i] == rows[i] {}
    }
  }

  /** What `execute_sqlx` gives for a stream that yields `rows` and then ends, or fails with `failure`. */
  function ExecuteSpec(w: Wire, rows: seq<Row>, failure: Option<Connection.DbError>): (r: Fetch)
    ensures r.Panicked? <==> !RowsOk(w, rows)
    ensures r.Failed? <==> RowsOk(w, rows) && failure.Some?
    ensures r.Failed? ==> r.error == failure.value
    ensures r.Fetched? ==> failure.None? && |r.rows| == |rows| && r.headers == Headers(rows)
    ensures r.Fetched? ==> forall i :: 0 <= i < |rows| ==> r.rows[i] == RowCells(w, rows[i]).value
  {
    TableOk(w, rows);
    match Table(w, rows)
    case Err(p) => Panicked(p)
    case Ok(t) =>
      TableInStreamOrder(w, rows);
      if failure.Some? then Failed(failure.value) else Fetched(Headers(rows), t)
  }

  /** No rows: no headers and no data. */
  lemma NoRowsNoHeaders(w: Wire)
    ensures ExecuteSpec(w, [], None) == Fetched([], [])
  {
  }

  /** A stream error gives the error and none of the rows read before it. */
  lemma StreamErrorDropsRows(w: Wire, rows: seq<Row>, e: Connection.DbError)
    requires Table(w, rows).Ok?
    ensures ExecuteSpec(w, rows, Some(e)) == Failed(e)
  {
  }

  /**
   * What the database worker gets from `execute_sqlx`: the headers and
   * rows, the error it returns, or the panic that unwinds the worker.
   */
  function Outcome(f: Fetch): (o: Connection.QueryOutcome)
    ensures o.RowPanic? <==> f.Panicked?
    ensures f.Fetched? ==> o == Connection.Rows(f.headers, f.rows)
    ensures f.Failed? ==> o == Connection.QueryError(f.error)
  {
    match f
    case Fetched(headers, rows) => Connection.Rows(headers, rows)
    case Failed(e) => Connection.QueryError(e)
    case Panicked(_) => Connection.RowPanic
  }

  /**
   * The worker's side of a query: it panics exactly when some row fails
   * to read, gets the stream's error exactly when no row fails and the
   * stream errs, and otherwise gets every row's cells in stream order.
   */
  lemma ExecuteOutcome(w: Wire, rows: seq<Row>, failure: Option<Connection.DbError>)
    ensures var o := Outcome(ExecuteSpec(w, rows, failure));
      && (o.RowPanic? <==> !RowsOk(w, rows))
      && (o.QueryError? <==> RowsOk(w, rows) && failure.Some?)
      && (o.QueryError? ==> o.error == failure.value)
      && (o.Rows? ==>
            && o.headers == Headers(rows) && |o.rows| == |rows|
            && forall i :: 0 <= i < |rows| ==> o.rows[i] == RowCells(w, rows[i]).value)
  {
  }

  /**
   * An Execute on an open connection whose stream holds a row that fails
   * to read ends the worker: that request and every later one go
   * unanswered, and the registry stays as the earlier requests left it.
   */
  lemma FailingRowStopsWorker(c: Connection.Connections, earlier: seq<Connection.DbRequest>, earlierReplies: seq<Connection.DriverReply>,
                              q: Connection.DbRequest, d: Connection.DriverReply, w: Wire, rows: seq<Row>, failure: Option<Connection.DbError>,
                              later: seq<Connection.DbRequest>, laterReplies: seq<Connection.DriverReply>)
    requires |earlier| == |earlierReplies| && |later| == |laterReplies|
    requires Connection.Run(c, earlier, earlierReplies).running
    requires q.Execute? && Connection.KeyOf(q) in Connection.Run(c, earlier, earlierReplies).connections
    requires d.fetched == Outcome(ExecuteSpec(w, rows, failure)) && !RowsOk(w, rows)
    ensures var before := Connection.Run(c, earlier, earlierReplies);
      Connection.Run(c, earlier + [q] + later, earlierReplies + [d] + laterReplies)
        == Connection.Trace(before.responses, before.connections, false)
  {
    ExecuteOutcome(w, rows, failure);
    Connection.PanicStopsWorker(c, earlier, earlierReplies, q, d, later, laterReplies);
  }

  /** The row closure: take the headers from the row if there are none yet, then the cells column by column. */
  method MapRow(w: Wire, row: Row, headers: seq<string>) returns (headers': seq<string>, r: Result<seq<string>, Panic>)
    ensures headers' == NextHeaders(headers, row)
    ensures r == RowCells(w, row)
  {
    headers' := headers;
    if headers' == [] {
      headers' := Names(row);
    }
    var data: seq<string> := [];
    var i := 0;
    while i < |row|
      invariant 0 <= i <= |row|
      invariant RowCells(w, row[..i]) == Ok(data)
    {
      assert row[..i + 1][..i] == row[..i];
      var f := row[i];
      match f.typeInfo.kind {
        case Simple =>
          var written := WriteRowCell(w, f.typeInfo, f.value, data);
          if written.Err? {
            RowCellsPanicStays(w, row, i + 1);
            return headers', Err(written.error);
          }
          data := written.value;
        case Array(element) =>
          data := data + w.writeArray(element, f.value);
        case Pseudo =>
          data := data + [NotSupported];
        case Domain(_) =>
          data := data + [NotSupported];
        case Composite(_) =>
          data := data + [NotSupported];
        case Enum(_) =>
          match f.value {
            case Raw(b) =>
              match Utf8.Decode(b) {
                case Some(s) => data := data + [s];
                case None => data := data + [NotSupported];
              }
            case Null => data := data + [NotSupported];
          }
        case Range(_) =>
          data := data + [NotSupported];
      }
      i := i + 1;
    }
    assert row[..i] == row;
    r := Ok(data);
  }

  /** `execute_sqlx` over a stream: `while let Some(row) = rows.try_next()?` collects the rows. */
  method ExecuteSqlx(w: Wire, rows: seq<Row>, failure: Option<Connection.DbError>) returns (r: Fetch)
    ensures r == ExecuteSpec(w, rows, failure)
  {
    var headers: seq<string> := [];
    var data: seq<seq<string>> := [];
    var i := 0;
    while i < |rows|
      invariant 0 <= i <= |rows|
      invariant Table(w, rows[..i]) == Ok(data)
      invariant headers == Headers(rows[..i])
    {
      assert rows[..i + 1][..i] == rows[..i];
      var h, cells := MapRow(w, rows[i], headers);
      if cells.Err? {
        TablePanicStays(w, rows, i + 1);
        return Panicked(cells.error);
      }
      headers := h;
      data := data + [cells.value];
      i := i + 1;
    }
    assert rows[..i] == rows;
    if failure.Some? {
      return Failed(failure.value);
    }
    r := Fetched(headers, data);
  }
}
