/**
 * The absolute column widths the two table components compute before
 * turning them into percentages (`widths` in
 * src/components/execute_result_table.rs and src/components/snippets_table.rs):
 * every data cell and then every header raises its column's entry to its
 * length in bytes, read as a `u16`.
 */
module ColumnWidths {
  import Utf8

  /** `col.len() as u16`: the length in bytes, kept to its low 16 bits. */
  function Width16(col: string): (w: nat)
    ensures w < 65536
    ensures Utf8.ByteLen(col) < 65536 ==> w == Utf8.ByteLen(col)
  {
    Utf8.ByteLen(col) % 65536
  }

  function Max(a: nat, b: nat): nat
  {
    if a >= b then a else b
  }

  /** An entry of a widths vector, a missing one counting as 0. */
  function At(w: seq<nat>, c: nat): nat
  {
    if c < |w| then w[c] else 0
  }

  /** The width a row's cell gives column `c`, or 0 when the row is shorter. */
  function CellWidth(row: seq<string>, c: nat): nat
  {
    if c < |row| then Width16(row[c]) else 0
  }

  /** `update_widths`: add one entry when `i` is the length, then raise entry `i` to the cell's width. */
  function Update(w: seq<nat>, col: string, i: nat): (r: seq<nat>)
    requires i <= |w|
    ensures |r| == Max(|w|, i + 1)
    ensures r[i] == Max(At(w, i), Width16(col))
    ensures forall k :: 0 <= k < |w| && k != i ==> r[k] == w[k]
    ensures forall k :: 0 <= k < |w| ==> r[k] >= w[k]
  {
    var grown := if |w| <= i then w + [0] else w;
    if grown[i] < Width16(col) then grown[i := Width16(col)] else grown
  }

  /** The widths after the cells of one row, from index 0 upward. */
  function UpdateRow(w: seq<nat>, row: seq<string>): (r: seq<nat>)
    ensures |r| == Max(|w|, |row|)
    decreases |row|
  {
    if row == [] then w
    else
      var n := |row| - 1;
      Update(UpdateRow(w, row[..n]), row[n], n)
  }

  /** The widths after the rows, in order. */
  function UpdateRows(w: seq<nat>, rows: seq<seq<string>>): seq<nat>
    decreases |rows|
  {
    if rows == [] then w
    else
      var n := |rows| - 1;
      UpdateRow(UpdateRows(w, rows[..n]), rows[n])
  }

  /** The absolute widths: the data rows first, then the headers. */
  function AbsoluteWidths(headers: seq<string>, rows: seq<seq<string>>): seq<nat>
  {
    UpdateRow(UpdateRows([], rows), headers)
  }

  /** The length of the longest row. */
  function MaxRowLen(rows: seq<seq<string>>): nat
    decreases |rows|
  {
    if rows == [] then 0 else Max(MaxRowLen(rows[..|rows| - 1]), |rows[|rows| - 1]|)
  }

  /** The widest cell of column `c` over all rows. */
  function ColumnMax(rows: seq<seq<string>>, c: nat): nat
    decreases |rows|
  {
    if rows == [] then 0 else Max(ColumnMax(rows[..|rows| - 1], c), CellWidth(rows[|rows| - 1], c))
  }

  /** The column's maximum bounds every cell of the column and is 0 or one of them. */
  lemma {:induction false} ColumnMaxIsMaximum(rows: seq<seq<string>>, c: nat)
    ensures forall i :: 0 <= i < |rows| ==> CellWidth(rows[i], c) <= ColumnMax(rows, c)
    ensures ColumnMax(rows, c) == 0 || exists i :: 0 <= i < |rows| && ColumnMax(rows, c) == CellWidth(rows[i], c)
    decreases |rows|
  {
    if rows != [] {
      var n := |rows| - 1;
      ColumnMaxIsMaximum(rows[..n], c);
      forall i | 0 <= i < n ensures rows[..n][i] == rows[i] {}
      if ColumnMax(rows[..n], c) != 0 && ColumnMax(rows, c) == ColumnMax(rows[..n], c) {
        var i :| 0 <= i < n && ColumnMax(rows[..n], c) == CellWidth(rows[..n][i], c);
        assert ColumnMax(rows, c) == CellWidth(rows[i], c);
      }
    }
  }

  /** A row raises each entry to its own cell's width. */
  lemma {:induction false} UpdateRowPointwise(w: seq<nat>, row: seq<string>)
    ensures forall c :: 0 <= c < |UpdateRow(w, row)| ==> UpdateRow(w, row)[c] == Max(At(w, c), CellWidth(row, c))
    decreases |row|
  {
    if row != [] {
      var n := |row| - 1;
      UpdateRowPointwise(w, row[..n]);
      var prev := UpdateRow(w, row[..n]);
      forall c | 0 <= c < |UpdateRow(w, row)|
        ensures UpdateRow(w, row)[c] == Max(At(w, c), CellWidth(row, c))
      {
        if c < n {
          assert row[..n][c] == row[c];
        }
      }
    }
  }

  /** Past the longest row a column has no cells. */
  lemma {:induction false} ColumnMaxBeyond(rows: seq<seq<string>>, c: nat)
    requires c >= MaxRowLen(rows)
    ensures ColumnMax(rows, c) == 0
    decreases |rows|
  {
    if rows != [] {
      ColumnMaxBeyond(rows[..|rows| - 1], c);
    }
  }

  /** The rows raise each entry to the widest cell of its column. */
  lemma {:induction false} UpdateRowsPointwise(w: seq<nat>, rows: seq<seq<string>>)
    ensures |UpdateRows(w, rows)| == Max(|w|, MaxRowLen(rows))
    ensures forall c :: 0 <= c < |UpdateRows(w, rows)| ==> UpdateRows(w, rows)[c] == Max(At(w, c), ColumnMax(rows, c))
    decreases |rows|
  {
    if rows != [] {
      var n := |rows| - 1;
      var prev := UpdateRows(w, rows[..n]);
      UpdateRowsPointwise(w, rows[..n]);
      UpdateRowPointwise(prev, rows[n]);
      forall c | 0 <= c < |UpdateRows(w, rows)|
        ensures At(prev, c) == Max(At(w, c), ColumnMax(rows[..n], c))
      {
        if c >= |prev| {
          ColumnMaxBeyond(rows[..n], c);
        }
      }
    }
  }

  /**
   * One entry per column of the longest row or of the headers, whichever is
   * longer, and each entry is the widest of its column's cells and header.
   */
  lemma AbsoluteWidthsSpec(headers: seq<string>, rows: seq<seq<string>>)
    ensures |AbsoluteWidths(headers, rows)| == Max(|headers|, MaxRowLen(rows))
    ensures forall c :: 0 <= c < |AbsoluteWidths(headers, rows)| ==>
      AbsoluteWidths(headers, rows)[c] == Max(ColumnMax(rows, c), CellWidth(headers, c))
  {
    var data := UpdateRows([], rows);
    UpdateRowsPointwise([], rows);
    UpdateRowPointwise(data, headers);
    forall c | 0 <= c < |AbsoluteWidths(headers, rows)|
      ensures At(data, c) == ColumnMax(rows, c)
    {
      if c >= |data| {
        ColumnMaxBeyond(rows, c);
      }
    }
  }

  /** `update_widths` on the vector in hand. */
  method UpdateWidths(widths: seq<nat>, col: string, i: nat) returns (r: seq<nat>)
    requires i <= |widths|
    ensures r == Update(widths, col, i)
  {
    r := widths;
    if |r| <= i {
      r := r + [0];
    }
    if r[i] < Width16(col) {
      r := r[i := Width16(col)];
    }
  }

  /** The cells of a row, by index from 0 upward. */
  method UpdateWithRow(widths: seq<nat>, row: seq<string>) returns (r: seq<nat>)
    ensures r == UpdateRow(widths, row)
  {
    r := widths;
    var i := 0;
    while i < |row|
      invariant 0 <= i <= |row|
      invariant r == UpdateRow(widths, row[..i])
    {
      assert row[..i + 1][..i] == row[..i];
      r := UpdateWidths(r, row[i], i);
      i := i + 1;
    }
    assert row[..i] == row;
  }

  /** The absolute part of `widths`: every data row, then the headers. */
  method Widths(headers: seq<string>, rows: seq<seq<string>>) returns (absolute: seq<nat>)
    ensures absolute == AbsoluteWidths(headers, rows)
  {
    absolute := [];
    var j := 0;
    while j < |rows|
      invariant 0 <= j <= |rows|
      invariant absolute == UpdateRows([], rows[..j])
    {
      assert rows[..j + 1][..j] == rows[..j];
      absolute := UpdateWithRow(absolute, rows[j]);
      j := j + 1;
    }
    assert rows[..j] == rows;
    absolute := UpdateWithRow(absolute, headers);
  }
}
