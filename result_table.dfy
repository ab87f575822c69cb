/**
 * The query result table (src/components/execute_result_table.rs): an
 * executed query's headers and rows are shown with widths computed from
 * them, and an error answer is acknowledged without changing the table.
 * Scrolling and drawing are widget state this model leaves out.
 */
module ResultTable {
  import opened Wrappers
  import Realm
  import Tui
  import Connection
  import UserEvent
  import ColumnWidths

  datatype QueryResult = QueryResult(headers: seq<string>, data: seq<seq<string>>)

  class ExecuteResultTable {
    /** The result on display, if any. */
    var shown: Option<QueryResult>
    /** The absolute column widths of the shown result, before they become percentages. */
    var absoluteWidths: seq<nat>

    constructor Default()
      ensures shown.None? && absoluteWidths == []
    {
      shown := None;
      absoluteWidths := [];
    }

    /** `set_result`: the rows become the table's content and the widths are computed from the result. */
    method SetResult(result: QueryResult)
      modifies this
      ensures shown == Some(result)
      ensures absoluteWidths == ColumnWidths.AbsoluteWidths(result.headers, result.data)
    {
      shown := Some(result);
      absoluteWidths := ColumnWidths.Widths(result.headers, result.data);
    }

    /** `on`: an Executed answer shows its result; every other event answers `Msg::None`. */
    method On(ev: Realm.Event<UserEvent.TisqEvent>) returns (r: Option<Tui.Msg>)
      modifies this
      ensures ev.User? && ev.payload.DbResponse? && ev.payload.response.Executed? ==>
        r == Some(Tui.Msg.ShowFetchedTable)
        && shown == Some(QueryResult(ev.payload.response.headers, ev.payload.response.rows))
        && absoluteWidths == ColumnWidths.AbsoluteWidths(ev.payload.response.headers, ev.payload.response.rows)
      ensures !(ev.User? && ev.payload.DbResponse? && ev.payload.response.Executed?) ==>
        r == Some(Tui.Msg.None) && unchanged(this)
    {
      if ev.User? && ev.payload.DbResponse? && ev.payload.response.Executed? {
        SetResult(QueryResult(ev.payload.response.headers, ev.payload.response.rows));
        return Some(Tui.Msg.ShowFetchedTable);
      }
      return Some(Tui.Msg.None);
    }
  }

  /** The widths of a result cover every column and bound every cell and header of it. */
  lemma ResultWidthsBoundCells(result: QueryResult, c: nat)
    requires c < |ColumnWidths.AbsoluteWidths(result.headers, result.data)|
    ensures forall i :: 0 <= i < |result.data| ==>
      ColumnWidths.CellWidth(result.data[i], c) <= ColumnWidths.AbsoluteWidths(result.headers, result.data)[c]
    ensures ColumnWidths.CellWidth(result.headers, c) <= ColumnWidths.AbsoluteWidths(result.headers, result.data)[c]
    ensures |ColumnWidths.AbsoluteWidths(result.headers, result.data)| == ColumnWidths.Max(|result.headers|, ColumnWidths.MaxRowLen(result.data))
  {
    ColumnWidths.AbsoluteWidthsSpec(result.headers, result.data);
    ColumnWidths.ColumnMaxIsMaximum(result.data, c);
  }
}
