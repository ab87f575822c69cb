/**
 * The snippets table (src/components/snippets_table.rs): one row per
 * snippet with its shortcut and description, two column widths, and Enter
 * applying the snippet of the selected row.
 */
module SnippetsTable {
  import opened Wrappers
  import Realm
  import Tui
  import UserEvent
  import ColumnWidths

  datatype Snippet = Snippet(shortcut: string, description: string, query: string)

  const Headers: seq<string> := ["shortcut", "description"]

  /** `snippet_shortcuts`: the shortcuts in snippet order. */
  function Shortcuts(snippets: seq<Snippet>): (r: seq<string>)
    ensures |r| == |snippets|
    ensures forall i :: 0 <= i < |snippets| ==> r[i] == snippets[i].shortcut
  {
    seq(|snippets|, i requires 0 <= i < |snippets| => snippets[i].shortcut)
  }

  /** The component keeps only the shortcuts of the snippets it lists. */
  class SnippetsTableComponent {
    const snippetShortcuts: seq<string>

    /** `new`: the shortcuts of the snippets, in snippet order. */
    constructor (snippets: seq<Snippet>)
      ensures snippetShortcuts == Shortcuts(snippets)
    {
      snippetShortcuts := Shortcuts(snippets);
    }
  }

  /** The table rows: shortcut, then description. */
  function Rows(snippets: seq<Snippet>): (rows: seq<seq<string>>)
    ensures |rows| == |snippets|
    ensures forall i :: 0 <= i < |snippets| ==> rows[i] == [snippets[i].shortcut, snippets[i].description]
  {
    seq(|snippets|, i requires 0 <= i < |snippets| => [snippets[i].shortcut, snippets[i].description])
  }

  lemma {:induction false} RowsAreShort(rows: seq<seq<string>>)
    requires forall i :: 0 <= i < |rows| ==> |rows[i]| == 2
    ensures ColumnWidths.MaxRowLen(rows) <= 2
    decreases |rows|
  {
    if rows != [] {
      RowsAreShort(rows[..|rows| - 1]);
    }
  }

  /**
   * The absolute part of `widths`: exactly two columns, each at least its
   * header's width and every cell's width, and equal to one of them.
   */
  method Widths(snippets: seq<Snippet>) returns (absolute: seq<nat>)
    ensures |absolute| == 2
    ensures absolute[0] >= ColumnWidths.Width16("shortcut") && absolute[1] >= ColumnWidths.Width16("description")
    ensures forall i :: 0 <= i < |snippets| ==>
      ColumnWidths.Width16(snippets[i].shortcut) <= absolute[0] && ColumnWidths.Width16(snippets[i].description) <= absolute[1]
    ensures absolute[0] == ColumnWidths.Width16("shortcut") || exists i :: 0 <= i < |snippets| && absolute[0] == ColumnWidths.Width16(snippets[i].shortcut)
    ensures absolute[1] == ColumnWidths.Width16("description") || exists i :: 0 <= i < |snippets| && absolute[1] == ColumnWidths.Width16(snippets[i].description)
  {
    var rows := Rows(snippets);
    absolute := ColumnWidths.Widths(Headers, rows);
    RowsAreShort(rows);
    ColumnWidths.AbsoluteWidthsSpec(Headers, rows);
    ColumnWidths.ColumnMaxIsMaximum(rows, 0);
    ColumnWidths.ColumnMaxIsMaximum(rows, 1);
    forall i | 0 <= i < |snippets|
      ensures ColumnWidths.CellWidth(rows[i], 0) == ColumnWidths.Width16(snippets[i].shortcut)
      ensures ColumnWidths.CellWidth(rows[i], 1) == ColumnWidths.Width16(snippets[i].description)
    {
    }
  }

  /** `apply_snippet`: the shortcut of the selected row; nothing without a row index in range. */
  function ApplySnippet(shortcuts: seq<string>, state: Option<nat>): (r: Option<Tui.Msg>)
    ensures r.Some? <==> state.Some? && state.value < |shortcuts|
    ensures r.Some? ==> r.value == Tui.Msg.ApplySnippet(shortcuts[state.value])
  {
    if state.Some? && state.value < |shortcuts| then Some(Tui.Msg.ApplySnippet(shortcuts[state.value])) else None
  }

  /** The selected row's snippet is the one applied. */
  lemma AppliesSelectedSnippet(snippets: seq<Snippet>, i: nat)
    requires i < |snippets|
    ensures ApplySnippet(Shortcuts(snippets), Some(i)) == Some(Tui.Msg.ApplySnippet(snippets[i].shortcut))
  {
  }

  /** `on`: Enter pressed without modifiers applies the selected snippet; everything else answers `Msg::None`. */
  function On(shortcuts: seq<string>, state: Option<nat>, ev: Realm.Event<UserEvent.TisqEvent>): (r: Option<Tui.Msg>)
    ensures ev == Realm.Keyboard(Realm.KeyEvent(Realm.Enter, Realm.NONE, Realm.Press)) ==> r == ApplySnippet(shortcuts, state)
    ensures ev != Realm.Keyboard(Realm.KeyEvent(Realm.Enter, Realm.NONE, Realm.Press)) ==> r == Some(Tui.Msg.None)
  {
    if ev == Realm.Keyboard(Realm.KeyEvent(Realm.Enter, Realm.NONE, Realm.Press)) then ApplySnippet(shortcuts, state)
    else Some(Tui.Msg.None)
  }
}
