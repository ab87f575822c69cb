/**
 * The database browser (src/components/browser.rs): the ids of its tree
 * nodes, the message that opens a query editor on the selected database,
 * the replacement of a server node's children when its databases are
 * listed, and the keyboard handling of `on`.
 *
 * The tree widget keeps the tree and a selected node id; which nodes are
 * open, scrolling and drawing are widget state this model leaves out.
 */
module Browser {
  import opened Wrappers
  import Strings
  import Uuids
  import TreeView
  import Realm
  import Tui
  import Connection
  import UserEvent
  import Keybindings
  import KeyboundActions

  /** `BrowserTreeId`: a server node, or a database node under a server. */
  datatype BrowserTreeId = Server(id: string) | Database(serverId: string, name: string)

  /** `to_string`: "server:<id>" or "database:<server id>:<name>". */
  function ToString(t: BrowserTreeId): (r: string)
    ensures t.Server? ==> Strings.SplitOnce(r, ':') == ("server", Some(t.id))
    ensures t.Database? ==> Strings.SplitOnce(r, ':') == ("database", Some(t.serverId + [':'] + t.name))
  {
    match t
    case Server(id) =>
      ServerText(id);
      Strings.SplitOnceOfJoined("server", ':', id);
      "server:" + id
    case Database(serverId, name) =>
      DatabaseText(serverId, name);
      Strings.SplitOnceOfJoined("database", ':', serverId + [':'] + name);
      "database:" + serverId + ":" + name
  }

  /**
   * `parse_str`: the text before the first ':' says the kind, and the rest is
   * kept whole for a server, or split once more at ':' for a database.
   */
  function ParseStr(s: string): (r: Option<BrowserTreeId>)
    ensures ':' !in s ==> r.None?
    ensures Strings.SplitOnce(s, ':').0 != "server" && Strings.SplitOnce(s, ':').0 != "database" ==> r.None?
  {
    var (section, rest) := Strings.SplitOnce(s, ':');
    if section == "server" then
      if rest.None? then None else Some(Server(rest.value))
    else if section == "database" then
      if rest.None? then None
      else
        var (server, name) := Strings.SplitOnce(rest.value, ':');
        if name.None? then None else Some(Database(server, name.value))
    else None
  }

  /** What parses prints back as the very same text. */
  lemma ParseStrPrintsBack(s: string)
    ensures ParseStr(s).Some? ==> ToString(ParseStr(s).value) == s
  {
    var split := Strings.SplitOnce(s, ':');
    if ParseStr(s).Some? {
      var rest := split.1.value;
      assert s == split.0 + [':'] + rest;
      if split.0 == "server" {
        assert ParseStr(s) == Some(Server(rest));
        ServerText(rest);
      } else {
        var inner := Strings.SplitOnce(rest, ':');
        assert ParseStr(s) == Some(Database(inner.0, inner.1.value));
        assert rest == inner.0 + [':'] + inner.1.value;
        DatabaseText(inner.0, inner.1.value);
      }
    }
  }

  lemma ServerText(rest: string)
    ensures "server:" + rest == "server" + [':'] + rest
  {
    assert "server:" == "server" + [':'];
  }

  lemma DatabaseText(server: string, name: string)
    ensures "database:" + server + ":" + name == "database" + [':'] + (server + [':'] + name)
  {
    assert "database:" == "database" + [':'];
  }

  /** A server id comes back whole, ':' and all. */
  lemma ParseServerId(id: string)
    ensures ParseStr(ToString(Server(id))) == Some(Server(id))
  {
    Strings.SplitOnceOfJoined("server", ':', id);
    assert "server:" + id == "server" + [':'] + id;
  }

  /** A database id comes back whole when its server id has no ':'; the name may have any. */
  lemma ParseDatabaseId(serverId: string, name: string)
    requires ':' !in serverId
    ensures ParseStr(ToString(Database(serverId, name))) == Some(Database(serverId, name))
  {
    var rest := serverId + [':'] + name;
    Strings.SplitOnceOfJoined("database", ':', rest);
    Strings.SplitOnceOfJoined(serverId, ':', name);
    DatabaseText(serverId, name);
  }

  /** A database id with nothing after the server id does not parse: the second ':' is required. */
  lemma DatabaseIdNeedsSecondColon(rest: string)
    requires ':' !in rest
    ensures ParseStr("database:" + rest).None?
  {
    Strings.SplitOnceOfJoined("database", ':', rest);
    assert "database:" + rest == "database" + [':'] + rest;
  }

  /** The ids the browser builds from server ids parse back to the same id. */
  lemma ParseNodeIdOfUuid(u: Uuids.Uuid, name: string)
    ensures ParseStr(ToString(Server(Uuids.ToString(u)))) == Some(Server(Uuids.ToString(u)))
    ensures ParseStr(ToString(Database(Uuids.ToString(u), name))) == Some(Database(Uuids.ToString(u), name))
  {
    Uuids.ToStringHasNoColon(u);
    ParseServerId(Uuids.ToString(u));
    ParseDatabaseId(Uuids.ToString(u), name);
  }

  /** The selected node is a database node whose parent is a server node with a valid UUID. */
  predicate OpensQueryEditor(tree: TreeView.Node, selected: Option<string>)
  {
    && selected.Some?
    && ParseStr(selected.value).Some? && ParseStr(selected.value).value.Database?
    && TreeView.Parent(tree, selected.value).Some?
    && ParseStr(TreeView.Parent(tree, selected.value).value.id).Some?
    && ParseStr(TreeView.Parent(tree, selected.value).value.id).value.Server?
    && Uuids.Parse(ParseStr(TreeView.Parent(tree, selected.value).value.id).value.id).Some?
  }

  /**
   * `open_query_editor`: the selected node must be a database node and its
   * parent a server node with a valid id; anything else gives `Msg::None`.
   */
  function OpenQueryEditorMsg(tree: TreeView.Node, selected: Option<string>): (r: Option<Tui.Msg>)
    ensures r.Some?
    ensures r.value.OpenQueryEditor? || r.value == Tui.Msg.None
    ensures r.value.OpenQueryEditor? <==> OpensQueryEditor(tree, selected)
    ensures r.value.OpenQueryEditor? ==>
      && selected.Some?
      && ParseStr(selected.value).Some? && ParseStr(selected.value).value.Database?
      && ParseStr(selected.value).value.name == r.value.database
      && TreeView.Parent(tree, selected.value).Some?
      && ParseStr(TreeView.Parent(tree, selected.value).value.id).Some?
      && ParseStr(TreeView.Parent(tree, selected.value).value.id).value.Server?
      && Uuids.Parse(ParseStr(TreeView.Parent(tree, selected.value).value.id).value.id) == Some(r.value.serverId)
  {
    if selected.None? then Some(Tui.Msg.None)
    else
      var id := selected.value;
      match ParseStr(id)
      case Some(Database(_, database)) =>
        (match TreeView.Parent(tree, id)
         case None => Some(Tui.Msg.None)
         case Some(parent) =>
           match ParseStr(parent.id)
           case Some(Server(serverId)) =>
             (match Uuids.Parse(serverId)
              case Some(u) => Some(Tui.Msg.OpenQueryEditor(u, database))
              case None => Some(Tui.Msg.None))
           case _ => Some(Tui.Msg.None))
      case _ => Some(Tui.Msg.None)
  }

  /** A database node of a server node the browser built opens an editor on that server and database. */
  lemma OpenQueryEditorOnDatabaseNode(tree: TreeView.Node, u: Uuids.Uuid, database: string)
    requires TreeView.Parent(tree, ToString(Database(Uuids.ToString(u), database))).Some?
    requires TreeView.Parent(tree, ToString(Database(Uuids.ToString(u), database))).value.id == ToString(Server(Uuids.ToString(u)))
    ensures OpenQueryEditorMsg(tree, Some(ToString(Database(Uuids.ToString(u), database)))) == Some(Tui.Msg.OpenQueryEditor(u, database))
  {
    ParseNodeIdOfUuid(u, database);
    Uuids.ParseToString(u);
  }

  /** No selection, or a selected server node, opens nothing. */
  lemma OpenQueryEditorNeedsDatabaseNode(tree: TreeView.Node, id: string)
    ensures OpenQueryEditorMsg(tree, None) == Some(Tui.Msg.None)
    ensures OpenQueryEditorMsg(tree, Some(ToString(Server(id)))) == Some(Tui.Msg.None)
  {
    ParseServerId(id);
  }

  /** The children a server node gets for its listed databases: one per database, in list order. */
  function DatabaseNodes(serverId: string, databases: seq<string>): (kids: seq<TreeView.Node>)
    ensures |kids| == |databases|
    ensures forall i :: 0 <= i < |databases| ==>
      kids[i] == TreeView.Node(ToString(Database(serverId, databases[i])), databases[i], [])
  {
    seq(|databases|, i requires 0 <= i < |databases| => TreeView.Node(ToString(Database(serverId, databases[i])), databases[i], []))
  }

  /** The loop of the DatabasesListed branch: a node per database, pushed in list order. */
  method DatabaseChildren(server: string, databases: seq<string>) returns (kids: seq<TreeView.Node>)
    ensures kids == DatabaseNodes(server, databases)
  {
    kids := [];
    var i := 0;
    while i < |databases|
      invariant 0 <= i <= |databases|
      invariant |kids| == i
      invariant forall j :: 0 <= j < i ==> kids[j] == TreeView.Node(ToString(Database(server, databases[j])), databases[j], [])
    {
      kids := kids + [TreeView.Node(ToString(Database(server, databases[i])), databases[i], [])];
      i := i + 1;
    }
  }

  /** Each database child's id names its server and its database. */
  lemma DatabaseNodeIds(u: Uuids.Uuid, databases: seq<string>, i: nat)
    requires i < |databases|
    ensures ParseStr(DatabaseNodes(Uuids.ToString(u), databases)[i].id) == Some(Database(Uuids.ToString(u), databases[i]))
  {
    ParseNodeIdOfUuid(u, databases[i]);
  }

  /** The Right-arrow branch of `on`: a selected server node with a valid id opens its connection. */
  function RightArrow(selected: Option<string>): (r: Option<Tui.Msg>)
    ensures r.Some?
    ensures r.value.OpenConnection? || r.value == Tui.Msg.None
    ensures r.value.OpenConnection? <==>
      && selected.Some?
      && ParseStr(selected.value).Some? && ParseStr(selected.value).value.Server?
      && Uuids.Parse(ParseStr(selected.value).value.id).Some?
    ensures r.value.OpenConnection? ==> Uuids.Parse(ParseStr(selected.value).value.id) == Some(r.value.serverId)
    ensures RightArrowOpens(selected) ==> r == Some(Tui.Msg.None)
  {
    match selected
    case Some(id) =>
      (match ParseStr(id)
       case Some(Server(serverId)) =>
         (match Uuids.Parse(serverId)
          case Some(u) => Some(Tui.Msg.OpenConnection(u))
          case None => Some(Tui.Msg.None))
       case _ => Some(Tui.Msg.None))
    case None => Some(Tui.Msg.None)
  }

  /** Right arrow on a server node the browser built opens that server's connection. */
  lemma RightArrowOnServerNode(u: Uuids.Uuid)
    ensures RightArrow(Some(ToString(Server(Uuids.ToString(u))))) == Some(Tui.Msg.OpenConnection(u))
  {
    ParseNodeIdOfUuid(u, "");
    Uuids.ParseToString(u);
  }

  /** A key press with no modifiers, or nothing. */
  predicate PlainPress(ev: Realm.Event<UserEvent.TisqEvent>, k: Realm.Key)
  {
    ev.Keyboard? && ev.key == Realm.KeyEvent(k, Realm.NONE, Realm.Press)
  }

  /** Whether Right on this selection is left to the widget, which opens the node: anything but a server node. */
  predicate RightArrowOpens(selected: Option<string>)
  {
    selected.None? || ParseStr(selected.value).None? || !ParseStr(selected.value).value.Server?
  }

  /** What the tree widget is asked to do: a command `perform`ed on it, or a new tree (`set_tree`). */
  datatype WidgetOp = Close | Open | Scroll(down: bool) | Move(down: bool) | GoTo(end: bool) | Submit | SetTree

  /** The command `on` performs for the keys the tree widget handles itself: close, scroll, move, go to, submit. */
  function WidgetCmd(ev: Realm.Event<UserEvent.TisqEvent>): (c: Option<WidgetOp>)
    ensures c.Some? ==> ev.Keyboard? && ev.key.modifiers == Realm.NONE && ev.key.kind == Realm.Press
    ensures c.Some? ==> c.value != SetTree && c.value != Open
    ensures c.Some? ==> !PlainPress(ev, Realm.Right) && !PlainPress(ev, Realm.Delete)
  {
    if PlainPress(ev, Realm.Left) then Some(Close)
    else if PlainPress(ev, Realm.PageDown) then Some(Scroll(true))
    else if PlainPress(ev, Realm.PageUp) then Some(Scroll(false))
    else if PlainPress(ev, Realm.Down) then Some(Move(true))
    else if PlainPress(ev, Realm.Up) then Some(Move(false))
    else if PlainPress(ev, Realm.Home) then Some(GoTo(false))
    else if PlainPress(ev, Realm.End) then Some(GoTo(true))
    else if PlainPress(ev, Realm.Enter) then Some(Submit)
    else None
  }

  /** The tree after databases are listed for a server: its node's children replaced, or None without that node. */
  function Listed(tree: TreeView.Node, serverId: Uuids.Uuid, databases: seq<string>): (r: Option<TreeView.Node>)
    ensures var key := ToString(Server(Uuids.ToString(serverId)));
      && (r.None? <==> TreeView.Query(tree, key).None?)
      && (r.Some? ==> TreeView.Query(r.value, key) == Some(TreeView.Query(tree, key).value.(children := DatabaseNodes(Uuids.ToString(serverId), databases))))
  {
    var key := ToString(Server(Uuids.ToString(serverId)));
    TreeView.QuerySetChildren(tree, key, DatabaseNodes(Uuids.ToString(serverId), databases));
    if TreeView.Query(tree, key).None? then None
    else Some(TreeView.SetChildren(tree, key, DatabaseNodes(Uuids.ToString(serverId), databases)))
  }

  class BrowserTree {
    var tree: TreeView.Node
    var selected: Option<string>
    const keybindings: Keybindings.SectionKeybindings<KeyboundActions.Action>

    /** `new`: the initial node is kept when the tree has it, otherwise the root is selected. */
    constructor (tree: TreeView.Node, initialNode: Option<string>, keybindings: Keybindings.SectionKeybindings<KeyboundActions.Action>)
      ensures this.tree == tree && this.keybindings == keybindings
      ensures initialNode.Some? && TreeView.Query(tree, initialNode.value).Some? ==> selected == initialNode
      ensures !(initialNode.Some? && TreeView.Query(tree, initialNode.value).Some?) ==> selected == Some(tree.id)
    {
      this.tree := tree;
      this.keybindings := keybindings;
      if initialNode.Some? && TreeView.Query(tree, initialNode.value).Some? {
        selected := initialNode;
      } else {
        selected := Some(tree.id);
      }
    }

    /**
     * The DatabasesListed branch of `on`: the server node's children become
     * one node per database; without that server node the answer is None
     * and the tree is unchanged.
     */
    method DatabasesListed(serverId: Uuids.Uuid, databases: seq<string>) returns (r: Option<Tui.Msg>)
      modifies this
      ensures selected == old(selected)
      ensures Listed(old(tree), serverId, databases).None? ==> r.None? && tree == old(tree)
      ensures Listed(old(tree), serverId, databases).Some? ==> r == Some(Tui.Msg.None) && tree == Listed(old(tree), serverId, databases).value
    {
      var server := Uuids.ToString(serverId);
      var key := ToString(Server(server));
      TreeView.QuerySetChildren(tree, key, DatabaseNodes(server, databases));
      if TreeView.Query(tree, key).None? {
        return None;
      }
      var kids := DatabaseChildren(server, databases);
      tree := TreeView.SetChildren(tree, key, kids);
      return Some(Tui.Msg.None);
    }

    /** The tree reload and database list branches of `on`. */
    method OnUser(payload: UserEvent.TisqEvent, widget: WidgetOp -> Option<string>) returns (r: Option<Tui.Msg>)
      modifies this
      ensures payload.TreeReloaded? ==> r == Some(Tui.Msg.None) && tree == payload.sent.tree && selected == widget(SetTree)
      ensures payload.DbResponse? && payload.response.DatabasesListed? ==>
        var listed := Listed(old(tree), payload.response.id, payload.response.databases);
        && selected == old(selected)
        && (listed.None? ==> r.None? && tree == old(tree))
        && (listed.Some? ==> r == Some(Tui.Msg.None) && tree == listed.value)
      ensures payload.DbResponse? && !payload.response.DatabasesListed? ==> r.None? && unchanged(this)
    {
      match payload {
        case TreeReloaded(sent) =>
          tree := sent.tree;
          selected := widget(SetTree);
          return Some(Tui.Msg.None);
        case DbResponse(response) =>
          if response.DatabasesListed? {
            r := DatabasesListed(response.id, response.databases);
            return;
          }
          return None;
      }
    }

    /** The browser's own keys in `on`: Right, Delete and the keys the tree widget handles. */
    method OnKey(ev: Realm.Event<UserEvent.TisqEvent>, widget: WidgetOp -> Option<string>) returns (r: Option<Tui.Msg>)
      requires ev.Keyboard?
      modifies this
      ensures PlainPress(ev, Realm.Right) ==>
        r == RightArrow(old(selected)) && tree == old(tree)
        && selected == if RightArrowOpens(old(selected)) then widget(Open) else old(selected)
      ensures PlainPress(ev, Realm.Delete) ==> r == (if old(selected).Some? then Some(Tui.Msg.DeleteBrowsedNode(old(selected).value)) else None) && unchanged(this)
      ensures WidgetCmd(ev).Some? ==> r == Some(Tui.Msg.None) && tree == old(tree) && selected == widget(WidgetCmd(ev).value)
      ensures !PlainPress(ev, Realm.Right) && !PlainPress(ev, Realm.Delete) && WidgetCmd(ev).None? ==> r.None? && unchanged(this)
    {
      var cmd := WidgetCmd(ev);
      if PlainPress(ev, Realm.Right) {
        r := RightArrow(selected);
        if RightArrowOpens(selected) {
          selected := widget(Open);
        }
      } else if PlainPress(ev, Realm.Delete) {
        r := if selected.Some? then Some(Tui.Msg.DeleteBrowsedNode(selected.value)) else None;
      } else if cmd.Some? {
        selected := widget(cmd.value);
        r := Some(Tui.Msg.None);
      } else {
        r := None;
      }
    }

    /**
     * `on`: the section's key bindings first (add a server, open a query
     * editor), then a reloaded tree, listed databases, and the browser's own
     * keys; anything else is not handled. `widget` is the tree widget: the
     * node it has selected after it carries out an operation from its
     * current state.
     */
    method On(ev: Realm.Event<UserEvent.TisqEvent>, widget: WidgetOp -> Option<string>) returns (r: Option<Tui.Msg>)
      modifies this
      ensures var action := if ev.Keyboard? then Keybindings.GetAction(keybindings, ev.key) else None;
        && (action == Some(KeyboundActions.BrowserAddServer) ==> r == Some(Tui.Msg.StartAddingServer) && unchanged(this))
        && (action == Some(KeyboundActions.BrowserDatabaseOpenQueryEditor) ==>
              r == OpenQueryEditorMsg(old(tree), old(selected)) && unchanged(this))
        && (action.None? || action.value !in {KeyboundActions.BrowserAddServer, KeyboundActions.BrowserDatabaseOpenQueryEditor} ==>
              && (ev.User? && ev.payload.TreeReloaded? ==> r == Some(Tui.Msg.None) && tree == ev.payload.sent.tree && selected == widget(SetTree))
              && (ev.User? && ev.payload.DbResponse? && ev.payload.response.DatabasesListed? ==>
                    var listed := Listed(old(tree), ev.payload.response.id, ev.payload.response.databases);
                    && selected == old(selected)
                    && (listed.None? ==> r.None? && tree == old(tree))
                    && (listed.Some? ==> r == Some(Tui.Msg.None) && tree == listed.value))
              && (ev.User? && ev.payload.DbResponse? && !ev.payload.response.DatabasesListed? ==> r.None? && unchanged(this))
              && (PlainPress(ev, Realm.Right) ==>
                    r == RightArrow(old(selected)) && tree == old(tree)
                    && selected == if RightArrowOpens(old(selected)) then widget(Open) else old(selected))
              && (PlainPress(ev, Realm.Delete) ==> r == (if old(selected).Some? then Some(Tui.Msg.DeleteBrowsedNode(old(selected).value)) else None) && unchanged(this))
              && (WidgetCmd(ev).Some? ==> r == Some(Tui.Msg.None) && tree == old(tree) && selected == widget(WidgetCmd(ev).value))
              && (ev.Keyboard? && !PlainPress(ev, Realm.Right) && !PlainPress(ev, Realm.Delete) && WidgetCmd(ev).None? ==> r.None? && unchanged(this))
              && (ev.Tick? || ev.Other? ==> r.None? && unchanged(this)))
    {
      if ev.Keyboard? {
        var action := Keybindings.GetAction(keybindings, ev.key);
        if action == Some(KeyboundActions.BrowserAddServer) {
          return Some(Tui.Msg.StartAddingServer);
        } else if action == Some(KeyboundActions.BrowserDatabaseOpenQueryEditor) {
          return OpenQueryEditorMsg(tree, selected);
        }
      }
      match ev {
        case User(payload) =>
          r := OnUser(payload, widget);
        case Keyboard(key) =>
          r := OnKey(ev, widget);
        case Tick =>
          return None;
        case Other =>
          return None;
      }
    }
  }
}
