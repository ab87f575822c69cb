/**
 * The application's own events (src/app/user_event.rs) and the equality
 * subscriptions compare them with: only the variant counts, never the
 * payload, so a subscription to one DbResponse event matches every other.
 */
module UserEvent {
  import TreeView
  import Connection

  /** The browser tree as it is sent to the tree component. */
  datatype SentTree = SentTree(tree: TreeView.Node)

  datatype TisqEvent =
    | TreeReloaded(sent: SentTree)
    | DbResponse(response: Connection.DbResponse)

  /** `PartialEq for TisqEvent`: true exactly when both are the same variant. */
  function Equal(a: TisqEvent, b: TisqEvent): (r: bool)
    ensures r <==> (a.TreeReloaded? <==> b.TreeReloaded?)
    ensures r <==> (a.DbResponse? <==> b.DbResponse?)
  {
    match (a, b)
    case (TreeReloaded(_), TreeReloaded(_)) => true
    case (DbResponse(_), DbResponse(_)) => true
    case _ => false
  }

  /** The equality is an equivalence relation. */
  lemma EqualIsEquivalence(a: TisqEvent, b: TisqEvent, c: TisqEvent)
    ensures Equal(a, a)
    ensures Equal(a, b) ==> Equal(b, a)
    ensures Equal(a, b) && Equal(b, c) ==> Equal(a, c)
  {
  }

  /** It is coarser than structural equality: equal values are equal events. */
  lemma EqualExtendsIdentity(a: TisqEvent, b: TisqEvent)
    requires a == b
    ensures Equal(a, b)
  {
  }

  /** Any two DbResponse events are equal, whatever their responses; a tree event never equals one. */
  lemma DbResponsesAllEqual(x: Connection.DbResponse, y: Connection.DbResponse, t: SentTree)
    ensures Equal(DbResponse(x), DbResponse(y))
    ensures !Equal(TreeReloaded(t), DbResponse(x)) && !Equal(DbResponse(x), TreeReloaded(t))
  {
  }
}
