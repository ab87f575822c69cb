/**
 * The tree widget's node type: a node with an id, a label and children.
 * `query` finds the first node with an id in pre-order, `parent` the first
 * node that has a direct child with that id, and `clear` followed by
 * `add_child` in a loop replaces a node's children. The widget library is
 * not part of this model; these are the behaviours the browser relies on.
 */
module TreeView {
  import opened Wrappers

  datatype Node = Node(id: string, value: string, children: seq<Node>)

  /** `node.query(id)`: the first node with this id, in pre-order. */
  function Query(n: Node, id: string): (r: Option<Node>)
    ensures r.Some? ==> r.value.id == id
    decreases n, 1
  {
    if n.id == id then Some(n) else QueryIn(n.children, id)
  }

  function QueryIn(ns: seq<Node>, id: string): (r: Option<Node>)
    ensures r.Some? ==> r.value.id == id
    decreases ns, 0
  {
    if ns == [] then None
    else
      match Query(ns[0], id)
      case Some(m) => Some(m)
      case None => QueryIn(ns[1..], id)
  }

  /** `query_mut(id)` followed by assigning the children: changes only the node `query` finds. */
  function SetChildren(n: Node, id: string, kids: seq<Node>): Node
    decreases n, 1
  {
    if n.id == id then n.(children := kids) else n.(children := SetChildrenIn(n.children, id, kids))
  }

  function SetChildrenIn(ns: seq<Node>, id: string, kids: seq<Node>): (r: seq<Node>)
    ensures |r| == |ns|
    decreases ns, 0
  {
    if ns == [] then []
    else if Query(ns[0], id).Some? then [SetChildren(ns[0], id, kids)] + ns[1..]
    else [ns[0]] + SetChildrenIn(ns[1..], id, kids)
  }

  /** After the replacement, `query` finds the same node, now with the new children; without a match nothing changes. */
  lemma {:induction false} QuerySetChildren(n: Node, id: string, kids: seq<Node>)
    ensures Query(n, id).None? ==> SetChildren(n, id, kids) == n
    ensures Query(n, id).Some? ==> Query(SetChildren(n, id, kids), id) == Some(Query(n, id).value.(children := kids))
    decreases n, 1
  {
    if n.id != id {
      QuerySetChildrenIn(n.children, id, kids);
      assert n.(children := n.children) == n;
    }
  }

  lemma {:induction false} QuerySetChildrenIn(ns: seq<Node>, id: string, kids: seq<Node>)
    ensures QueryIn(ns, id).None? ==> SetChildrenIn(ns, id, kids) == ns
    ensures QueryIn(ns, id).Some? ==> QueryIn(SetChildrenIn(ns, id, kids), id) == Some(QueryIn(ns, id).value.(children := kids))
    decreases ns, 0
  {
    if ns != [] {
      var r := SetChildrenIn(ns, id, kids);
      QuerySetChildren(ns[0], id, kids);
      if Query(ns[0], id).Some? {
        assert r[0] == SetChildren(ns[0], id, kids);
      } else {
        assert r[0] == ns[0] && r[1..] == SetChildrenIn(ns[1..], id, kids);
        QuerySetChildrenIn(ns[1..], id, kids);
        assert ns == [ns[0]] + ns[1..];
      }
    }
  }

  /** Whether one of the node's direct children has this id. */
  predicate HasChild(n: Node, id: string)
  {
    exists i :: 0 <= i < |n.children| && n.children[i].id == id
  }

  /** `node.parent(id)`: the first node, in pre-order, that has a direct child with this id. */
  function Parent(n: Node, id: string): (r: Option<Node>)
    ensures r.Some? ==> HasChild(r.value, id)
    decreases n, 1
  {
    if HasChild(n, id) then Some(n) else ParentIn(n.children, id)
  }

  function ParentIn(ns: seq<Node>, id: string): (r: Option<Node>)
    ensures r.Some? ==> HasChild(r.value, id)
    decreases ns, 0
  {
    if ns == [] then None
    else
      match Parent(ns[0], id)
      case Some(p) => Some(p)
      case None => ParentIn(ns[1..], id)
  }
}
