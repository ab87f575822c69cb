/**
 * The editor-tab state of the application model (src/app/model.rs): the
 * ordered map of open query editors, the one shown, and the requests the
 * model sends to the database worker. Mounting, focusing and drawing
 * components are not modelled; nor are the update branches outside the
 * tab list and the retry decision.
 *
 * The ordered map is a sequence of entries with distinct keys. Its
 * `insert` appends a new key and updates an existing one in place, its
 * `remove` keeps the other entries in order, `pop_back_entry` takes the
 * last entry. The server store is a map from id to stored server.
 */
module AppModel {
  import opened Wrappers
  import Uuids
  import Connection
  import Tui
  import opened EditorIds

  type Uuid = Uuids.Uuid
  type Entry = (EditorId, EditorMetadata)

  /** A server as the store keeps it (src/app/storage/storage.rs). */
  datatype StoredServer = StoredServer(id: Uuid, name: string, connectionProperties: map<string, string>)

  /** The keys of the ordered map, in order. */
  function Keys(es: seq<Entry>): (ks: seq<EditorId>)
    ensures |ks| == |es|
    ensures forall i :: 0 <= i < |es| ==> ks[i] == es[i].0
  {
    seq(|es|, i requires 0 <= i < |es| => es[i].0)
  }

  predicate DistinctKeys(es: seq<Entry>)
  {
    forall i, j :: 0 <= i < j < |es| ==> es[i].0 != es[j].0
  }

  /** `keys().position(..)`: the index of the first entry with this key. */
  function Position(es: seq<Entry>, id: EditorId): (r: Option<nat>)
    ensures r.Some? ==> r.value < |es| && es[r.value].0 == id
    ensures r.Some? ==> forall j :: 0 <= j < r.value ==> es[j].0 != id
    ensures r.None? ==> forall j :: 0 <= j < |es| ==> es[j].0 != id
  {
    if es == [] then None
    else if es[0].0 == id then Some(0)
    else
      match Position(es[1..], id)
      case None => None
      case Some(p) => Some(p + 1)
  }

  /** In a map with distinct keys, the entry at index `i` is found at `i`. */
  lemma PositionOfDistinct(es: seq<Entry>, i: nat)
    requires DistinctKeys(es) && i < |es|
    ensures Position(es, es[i].0) == Some(i)
  {
  }

  lemma DistinctKeysSplit(a: seq<Entry>, b: seq<Entry>)
    requires DistinctKeys(a + b)
    ensures DistinctKeys(a) && DistinctKeys(b)
  {
    assert forall i :: 0 <= i < |a| ==> (a + b)[i] == a[i];
    assert forall i :: 0 <= i < |b| ==> (a + b)[|a| + i] == b[i];
  }

  /** `insert`: a new key goes to the end, an existing one keeps its place and takes the new value. */
  function Insert(es: seq<Entry>, id: EditorId, m: EditorMetadata): seq<Entry>
  {
    match Position(es, id)
    case None => es + [(id, m)]
    case Some(p) => es[p := (id, m)]
  }

  lemma InsertFresh(es: seq<Entry>, x: Entry)
    requires forall i :: 0 <= i < |es| ==> es[i].0 != x.0
    ensures Insert(es, x.0, x.1) == es + [x]
  {
  }

  /** After an insert the keys stay distinct, the key is present with the new value, and no other key is added or lost. */
  lemma InsertSpec(es: seq<Entry>, id: EditorId, m: EditorMetadata)
    requires DistinctKeys(es)
    ensures DistinctKeys(Insert(es, id, m))
    ensures (id, m) in Insert(es, id, m)
    ensures forall k :: k in Keys(Insert(es, id, m)) <==> k in Keys(es) || k == id
  {
    var r := Insert(es, id, m);
    match Position(es, id)
    case None =>
      assert r == es + [(id, m)];
      assert forall i :: 0 <= i < |es| ==> r[i] == es[i];
      assert forall k :: k in Keys(r) ==> k in Keys(es) || k == id by {
        forall k | k in Keys(r) ensures k in Keys(es) || k == id {
          var i :| 0 <= i < |r| && Keys(r)[i] == k;
          if i < |es| { assert Keys(es)[i] == k; }
        }
      }
      assert Keys(r)[|es|] == id;
      forall k | k in Keys(es) ensures k in Keys(r) {
        var i :| 0 <= i < |es| && Keys(es)[i] == k;
        assert Keys(r)[i] == k;
      }
    case Some(p) =>
      assert r[p] == (id, m);
      assert forall i :: 0 <= i < |es| ==> r[i].0 == es[i].0;
      assert Keys(r) == Keys(es);
  }

  /** An editor as the store keeps it (src/app/storage/editors_storage.rs). */
  datatype StoredEditor = StoredEditor(serverId: Uuid, database: string, content: string)

  /** The entry `restore_editors` inserts for a stored editor: its tab is named after the database. */
  function RestoredEntry(e: StoredEditor): Entry
  {
    (EditorId(e.serverId, e.database), EditorMetadata(e.database))
  }

  /** The ordered map after `restore_editors` has inserted the stored editors one after the other. */
  function Restored(stored: seq<StoredEditor>): seq<Entry>
  {
    if stored == [] then []
    else
      var last := RestoredEntry(stored[|stored| - 1]);
      Insert(Restored(stored[..|stored| - 1]), last.0, last.1)
  }

  /**
   * Restoring gives distinct keys, one for each stored editor and no
   * other; every key carries the name of the last stored editor with it.
   */
  lemma {:induction false} RestoredSpec(stored: seq<StoredEditor>)
    ensures DistinctKeys(Restored(stored))
    ensures forall k :: k in Keys(Restored(stored)) <==> exists i :: 0 <= i < |stored| && RestoredEntry(stored[i]).0 == k
    ensures stored != [] ==> RestoredEntry(stored[|stored| - 1]) in Restored(stored)
  {
    if stored != [] {
      var init := stored[..|stored| - 1];
      var last := RestoredEntry(stored[|stored| - 1]);
      RestoredSpec(init);
      InsertSpec(Restored(init), last.0, last.1);
      forall k ensures k in Keys(Restored(stored)) <==> exists i :: 0 <= i < |stored| && RestoredEntry(stored[i]).0 == k {
        if k in Keys(Restored(stored)) && k != last.0 {
          var i :| 0 <= i < |init| && RestoredEntry(init[i]).0 == k;
          assert stored[i] == init[i];
        }
        if exists i :: 0 <= i < |stored| && RestoredEntry(stored[i]).0 == k {
          var i :| 0 <= i < |stored| && RestoredEntry(stored[i]).0 == k;
          if i < |init| { assert init[i] == stored[i]; }
        }
      }
    }
  }

  /** Stored editors with distinct ids come back as tabs in the order they are stored. */
  lemma {:induction false} RestoredInOrder(stored: seq<StoredEditor>)
    requires forall i, j :: 0 <= i < j < |stored| ==> RestoredEntry(stored[i]).0 != RestoredEntry(stored[j]).0
    ensures Restored(stored) == seq(|stored|, i requires 0 <= i < |stored| => RestoredEntry(stored[i]))
  {
    if stored != [] {
      var init := stored[..|stored| - 1];
      var last := RestoredEntry(stored[|stored| - 1]);
      RestoredInOrder(init);
      forall i | 0 <= i < |Restored(init)|
        ensures Restored(init)[i].0 != last.0
      {
        assert init[i] == stored[i];
      }
      InsertFresh(Restored(init), last);
    }
  }

  /** `remove`: the entry with the key is dropped, the others keep their order. */
  function Remove(es: seq<Entry>, id: EditorId): seq<Entry>
  {
    match Position(es, id)
    case None => es
    case Some(p) => es[..p] + es[p + 1..]
  }

  /** After a removal the key is gone, the keys stay distinct and nothing else is dropped. */
  lemma RemoveSpec(es: seq<Entry>, id: EditorId)
    requires DistinctKeys(es)
    ensures DistinctKeys(Remove(es, id))
    ensures forall i :: 0 <= i < |Remove(es, id)| ==> Remove(es, id)[i].0 != id
    ensures forall x :: x in es && x.0 != id ==> x in Remove(es, id)
    ensures |Remove(es, id)| == if Position(es, id).Some? then |es| - 1 else |es|
  {
    match Position(es, id)
    case None =>
    case Some(p) =>
      var r := es[..p] + es[p + 1..];
      assert forall i :: 0 <= i < |r| ==> r[i] == (if i < p then es[i] else es[i + 1]);
      forall x | x in es && x.0 != id
        ensures x in r
      {
        var j :| 0 <= j < |es| && es[j] == x;
        if j < p { assert r[j] == x; } else { assert j > p && r[j - 1] == x; }
      }
  }

  /** The index after moving `increment` tabs from `current`: below zero goes to the last tab, past the end to the first. */
  function NextIndex(current: nat, increment: int, len: nat): (r: nat)
    requires current < len
    ensures r < len
  {
    var next := current + increment;
    if next < 0 then len - 1 else if next >= len then 0 else next
  }

  /** The shown editor after `increment_editor`: unchanged unless it is one of the tabs. */
  function Incremented(es: seq<Entry>, shown: Option<EditorId>, increment: int): (r: Option<EditorId>)
    ensures shown.None? || Position(es, shown.value).None? ==> r == shown
    ensures shown.Some? && Position(es, shown.value).Some? ==> r.Some? && r.value in Keys(es)
  {
    if shown.None? then shown
    else
      match Position(es, shown.value)
      case None => shown
      case Some(p) => Some(es[NextIndex(p, increment, |es|)].0)
  }

  /** In a map with distinct keys, moving from the entry at `p` lands on the entry `NextIndex` names. */
  lemma IncrementedAt(es: seq<Entry>, p: nat, increment: int)
    requires DistinctKeys(es) && p < |es|
    ensures Incremented(es, Some(es[p].0), increment) == Some(es[NextIndex(p, increment, |es|)].0)
  {
    PositionOfDistinct(es, p);
  }

  /** Next then previous, or previous then next, comes back to the same tab. */
  lemma IncrementRoundTrip(es: seq<Entry>, id: EditorId)
    requires DistinctKeys(es) && Position(es, id).Some?
    ensures Incremented(es, Incremented(es, Some(id), 1), -1) == Some(id)
    ensures Incremented(es, Incremented(es, Some(id), -1), 1) == Some(id)
  {
    var p := Position(es, id).value;
    var n := |es|;
    assert es[p].0 == id;
    IncrementedAt(es, p, 1);
    IncrementedAt(es, NextIndex(p, 1, n), -1);
    assert NextIndex(NextIndex(p, 1, n), -1, n) == p;
    IncrementedAt(es, p, -1);
    IncrementedAt(es, NextIndex(p, -1, n), 1);
    assert NextIndex(NextIndex(p, -1, n), 1, n) == p;
  }

  /** Navigation wraps around: next from the last tab is the first, previous from the first is the last. */
  lemma IncrementWraps(es: seq<Entry>)
    requires DistinctKeys(es) && es != []
    ensures Incremented(es, Some(es[|es| - 1].0), 1) == Some(es[0].0)
    ensures Incremented(es, Some(es[0].0), -1) == Some(es[|es| - 1].0)
  {
    PositionOfDistinct(es, |es| - 1);
    PositionOfDistinct(es, 0);
  }

  function Reverse<T>(s: seq<T>): (r: seq<T>)
    ensures |r| == |s|
  {
    if s == [] then [] else Reverse(s[1..]) + [s[0]]
  }

  lemma {:induction false} ReverseAt<T>(s: seq<T>, i: nat)
    requires i < |s|
    ensures Reverse(s)[i] == s[|s| - 1 - i]
  {
    if i < |s| - 1 {
      ReverseAt(s[1..], i);
    }
  }

  lemma {:induction false} ReverseMultiset<T>(s: seq<T>)
    ensures multiset(Reverse(s)) == multiset(s)
  {
    if s != [] {
      ReverseMultiset(s[1..]);
      assert s == [s[0]] + s[1..];
    }
  }

  /**
   * The entries after `move_editor_tab` of the tab at `k`, as the code
   * does it: the entries after `k` are popped, the target is popped, the
   * neighbour (if there is one) and the target are inserted in swapped
   * order, and the remaining popped entries are inserted in the order they
   * were popped, which is the reverse of their original order.
   */
  function MovedTab<T>(e: seq<T>, k: nat, increment: int): (r: seq<T>)
    requires k < |e|
    ensures |r| == |e|
    ensures increment > 0 && k + 1 < |e| ==> r[k + 1] == e[k] && r[k] == e[k + 1] && r[..k] == e[..k]
    ensures increment < 0 && k > 0 ==> r[k - 1] == e[k] && r[k] == e[k - 1] && r[..k - 1] == e[..k - 1]
    ensures increment > 0 && k + 1 == |e| ==> r == e
  {
    if increment > 0 then
      if k + 1 < |e| then SwapNextReverseRest(e, k) else e
    else if increment < 0 then
      if k > 0 then SwapNextReverseRest(e, k - 1) else ReverseRest(e, 0)
    else ReverseRest(e, k)
  }

  /** The entries up to `k`, then the one after `k`, then `k`, then the rest reversed. */
  function SwapNextReverseRest<T>(e: seq<T>, k: nat): seq<T>
    requires k + 1 < |e|
  {
    e[..k] + [e[k + 1], e[k]] + Reverse(e[k + 2..])
  }

  /** The entries up to and including `k`, then the rest reversed. */
  function ReverseRest<T>(e: seq<T>, k: nat): seq<T>
    requires k < |e|
  {
    e[..k + 1] + Reverse(e[k + 1..])
  }

  /** Where each entry of the moved list comes from. */
  function MovedFrom(n: nat, k: nat, increment: int, i: nat): nat
    requires k < n && i < n
  {
    if increment > 0 then
      if k + 1 == n || i < k then i
      else if i == k then k + 1
      else if i == k + 1 then k
      else n + k + 1 - i
    else if increment < 0 && k > 0 then
      if i < k - 1 then i
      else if i == k - 1 then k
      else if i == k then k - 1
      else n + k - i
    else if i <= k then i
    else n + k - i
  }

  lemma MovedFromInjective(n: nat, k: nat, increment: int, i: nat, j: nat)
    requires k < n && i < n && j < n && i != j
    ensures MovedFrom(n, k, increment, i) < n
    ensures MovedFrom(n, k, increment, i) != MovedFrom(n, k, increment, j)
  {
  }

  lemma {:induction false} MovedTabAt<T>(e: seq<T>, k: nat, increment: int, i: nat)
    requires k < |e| && i < |e|
    ensures |MovedTab(e, k, increment)| == |e|
    ensures MovedTab(e, k, increment)[i] == e[MovedFrom(|e|, k, increment, i)]
  {
    var n := |e|;
    var r := MovedTab(e, k, increment);
    if increment > 0 && k + 1 < n && i >= k + 2 {
      ReverseAt(e[k + 2..], i - (k + 2));
    } else if increment < 0 && k > 0 && i >= k + 1 {
      ReverseAt(e[k + 1..], i - (k + 1));
    } else if increment < 0 && k == 0 && i >= 1 {
      ReverseAt(e[1..], i - 1);
    } else if increment == 0 && i >= k + 1 {
      ReverseAt(e[k + 1..], i - (k + 1));
    }
  }

  lemma RearrangedMultiset<T>(a: seq<T>, x: T, y: T, b: seq<T>)
    ensures multiset(a + [y, x] + Reverse(b)) == multiset(a + [x, y] + b)
  {
    ReverseMultiset(b);
    calc {
      multiset(a + [y, x] + Reverse(b));
      multiset(a) + multiset([y, x]) + multiset(Reverse(b));
      multiset(a) + multiset([x, y]) + multiset(b);
      multiset(a + [x, y] + b);
    }
  }

  lemma TailReversedMultiset<T>(a: seq<T>, b: seq<T>)
    ensures multiset(a + Reverse(b)) == multiset(a + b)
  {
    ReverseMultiset(b);
  }

  /** Moving a tab keeps every editor exactly once. */
  lemma {:induction false} MovedTabPermutes<T>(e: seq<T>, k: nat, increment: int)
    requires k < |e|
    ensures multiset(MovedTab(e, k, increment)) == multiset(e)
  {
    if increment > 0 && k + 1 < |e| {
      SwapAndReverseMultiset(e, k);
    } else if increment < 0 && k > 0 {
      SwapAndReverseMultiset(e, k - 1);
    } else if increment <= 0 {
      ReverseAfterMultiset(e, if increment < 0 then 0 else k);
    }
  }

  lemma PairSplit<T>(e: seq<T>, k: nat)
    requires k + 1 < |e|
    ensures e == e[..k] + [e[k], e[k + 1]] + e[k + 2..]
  {
    assert e[k..] == [e[k], e[k + 1]] + e[k + 2..];
    assert e == e[..k] + e[k..];
  }

  lemma SwapAndReverseMultiset<T>(e: seq<T>, k: nat)
    requires k + 1 < |e|
    ensures multiset(SwapNextReverseRest(e, k)) == multiset(e)
  {
    RearrangedMultiset(e[..k], e[k], e[k + 1], e[k + 2..]);
    PairSplit(e, k);
  }

  lemma ReverseAfterMultiset<T>(e: seq<T>, k: nat)
    requires k < |e|
    ensures multiset(ReverseRest(e, k)) == multiset(e)
  {
    TailReversedMultiset(e[..k + 1], e[k + 1..]);
    assert e[..k + 1] + e[k + 1..] == e;
  }

  /** A right move that has a neighbour: the kept prefix and the neighbour, then the target and the rest reversed. */
  lemma RightMoveShape<T>(e: seq<T>, k: nat, increment: int)
    requires increment > 0 && k + 1 < |e|
    ensures var p := Reverse(e[k + 1..]);
      |p| > 0 && p[|p| - 1] == e[k + 1]
      && MovedTab(e, k, increment) == (e[..k] + [e[k + 1]]) + ([e[k]] + p[..|p| - 1])
  {
    var p := Reverse(e[k + 1..]);
    assert e[k + 1..][1..] == e[k + 2..];
    assert p == Reverse(e[k + 2..]) + [e[k + 1]];
    assert p[..|p| - 1] == Reverse(e[k + 2..]);
  }

  /** A left move that has a neighbour: the prefix before it and the target, then the neighbour and the rest reversed. */
  lemma LeftMoveShape<T>(e: seq<T>, k: nat, increment: int)
    requires increment < 0 && 0 < k < |e|
    ensures MovedTab(e, k, increment) == (e[..k - 1] + [e[k]]) + ([e[k - 1]] + Reverse(e[k + 1..]))
  {
    assert e[k - 1 + 2..] == e[k + 1..];
  }

  /** Every other move keeps the prefix and the target in place and reverses the rest. */
  lemma KeptMoveShape<T>(e: seq<T>, k: nat, increment: int)
    requires k < |e| && !(increment > 0 && k + 1 < |e|) && !(increment < 0 && k > 0)
    ensures MovedTab(e, k, increment) == (e[..k] + [e[k]]) + Reverse(e[k + 1..])
  {
    assert e[..k] + [e[k]] == e[..k + 1];
    if increment > 0 {
      assert e[k + 1..] == [];
    }
  }

  /** Moving a tab keeps the keys distinct. */
  lemma {:induction false} MovedTabDistinct(e: seq<Entry>, k: nat, increment: int)
    requires k < |e| && DistinctKeys(e)
    ensures DistinctKeys(MovedTab(e, k, increment))
  {
    var n := |e|;
    var r := MovedTab(e, k, increment);
    forall i, j | 0 <= i < j < n
      ensures r[i].0 != r[j].0
    {
      MovedTabAt(e, k, increment, i);
      MovedTabAt(e, k, increment, j);
      MovedFromInjective(n, k, increment, i, j);
      MovedFromInjective(n, k, increment, j, i);
      var si, sj := MovedFrom(n, k, increment, i), MovedFrom(n, k, increment, j);
      if si < sj { assert e[si].0 != e[sj].0; } else { assert e[sj].0 != e[si].0; }
    }
  }

  /** The tabs after the moved pair come back in reverse order: with four tabs, moving the first one right swaps the last two as well. */
  lemma MoveReversesLaterTabs<T>(e: seq<T>)
    requires |e| == 4
    ensures MovedTab(e, 0, 1) == [e[1], e[0], e[3], e[2]]
  {
    var tail := e[2..];
    ReverseAt(tail, 0);
    ReverseAt(tail, 1);
    assert Reverse(tail) == [e[3], e[2]];
  }

  /** The move the tab commands are evidently meant to make: the target swaps places with its neighbour and nothing else moves. */
  function SwappedTab<T>(e: seq<T>, k: nat, increment: int): (r: seq<T>)
    requires k < |e|
    ensures |r| == |e|
    ensures increment > 0 && k + 1 < |e| ==> r[k + 1] == e[k] && r[k] == e[k + 1]
    ensures increment < 0 && k > 0 ==> r[k - 1] == e[k] && r[k] == e[k - 1]
    ensures forall i :: 0 <= i < |e| && i != k && !(increment > 0 && i == k + 1) && !(increment < 0 && i == k - 1) ==> r[i] == e[i]
  {
    if increment > 0 && k + 1 < |e| then e[k := e[k + 1]][k + 1 := e[k]]
    else if increment < 0 && k > 0 then e[k := e[k - 1]][k - 1 := e[k]]
    else e
  }

  lemma SwappedMultiset<T>(a: seq<T>, x: T, y: T, b: seq<T>)
    ensures multiset(a + [y, x] + b) == multiset(a + [x, y] + b)
  {
    calc {
      multiset(a + [y, x] + b);
      multiset(a) + multiset([y, x]) + multiset(b);
      multiset(a) + multiset([x, y]) + multiset(b);
      multiset(a + [x, y] + b);
    }
  }

  /** Swapping two neighbours keeps the same entries. */
  lemma SwapNeighboursMultiset<T>(e: seq<T>, k: nat)
    requires k + 1 < |e|
    ensures multiset(e[k := e[k + 1]][k + 1 := e[k]]) == multiset(e)
  {
    var r := e[k := e[k + 1]][k + 1 := e[k]];
    SwappedMultiset(e[..k], e[k], e[k + 1], e[k + 2..]);
    PairSplit(e, k);
    assert r == e[..k] + [e[k + 1], e[k]] + e[k + 2..];
  }

  /** The intended move keeps every editor exactly once. */
  lemma {:induction false} SwappedTabPermutes<T>(e: seq<T>, k: nat, increment: int)
    requires k < |e|
    ensures multiset(SwappedTab(e, k, increment)) == multiset(e)
  {
    if increment > 0 && k + 1 < |e| {
      SwapNeighboursMultiset(e, k);
    } else if increment < 0 && k > 0 {
      SwapNeighboursMultiset(e, k - 1);
      assert e[k := e[k - 1]][k - 1 := e[k]] == e[k - 1 := e[k]][k := e[k - 1]];
    }
  }

  /** `ReconnectAndRepeat`: Execute and ListSchemas are repeated, through the messages that send them again, while `retries` is at most 3. */
  function RepeatMsg(q: Connection.DbRequest): (r: Option<Tui.Msg>)
    ensures r.Some? <==> (q.Execute? || q.ListSchemas?) && q.retries <= 3
    ensures r.Some? && q.Execute? ==> r.value == Tui.ExecuteQuery(EditorId(q.id, q.name), q.query, q.retries)
    ensures r.Some? && q.ListSchemas? ==> r.value == Tui.OpenDatabase(q.serverId, q.database, q.retries)
  {
    match q
    case Execute(s, db, query, n) => if n > 3 then None else Some(Tui.ExecuteQuery(EditorId(s, db), query, n))
    case ListSchemas(s, db, n) => if n > 3 then None else Some(Tui.OpenDatabase(s, db, n))
    case _ => None
  }

  /** The request the `ExecuteQuery` and `OpenDatabase` branches send to the worker. */
  function SentFor(m: Tui.Msg): Option<Connection.DbRequest>
  {
    match m
    case ExecuteQuery(e, query, n) => Some(Connection.Execute(e.serverId, e.database, query, n))
    case OpenDatabase(s, db, n) => Some(Connection.ListSchemas(s, db, n))
    case _ => None
  }

  /** What the model sends again for a request the worker asked to repeat; None when it gives up. */
  function Resend(original: Connection.DbRequest): (r: Option<Connection.DbRequest>)
    ensures r.Some? ==> r.value == original
    ensures r.Some? <==> (original.Execute? || original.ListSchemas?) && original.retries <= 3
  {
    match RepeatMsg(original)
    case None => None
    case Some(m) => SentFor(m)
  }

  /**
   * How many times the worker receives a request, counting its repeats,
   * when every attempt fails with an I/O error: the worker answers with the
   * request to replay (one more retry) and the model sends that again
   * unless it gives up.
   */
  function AttemptsUnderOutage(q: Connection.DbRequest): nat
    requires Connection.Replayable(q)
    decreases if q.retries <= 3 then 4 - q.retries else 0
  {
    match Resend(Connection.Replay(q))
    case None => 1
    case Some(next) => 1 + AttemptsUnderOutage(next)
  }

  /**
   * The retry ceiling: an Execute or ListSchemas request that starts with
   * `retries` r is attempted 4 - r times (once when r is 3 or more); a
   * ListTables request is never repeated.
   */
  lemma {:induction false} RetryCeiling(q: Connection.DbRequest)
    requires Connection.Replayable(q)
    ensures q.ListTables? ==> AttemptsUnderOutage(q) == 1
    ensures !q.ListTables? ==> AttemptsUnderOutage(q) == if q.retries >= 3 then 1 else 4 - q.retries
    decreases if q.retries <= 3 then 4 - q.retries else 0
  {
    var r := Connection.Replay(q);
    if Resend(r).Some? {
      RetryCeiling(r);
    }
  }

  /**
   * Every connection-is-down answer of the worker, for an I/O error or for a
   * missing connection, carries the request with one more retry, so the
   * model's repeat of it counts towards the ceiling.
   */
  lemma DownAnswersAdvance(c: Connection.Connections, q: Connection.DbRequest, d: Connection.DriverReply)
    requires !Connection.Panics(c, q, d) && Connection.Dispatch(c, q, d).response.ConnectionIsDown?
    ensures Connection.Replayable(q)
    ensures Resend(Connection.Dispatch(c, q, d).response.originalRequest)
      == if (q.Execute? || q.ListSchemas?) && q.retries + 1 <= 3 then Some(Connection.Replay(q)) else None
  {
    Connection.ReplaysIncrementRetries(c, q, d);
  }

  class Model {
    var queryEditors: seq<Entry>
    var shownEditor: Option<EditorId>
    /** The requests sent to the database worker, oldest first. */
    var sent: seq<Connection.DbRequest>
    /** The server store, by id. */
    const servers: map<Uuid, StoredServer>

    predicate Valid()
      reads this
    {
      && DistinctKeys(queryEditors)
      && (forall id :: id in servers ==> servers[id].id == id)
    }

    /** The store's server with a connection url, as `get_server(..).unwrap().unwrap()` and `get("url").expect(..)` demand. */
    predicate Connectable(id: Uuid)
    {
      id in servers && "url" in servers[id].connectionProperties
    }

    function Url(id: Uuid): string
      requires Connectable(id)
    {
      servers[id].connectionProperties["url"]
    }

    /**
     * `Model::new` with the servers and editors the store holds: the stored
     * editors are inserted in order (`restore_editors`) and the first tab,
     * if any, is shown (`activate_first_editor`). Nothing is sent.
     */
    constructor (store: map<Uuid, StoredServer>, stored: seq<StoredEditor>)
      requires forall id :: id in store ==> store[id].id == id
      ensures Valid() && servers == store && sent == []
      ensures queryEditors == Restored(stored)
      ensures shownEditor == if queryEditors == [] then None else Some(queryEditors[0].0)
    {
      servers := store;
      sent := [];
      var es: seq<Entry> := [];
      var i := 0;
      while i < |stored|
        invariant 0 <= i <= |stored|
        invariant es == Restored(stored[..i])
      {
        var entry := RestoredEntry(stored[i]);
        assert stored[..i + 1][..i] == stored[..i];
        es := Insert(es, entry.0, entry.1);
        i := i + 1;
      }
      assert stored[..i] == stored;
      RestoredSpec(stored);
      queryEditors := es;
      shownEditor := if es == [] then None else Some(es[0].0);
    }

    /** `get_or_set_shown_editor_id`: the shown editor, or else the first one, which becomes shown. */
    method GetOrSetShownEditorId() returns (r: Option<Tui.Id>)
      modifies this`shownEditor
      ensures old(shownEditor).Some? ==> shownEditor == old(shownEditor) && r == Some(Tui.Editor(shownEditor.value))
      ensures old(shownEditor).None? && queryEditors != [] ==>
        shownEditor == Some(queryEditors[0].0) && r == Some(Tui.Editor(queryEditors[0].0))
      ensures old(shownEditor).None? && queryEditors == [] ==> shownEditor.None? && r.None?
    {
      if shownEditor.Some? {
        return Some(Tui.Editor(shownEditor.value));
      }
      r := if queryEditors == [] then None else Some(Tui.Editor(queryEditors[0].0));
      if r.Some? && r.value.Editor? {
        shownEditor := Some(r.value.editor);
      }
    }

    /** `activate_first_editor`: the first editor becomes shown; with no editors nothing changes. */
    method ActivateFirstEditor()
      modifies this`shownEditor
      ensures shownEditor == if queryEditors == [] then old(shownEditor) else Some(queryEditors[0].0)
    {
      if queryEditors != [] {
        shownEditor := Some(queryEditors[0].0);
      }
    }

    /** `increment_editor`: the editor `increment` tabs away from the shown one, cyclically, becomes shown. */
    method IncrementEditor(increment: int)
      modifies this`shownEditor
      ensures shownEditor == Incremented(queryEditors, old(shownEditor), increment)
    {
      var current: Option<nat> := None;
      if shownEditor.Some? {
        current := Position(queryEditors, shownEditor.value);
      }
      if current.Some? {
        var next := current.value + increment;
        var nextIndex: nat := if next < 0 then |queryEditors| - 1 else if next >= |queryEditors| then 0 else next;
        shownEditor := Some(queryEditors[nextIndex].0);
      }
    }

    /** `pop_back_entry().unwrap()`. */
    method PopBackEntry() returns (x: Entry)
      requires queryEditors != []
      modifies this`queryEditors
      ensures old(queryEditors) == queryEditors + [x]
    {
      x := queryEditors[|queryEditors| - 1];
      queryEditors := queryEditors[..|queryEditors| - 1];
    }

    /** `insert` of a key that is not in the map: it goes to the end. */
    method InsertEntry(x: Entry)
      requires DistinctKeys(queryEditors + [x])
      modifies this`queryEditors
      ensures queryEditors == old(queryEditors) + [x]
    {
      forall i | 0 <= i < |queryEditors|
        ensures queryEditors[i].0 != x.0
      {
        assert (queryEditors + [x])[i] == queryEditors[i] && (queryEditors + [x])[|queryEditors|] == x;
      }
      InsertFresh(queryEditors, x);
      queryEditors := Insert(queryEditors, x.0, x.1);
    }

    /** The first loop of `move_editor_tab`: the last `count` entries are popped, last first. */
    method PopBackEntries(count: nat) returns (popped: seq<Entry>)
      requires count <= |queryEditors|
      modifies this`queryEditors
      ensures queryEditors == old(queryEditors)[..|old(queryEditors)| - count]
      ensures popped == Reverse(old(queryEditors)[|old(queryEditors)| - count..])
    {
      ghost var e := queryEditors;
      var n := |queryEditors|;
      popped := [];
      var i := 0;
      while i < count
        invariant 0 <= i <= count
        invariant queryEditors == e[..n - i]
        invariant popped == Reverse(e[n - i..])
      {
        assert e[n - i - 1..][1..] == e[n - i..];
        var last := PopBackEntry();
        popped := popped + [last];
        i := i + 1;
      }
    }

    /** The last loop of `move_editor_tab`: the popped entries are inserted in the order they were popped. */
    method InsertEntries(xs: seq<Entry>)
      requires DistinctKeys(queryEditors + xs)
      modifies this`queryEditors
      ensures queryEditors == old(queryEditors) + xs
    {
      ghost var base := queryEditors;
      var j := 0;
      while j < |xs|
        invariant 0 <= j <= |xs|
        invariant queryEditors == base + xs[..j]
      {
        assert (base + xs)[..|base| + j + 1] == queryEditors + [xs[j]];
        InsertEntry(xs[j]);
        assert xs[..j + 1] == xs[..j] + [xs[j]];
        j := j + 1;
      }
      assert xs[..j] == xs;
    }

    /** `move_editor_tab`: pops, swaps and re-inserts as the code does; an unknown id changes nothing. */
    method MoveEditorTab(editorId: EditorId, increment: int)
      requires Valid()
      modifies this`queryEditors
      ensures Valid()
      ensures Position(old(queryEditors), editorId).None? ==> queryEditors == old(queryEditors)
      ensures Position(old(queryEditors), editorId).Some? ==>
        queryEditors == MovedTab(old(queryEditors), Position(old(queryEditors), editorId).value, increment)
    {
      var index := Position(queryEditors, editorId);
      if index.None? {
        return;
      }
      MovedTabDistinct(queryEditors, index.value, increment);
      MoveEntryAt(index.value, increment);
    }

    /** The pops and re-inserts of `move_editor_tab` for the tab at position `k`. */
    method MoveEntryAt(k: nat, increment: int)
      requires k < |queryEditors| && DistinctKeys(queryEditors)
      modifies this`queryEditors
      ensures queryEditors == MovedTab(old(queryEditors), k, increment)
    {
      ghost var e := queryEditors;
      ghost var moved := MovedTab(e, k, increment);
      MovedTabDistinct(e, k, increment);
      var popped := PopBackEntries(|queryEditors| - k - 1);
      var target := PopBackEntry();
      assert queryEditors == e[..k] && target == e[k] && popped == Reverse(e[k + 1..]);
      if increment > 0 && popped != [] {
        RightMoveShape(e, k, increment);
        var neighbour := popped[|popped| - 1];
        popped := popped[..|popped| - 1];
        assert moved == (queryEditors + [neighbour]) + ([target] + popped);
        DistinctKeysSplit(queryEditors + [neighbour], [target] + popped);
        InsertEntry(neighbour);
        assert moved == (queryEditors + [target]) + popped;
      } else if increment < 0 && queryEditors != [] {
        LeftMoveShape(e, k, increment);
        var previous := PopBackEntry();
        assert queryEditors == e[..k - 1] && previous == e[k - 1] by {
          assert e[..k] == e[..k - 1] + [e[k - 1]];
        }
        assert moved == (queryEditors + [target]) + ([previous] + popped);
        DistinctKeysSplit(queryEditors + [target], [previous] + popped);
        InsertEntry(target);
        assert moved == (queryEditors + [previous]) + popped;
        target := previous;
      } else {
        KeptMoveShape(e, k, increment);
      }
      DistinctKeysSplit(queryEditors + [target], popped);
      InsertEntry(target);
      InsertEntries(popped);
    }

    /** `Msg::OpenQueryEditor`: an open tab only becomes shown; a new one is appended, shown and connected to its database. */
    method OpenQueryEditor(serverId: Uuid, database: string)
      requires Valid() && Connectable(serverId)
      modifies this`queryEditors, this`shownEditor, this`sent
      ensures Valid()
      ensures shownEditor == Some(EditorId(serverId, database))
      ensures EditorId(serverId, database) in Keys(old(queryEditors)) ==> queryEditors == old(queryEditors) && sent == old(sent)
      ensures EditorId(serverId, database) !in Keys(old(queryEditors)) ==>
        queryEditors == old(queryEditors) + [(EditorId(serverId, database), EditorMetadata(servers[serverId].name))]
        && sent == old(sent) + [Connection.ConnectToDatabase(serverId, database, Url(serverId))]
    {
      var server := servers[serverId];
      var editorId := EditorId(serverId, database);
      if Position(queryEditors, editorId).Some? {
        shownEditor := Some(editorId);
        return;
      }
      shownEditor := Some(editorId);
      InsertFresh(queryEditors, (editorId, EditorMetadata(server.name)));
      queryEditors := Insert(queryEditors, editorId, EditorMetadata(server.name));
      ConnectToDatabase(server, database);
    }

    /** `Msg::CloseTab`: the tab is removed; the first remaining tab is shown, or none when none remains. */
    method CloseTab(editorId: EditorId)
      requires Valid()
      modifies this`queryEditors, this`shownEditor
      ensures Valid()
      ensures queryEditors == Remove(old(queryEditors), editorId)
      ensures editorId !in Keys(queryEditors)
      ensures shownEditor.None? <==> queryEditors == []
      ensures queryEditors != [] ==> shownEditor == Some(queryEditors[0].0)
    {
      RemoveSpec(queryEditors, editorId);
      queryEditors := Remove(queryEditors, editorId);
      if queryEditors == [] {
        shownEditor := None;
      } else {
        ActivateFirstEditor();
      }
    }

    /** `connect_to_server`. */
    method ConnectToServer(server: StoredServer)
      requires "url" in server.connectionProperties
      modifies this`sent
      ensures sent == old(sent) + [Connection.ConnectToServer(server.id, server.connectionProperties["url"])]
    {
      sent := sent + [Connection.ConnectToServer(server.id, server.connectionProperties["url"])];
    }

    /** `connect_to_database`. */
    method ConnectToDatabase(server: StoredServer, database: string)
      requires "url" in server.connectionProperties
      modifies this`sent
      ensures sent == old(sent) + [Connection.ConnectToDatabase(server.id, database, server.connectionProperties["url"])]
    {
      sent := sent + [Connection.ConnectToDatabase(server.id, database, server.connectionProperties["url"])];
    }

    /** `reconnect`: connect to the editor's server, then to its database, in that order. */
    method Reconnect(editorId: EditorId)
      requires Valid() && Connectable(editorId.serverId)
      modifies this`sent
      ensures sent == old(sent) + [
        Connection.ConnectToServer(editorId.serverId, Url(editorId.serverId)),
        Connection.ConnectToDatabase(editorId.serverId, editorId.database, Url(editorId.serverId))]
    {
      var server := servers[editorId.serverId];
      ConnectToServer(server);
      ConnectToDatabase(server, editorId.database);
    }

    /** `Msg::ReconnectAndRepeat`: below the ceiling, reconnect and answer with the message that repeats the request. */
    method ReconnectAndRepeat(original: Connection.DbRequest) returns (r: Option<Tui.Msg>)
      requires Valid()
      requires RepeatMsg(original).Some? ==> Connectable(Connection.IdOf(original))
      modifies this`sent
      ensures r == RepeatMsg(original)
      ensures r.None? ==> sent == old(sent)
      ensures r.Some? ==> sent == old(sent) + [
        Connection.ConnectToServer(Connection.IdOf(original), Url(Connection.IdOf(original))),
        Connection.ConnectToDatabase(Connection.IdOf(original), Connection.KeyOf(original).name, Url(Connection.IdOf(original)))]
    {
      match original {
        case Execute(serverId, database, query, retries) =>
          if retries > 3 {
            return None;
          }
          Reconnect(EditorId(serverId, database));
          return Some(Tui.ExecuteQuery(EditorId(serverId, database), query, retries));
        case ListSchemas(serverId, database, retries) =>
          if retries > 3 {
            return None;
          }
          Reconnect(EditorId(serverId, database));
          return Some(Tui.OpenDatabase(serverId, database, retries));
        case _ =>
          return None;
      }
    }

    /** `Msg::ExecuteQuery`: the query goes to the worker for the editor's database. */
    method ExecuteQuery(editorId: EditorId, query: string, retries: int)
      modifies this`sent
      ensures sent == old(sent) + [SentFor(Tui.ExecuteQuery(editorId, query, retries)).value]
    {
      sent := sent + [Connection.Execute(editorId.serverId, editorId.database, query, retries)];
    }

    /** `Msg::OpenDatabase`: the worker is asked for the database's schemas. */
    method OpenDatabase(serverId: Uuid, database: string, retries: int)
      requires Valid() && serverId in servers
      modifies this`sent
      ensures sent == old(sent) + [SentFor(Tui.OpenDatabase(serverId, database, retries)).value]
    {
      var server := servers[serverId];
      sent := sent + [Connection.ListSchemas(server.id, database, retries)];
    }
  }
}
