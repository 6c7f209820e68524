/**
 The data structures behind a checkpoint: list nodes with identity, and the key index.

 A list iterator is the identity of a node: erasing or inserting other nodes leaves it valid.
 The index maps a key to its node and to the mutation id under which it was queued. These
 lemmas say that the index and the mutation ids agree with the plain entry list.
 */
module CheckpointNodes {
  import opened QueuedItems
  import opened CheckpointLog
  import opened CheckpointFacts

  datatype Node = Node(nid: nat, item: Item)

  datatype IndexEntry = IndexEntry(position: nat, mutationId: nat)

  type Index = map<Key, IndexEntry>

  /** The fields of a checkpoint object at one moment. */
  datatype ChkView = ChkView(
    id: nat, isOpen: bool, numItems: nat, cursors: set<string>, toWrite: seq<Node>, keyIndex: Index)

  /** Dereference of an iterator: where its node stands in the list. */
  function IndexOf(nodes: seq<Node>, nid: nat): (r: nat)
    ensures r <= |nodes|
    ensures r < |nodes| ==> nodes[r].nid == nid
    ensures forall i :: 0 <= i < r ==> nodes[i].nid != nid
  {
    if nodes == [] then 0 else if nodes[0].nid == nid then 0 else 1 + IndexOf(nodes[1..], nid)
  }

  ghost predicate SameItems(nodes: seq<Node>, items: seq<Item>) {
    |nodes| == |items| && forall i :: 0 <= i < |nodes| ==> nodes[i].item == items[i]
  }

  /** Node identities are unique and were handed out by the allocator. */
  ghost predicate NodesOk(nodes: seq<Node>, nc: nat) {
    && (forall i :: 0 <= i < |nodes| ==> nodes[i].nid < nc)
    && (forall i, j :: 0 <= i < j < |nodes| ==> nodes[i].nid != nodes[j].nid)
  }

  /** The index has exactly the keys of the list, each at its entry. */
  ghost predicate IndexOk(nodes: seq<Node>, idx: Index) {
    && (forall i :: 0 <= i < |nodes| && Keyed(nodes[i].item) ==>
          nodes[i].item.key in idx && idx[nodes[i].item.key].position == nodes[i].nid)
    && (forall k :: k in idx ==> k != "" && exists i :: 0 <= i < |nodes| && nodes[i].item.key == k)
  }

  /** Mutation ids were handed out by the counter and increase along the list. */
  ghost predicate MidsOk(nodes: seq<Node>, idx: Index, mc: nat) {
    && (forall k :: k in idx ==> idx[k].mutationId <= mc)
    && (forall i, j :: 0 <= i < j < |nodes| && nodes[i].item.key in idx && nodes[j].item.key in idx ==>
          idx[nodes[i].item.key].mutationId < idx[nodes[j].item.key].mutationId)
  }

  ghost predicate ListRep(nodes: seq<Node>, idx: Index, items: seq<Item>, mc: nat, nc: nat) {
    SameItems(nodes, items) && NodesOk(nodes, nc) && IndexOk(nodes, idx) && MidsOk(nodes, idx, mc)
  }

  ghost predicate ChkRep(v: ChkView, c: Chk, mc: nat, nc: nat) {
    && v.id == c.id && v.isOpen == c.open
    && ListRep(v.toWrite, v.keyIndex, c.items, mc, nc)
    && v.numItems == |v.keyIndex| == NumKeyed(c.items)
  }

  /** All mutations of one checkpoint are older than all mutations of the other. */
  ghost predicate Older(a: Index, b: Index) {
    forall k, l :: k in a && l in b ==> a[k].mutationId < b[l].mutationId
  }

  lemma {:induction false} IndexOfUnique(nodes: seq<Node>, nc: nat, i: nat)
    requires NodesOk(nodes, nc) && i < |nodes|
    ensures IndexOf(nodes, nodes[i].nid) == i
  {
  }

  /** A lookup in the index finds what a scan of the list finds. */
  lemma {:induction false} LookupIsScan(nodes: seq<Node>, idx: Index, items: seq<Item>, k: Key)
    requires SameItems(nodes, items) && IndexOk(nodes, idx) && DistinctKeys(items) && k != ""
    ensures k in idx <==> FindKey(items, k) < |items|
    ensures k in idx ==> idx[k].position == nodes[FindKey(items, k)].nid
  {
    if k in idx {
      var i :| 0 <= i < |nodes| && nodes[i].item.key == k;
      assert items[i].key == k;
      assert FindKey(items, k) == i;
    }
  }

  /** Comparing mutation ids is comparing positions. */
  lemma {:induction false} MidsComparePositions(nodes: seq<Node>, idx: Index, mc: nat, i: nat, j: nat)
    requires MidsOk(nodes, idx, mc) && i < |nodes| && j < |nodes|
    requires nodes[i].item.key in idx && nodes[j].item.key in idx
    ensures idx[nodes[i].item.key].mutationId <= idx[nodes[j].item.key].mutationId <==> i <= j
  {
  }

  // ---------------------------------------------------------------- appending

  lemma {:induction false} AppendMetaRep(nodes: seq<Node>, idx: Index, items: seq<Item>, mc: nat, nc: nat, it: Item)
    requires ListRep(nodes, idx, items, mc, nc) && !Keyed(it)
    ensures ListRep(nodes + [Node(nc, it)], idx, items + [it], mc + 1, nc + 1)
  {
    var r := nodes + [Node(nc, it)];
    assert "" !in idx;
    forall k | k in idx ensures exists i :: 0 <= i < |r| && r[i].item.key == k {
      var i :| 0 <= i < |nodes| && nodes[i].item.key == k;
      assert r[i].item.key == k;
    }
  }

  lemma {:induction false} AppendKeyedRep(nodes: seq<Node>, idx: Index, items: seq<Item>, mc: nat, nc: nat, it: Item)
    requires ListRep(nodes, idx, items, mc, nc) && Keyed(it) && it.key !in idx
    ensures ListRep(nodes + [Node(nc, it)], idx[it.key := IndexEntry(nc, mc + 1)], items + [it], mc + 1, nc + 1)
  {
    var r, idx' := nodes + [Node(nc, it)], idx[it.key := IndexEntry(nc, mc + 1)];
    assert r[|nodes|].item.key == it.key;
    forall k | k in idx' ensures k != "" && exists i :: 0 <= i < |r| && r[i].item.key == k {
      if k != it.key {
        var i :| 0 <= i < |nodes| && nodes[i].item.key == k;
        assert r[i].item.key == k;
      }
    }
  }

  /** The index only depends on node identities and keys. */
  lemma {:induction false} SameKeysRep(nodes: seq<Node>, nodes': seq<Node>, idx: Index, mc: nat, nc: nat)
    requires |nodes| == |nodes'|
    requires forall i :: 0 <= i < |nodes| ==> nodes'[i].nid == nodes[i].nid && nodes'[i].item.key == nodes[i].item.key
    requires NodesOk(nodes, nc) && IndexOk(nodes, idx) && MidsOk(nodes, idx, mc)
    ensures NodesOk(nodes', nc) && IndexOk(nodes', idx) && MidsOk(nodes', idx, mc)
  {
    forall k | k in idx ensures exists i :: 0 <= i < |nodes'| && nodes'[i].item.key == k {
      var i :| 0 <= i < |nodes| && nodes[i].item.key == k;
      assert nodes'[i].item.key == k;
    }
  }

  // ---------------------------------------------------------------- erasing

  lemma {:induction false} WithoutAt<T>(s: seq<T>, at: nat, i: nat)
    requires at < |s| && i < |s| - 1
    ensures Without(s, at)[i] == if i < at then s[i] else s[i + 1]
  {
  }

  lemma {:induction false} EraseSame(nodes: seq<Node>, items: seq<Item>, nc: nat, at: nat)
    requires SameItems(nodes, items) && NodesOk(nodes, nc) && at < |nodes|
    ensures SameItems(Without(nodes, at), Without(items, at)) && NodesOk(Without(nodes, at), nc)
  {
    var r := Without(nodes, at);
    forall i | 0 <= i < |r| ensures r[i].item == Without(items, at)[i] && r[i].nid < nc {
      WithoutAt(nodes, at, i);
      WithoutAt(items, at, i);
    }
    forall i, j | 0 <= i < j < |r| ensures r[i].nid != r[j].nid {
      WithoutAt(nodes, at, i);
      WithoutAt(nodes, at, j);
    }
  }

  lemma {:induction false} EraseIndex(nodes: seq<Node>, idx: Index, items: seq<Item>, at: nat)
    requires SameItems(nodes, items) && IndexOk(nodes, idx) && DistinctKeys(items)
    requires at < |nodes| && Keyed(nodes[at].item)
    ensures IndexOk(Without(nodes, at), idx - {nodes[at].item.key})
  {
    var r, key := Without(nodes, at), nodes[at].item.key;
    var idx' := idx - {key};
    forall i | 0 <= i < |r| && Keyed(r[i].item)
      ensures r[i].item.key in idx' && idx'[r[i].item.key].position == r[i].nid
    {
      WithoutAt(nodes, at, i);
      var j := if i < at then i else i + 1;
      assert items[j].key == r[i].item.key && items[at].key == key;
    }
    forall k | k in idx' ensures k != "" && exists i :: 0 <= i < |r| && r[i].item.key == k {
      var i :| 0 <= i < |nodes| && nodes[i].item.key == k;
      var j := if i < at then i else i - 1;
      WithoutAt(nodes, at, j);
      assert r[j].item.key == k;
    }
  }

  lemma {:induction false} EraseMids(nodes: seq<Node>, idx: Index, mc: nat, at: nat)
    requires MidsOk(nodes, idx, mc) && at < |nodes|
    ensures MidsOk(Without(nodes, at), idx - {nodes[at].item.key}, mc)
  {
    var r, idx' := Without(nodes, at), idx - {nodes[at].item.key};
    forall i, j | 0 <= i < j < |r| && r[i].item.key in idx' && r[j].item.key in idx'
      ensures idx'[r[i].item.key].mutationId < idx'[r[j].item.key].mutationId
    {
      WithoutAt(nodes, at, i);
      WithoutAt(nodes, at, j);
    }
  }

  lemma {:induction false} EraseRep(nodes: seq<Node>, idx: Index, items: seq<Item>, mc: nat, nc: nat, at: nat)
    requires ListRep(nodes, idx, items, mc, nc) && DistinctKeys(items)
    requires at < |nodes| && Keyed(nodes[at].item)
    ensures ListRep(Without(nodes, at), idx - {nodes[at].item.key}, Without(items, at), mc, nc)
  {
    hide NodesOk, IndexOk, MidsOk, DistinctKeys;
    EraseSame(nodes, items, nc, at);
    EraseIndex(nodes, idx, items, at);
    EraseMids(nodes, idx, mc, at);
  }

  // ---------------------------------------------------------------- merging

  function Inserted<T>(s: seq<T>, f: nat, x: T): seq<T>
    requires f <= |s|
  {
    s[..f] + [x] + s[f..]
  }

  lemma {:induction false} InsertedAt<T>(s: seq<T>, f: nat, x: T, i: nat)
    requires f <= |s| && i <= |s|
    ensures Inserted(s, f, x)[i] == if i < f then s[i] else if i == f then x else s[i - 1]
  {
  }

  lemma {:induction false} InsertSame(nodes: seq<Node>, items: seq<Item>, nc: nat, f: nat, it: Item)
    requires SameItems(nodes, items) && NodesOk(nodes, nc) && f <= |nodes|
    ensures SameItems(Inserted(nodes, f, Node(nc, it)), Inserted(items, f, it))
    ensures NodesOk(Inserted(nodes, f, Node(nc, it)), nc + 1)
  {
    var r := Inserted(nodes, f, Node(nc, it));
    forall i | 0 <= i < |r| ensures r[i].item == Inserted(items, f, it)[i] && r[i].nid < nc + 1 {
      InsertedAt(nodes, f, Node(nc, it), i);
      InsertedAt(items, f, it, i);
    }
    forall i, j | 0 <= i < j < |r| ensures r[i].nid != r[j].nid {
      InsertedAt(nodes, f, Node(nc, it), i);
      InsertedAt(nodes, f, Node(nc, it), j);
    }
  }

  lemma {:induction false} InsertIndex(nodes: seq<Node>, idx: Index, nc: nat, f: nat, it: Item, mid: nat)
    requires IndexOk(nodes, idx) && f <= |nodes| && Keyed(it) && it.key !in idx
    ensures IndexOk(Inserted(nodes, f, Node(nc, it)), idx[it.key := IndexEntry(nc, mid)])
  {
    var r, idx' := Inserted(nodes, f, Node(nc, it)), idx[it.key := IndexEntry(nc, mid)];
    forall i | 0 <= i < |r| && Keyed(r[i].item)
      ensures r[i].item.key in idx' && idx'[r[i].item.key].position == r[i].nid
    {
      InsertedAt(nodes, f, Node(nc, it), i);
    }
    InsertedAt(nodes, f, Node(nc, it), f);
    assert r[f].item.key == it.key;
    forall k | k in idx' ensures k != "" && exists i :: 0 <= i < |r| && r[i].item.key == k {
      if k != it.key {
        var i :| 0 <= i < |nodes| && nodes[i].item.key == k;
        var j := if i < f then i else i + 1;
        InsertedAt(nodes, f, Node(nc, it), j);
        assert r[j].item.key == k;
      }
    }
  }

  lemma {:induction false} InsertMids(nodes: seq<Node>, idx: Index, mc: nat, nc: nat, f: nat, it: Item, mid: nat)
    requires MidsOk(nodes, idx, mc) && f <= |nodes| && it.key !in idx && mid <= mc && Keyed(it)
    requires forall i :: 0 <= i < f ==> !Keyed(nodes[i].item)
    requires forall i :: 0 <= i < |nodes| && nodes[i].item.key in idx ==> Keyed(nodes[i].item)
    requires forall i :: 0 <= i < |nodes| ==> nodes[i].item.key != it.key
    requires forall k :: k in idx ==> mid < idx[k].mutationId
    ensures MidsOk(Inserted(nodes, f, Node(nc, it)), idx[it.key := IndexEntry(nc, mid)], mc)
  {
    var r, idx' := Inserted(nodes, f, Node(nc, it)), idx[it.key := IndexEntry(nc, mid)];
    forall i, j | 0 <= i < j < |r| && r[i].item.key in idx' && r[j].item.key in idx'
      ensures idx'[r[i].item.key].mutationId < idx'[r[j].item.key].mutationId
    {
      InsertedAt(nodes, f, Node(nc, it), i);
      InsertedAt(nodes, f, Node(nc, it), j);
    }
  }

  /** Insert a mutation older than all others in front of them. */
  lemma {:induction false} InsertRep(
      nodes: seq<Node>, idx: Index, items: seq<Item>, mc: nat, nc: nat, f: nat, it: Item, mid: nat)
    requires ListRep(nodes, idx, items, mc, nc) && f == FirstKeyed(items)
    requires Keyed(it) && it.key !in idx && mid <= mc
    requires forall k :: k in idx ==> mid < idx[k].mutationId
    ensures ListRep(Inserted(nodes, f, Node(nc, it)), idx[it.key := IndexEntry(nc, mid)], Inserted(items, f, it), mc, nc + 1)
  {
    hide NodesOk, MidsOk, Inserted;
    assert forall i :: 0 <= i < f ==> !Keyed(nodes[i].item);
    assert "" !in idx;
    assert forall i :: 0 <= i < |nodes| ==> nodes[i].item.key != it.key;
    InsertSame(nodes, items, nc, f, it);
    InsertIndex(nodes, idx, nc, f, it, mid);
    InsertMids(nodes, idx, mc, nc, f, it, mid);
  }
}
