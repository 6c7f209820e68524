/**
 Merging one checkpoint into the next: what the loop from the back of the older checkpoint
 does to the list nodes, the key index and the mutation ids of the newer one.
 */
module CheckpointMerging {
  import opened QueuedItems
  import opened CheckpointLog
  import opened CheckpointFacts
  import opened CheckpointReplay
  import opened CheckpointNodes

  /** The newer checkpoint after one entry of the older one was considered; `f` is its first mutation. */
  function MergeNode(v: ChkView, prev: ChkView, it: Item, f: nat, nc: nat): ChkView
    requires f <= |v.toWrite|
  {
    if it.key == "" || it.key in v.keyIndex then v
    else
      var mid := if it.key in prev.keyIndex then prev.keyIndex[it.key].mutationId else 0;
      v.(numItems := v.numItems + 1,
         toWrite := Inserted(v.toWrite, f, Node(nc, it)),
         keyIndex := v.keyIndex[it.key := IndexEntry(nc, mid)])
  }

  /** The mutations of `prev` before position `j` are older than everything in `idx`. */
  ghost predicate OlderUpTo(prev: ChkView, j: nat, idx: Index) {
    forall i, k :: 0 <= i < j && i < |prev.toWrite| && prev.toWrite[i].item.key in prev.keyIndex && k in idx ==>
      prev.keyIndex[prev.toWrite[i].item.key].mutationId < idx[k].mutationId
  }

  /** Every mutation id of `idx` comes from one of two indexes. */
  ghost predicate MidsFrom(idx: Index, a: Index, b: Index) {
    forall k :: k in idx ==>
      || (k in a && idx[k].mutationId == a[k].mutationId)
      || (k in b && idx[k].mutationId == b[k].mutationId)
  }

  /** The old nodes are still there; those from `f` on moved right by `added`. */
  ghost predicate KeptNodes(before: seq<Node>, after: seq<Node>, f: nat, added: nat) {
    && f <= |before| && |after| == |before| + added
    && (forall i :: 0 <= i < f ==> after[i] == before[i])
    && (forall i :: f <= i < |before| ==> after[i + added] == before[i])
  }

  // ---------------------------------------------------------------- the entry list

  lemma {:induction false} MissingStep(prev: seq<Item>, cur: seq<Item>, j: nat)
    requires 0 < j <= |prev|
    ensures var it := prev[j - 1];
            Missing(prev[j - 1..], cur)
            == (if Keyed(it) && FindKey(cur, it.key) == |cur| then [it] else []) + Missing(prev[j..], cur)
  {
    assert prev[j - 1..][0] == prev[j - 1];
    assert prev[j - 1..][1..] == prev[j..];
  }

  /** The entry considered next is not among those already merged. */
  lemma {:induction false} NotYetMerged(prev: seq<Item>, cur: seq<Item>, j: nat)
    requires 0 < j <= |prev| && DistinctKeys(prev) && Keyed(prev[j - 1])
    ensures HasKey(Merge(prev[j..], cur), prev[j - 1].key) <==> FindKey(cur, prev[j - 1].key) < |cur|
  {
    var k, f, m, r := prev[j - 1].key, FirstKeyed(cur), Missing(prev[j..], cur), Merge(prev[j..], cur);
    MissingFromPrev(prev[j..], cur, k);
    assert !HasKey(prev[j..], k) by {
      forall i | 0 <= i < |prev[j..]| ensures prev[j..][i].key != k {
        assert prev[j..][i] == prev[j + i];
      }
    }
    if HasKey(r, k) {
      var i :| 0 <= i < |r| && r[i].key == k;
      MergeAt(prev[j..], cur, i);
    }
    var at := FindKey(cur, k);
    if at < |cur| {
      MergeAt(prev[j..], cur, if at < f then at else at + |m|);
    }
  }

  lemma {:induction false} HasKeyIsFound(items: seq<Item>, k: Key)
    ensures HasKey(items, k) <==> FindKey(items, k) < |items|
  {
  }

  lemma {:induction false} MergeGrows(prev: seq<Item>, cur: seq<Item>, j: nat)
    requires 0 < j <= |prev| && Keyed(prev[j - 1]) && FindKey(cur, prev[j - 1].key) == |cur|
    ensures FirstKeyed(cur) <= |Merge(prev[j..], cur)|
    ensures Merge(prev[j - 1..], cur) == Inserted(Merge(prev[j..], cur), FirstKeyed(cur), prev[j - 1])
  {
    hide Missing, FirstKeyed, FindKey;
    var it, f, m := prev[j - 1], FirstKeyed(cur), Missing(prev[j..], cur);
    MissingStep(prev, cur, j);
    InsertedBetween(cur[..f], it, m, cur[f..]);
  }

  lemma {:induction false} InsertedBetween<T>(a: seq<T>, x: T, m: seq<T>, b: seq<T>)
    ensures Inserted(a + m + b, |a|, x) == a + ([x] + m) + b
  {
    var r := a + m + b;
    assert r[..|a|] == a && r[|a|..] == m + b;
  }

  /** The two halves of a step: an entry is inserted, or the merged list stays as it is. */
  lemma {:induction false} MergeStays(prev: seq<Item>, cur: seq<Item>, j: nat)
    requires 0 < j <= |prev| && (!Keyed(prev[j - 1]) || FindKey(cur, prev[j - 1].key) < |cur|)
    ensures Merge(prev[j - 1..], cur) == Merge(prev[j..], cur)
  {
    MissingStep(prev, cur, j);
    assert [] + Missing(prev[j..], cur) == Missing(prev[j..], cur);
  }

  // ---------------------------------------------------------------- one step on the representation

  lemma {:induction false} MergeLookup(v: ChkView, c: Chk, prev: seq<Item>, cur: seq<Item>, j: nat, mc: nat, nc: nat)
    requires 0 < j <= |prev| && DistinctKeys(prev) && Keyed(prev[j - 1])
    requires ChkRep(v, c, mc, nc) && c.items == Merge(prev[j..], cur) && DistinctKeys(c.items)
    ensures prev[j - 1].key in v.keyIndex <==> FindKey(cur, prev[j - 1].key) < |cur|
  {
    hide NumKeyed, NodesOk, MidsOk, DistinctKeys, Merge;
    LookupIsScan(v.toWrite, v.keyIndex, c.items, prev[j - 1].key);
    NotYetMerged(prev, cur, j);
    HasKeyIsFound(c.items, prev[j - 1].key);
  }

  lemma {:induction false} MergeInsertRep(v: ChkView, items: seq<Item>, prev: ChkView, it: Item, mc: nat, nc: nat)
    requires ListRep(v.toWrite, v.keyIndex, items, mc, nc) && Keyed(it) && it.key !in v.keyIndex
    requires it.key in prev.keyIndex && prev.keyIndex[it.key].mutationId <= mc
    requires forall k :: k in v.keyIndex ==> prev.keyIndex[it.key].mutationId < v.keyIndex[k].mutationId
    ensures |v.toWrite| == |items|
    ensures var v' := MergeNode(v, prev, it, FirstKeyed(items), nc);
            && ListRep(v'.toWrite, v'.keyIndex, Inserted(items, FirstKeyed(items), it), mc, nc + 1)
            && |v'.keyIndex| == |v.keyIndex| + 1
  {
    hide NodesOk, IndexOk, MidsOk, FirstKeyed, Inserted;
    InsertRep(v.toWrite, v.keyIndex, items, mc, nc, FirstKeyed(items), it, prev.keyIndex[it.key].mutationId);
    var e := IndexEntry(nc, prev.keyIndex[it.key].mutationId);
    assert v.keyIndex[it.key := e].Keys == v.keyIndex.Keys + {it.key};
    assert |v.keyIndex[it.key := e]| == |v.keyIndex[it.key := e].Keys| && |v.keyIndex| == |v.keyIndex.Keys|;
  }

  lemma {:induction false} LaterList(nodes: seq<Node>, idx: Index, items: seq<Item>, mc: nat, nc: nat, nc': nat)
    requires ListRep(nodes, idx, items, mc, nc) && nc <= nc'
    ensures ListRep(nodes, idx, items, mc, nc')
  {
  }

  /** One pass of the merge loop. */
  lemma {:induction false} MergeStepRep(v: ChkView, c: Chk, prev: ChkView, pc: Chk, j: nat, mc: nat, nc: nat, pnc: nat)
    requires ChkInv(c) && ChkInv(pc) && ChkRep(prev, pc, mc, pnc) && 0 < j <= |pc.items|
    requires ChkRep(v, c.(items := Merge(pc.items[j..], c.items)), mc, nc)
    requires DistinctKeys(Merge(pc.items[j..], c.items)) && OlderUpTo(prev, j, v.keyIndex)
    ensures FirstKeyed(c.items) <= |v.toWrite|
    ensures var it := pc.items[j - 1];
            var v' := MergeNode(v, prev, it, FirstKeyed(c.items), nc);
            && ChkRep(v', c.(items := Merge(pc.items[j - 1..], c.items)), mc, nc + 1)
            && (Keyed(it) && it.key !in v.keyIndex <==> Keyed(it) && FindKey(c.items, it.key) == |c.items|)
  {
    hide ChkInv, NodesOk, IndexOk, MidsOk, DistinctKeys, Merge, Inserted, FirstKeyed, NumKeyed, ListRep, OlderUpTo;
    var it, cur, items := pc.items[j - 1], c.items, Merge(pc.items[j..], c.items);
    MergeKeepsFirst(pc.items[j..], cur);
    ChkParts(pc);
    assert |v.toWrite| == |items| by { RepLength(v.toWrite, v.keyIndex, items, mc, nc); }
    if Keyed(it) {
      MergeLookup(v, c.(items := items), pc.items, cur, j, mc, nc);
    }
    LaterList(v.toWrite, v.keyIndex, items, mc, nc, nc + 1);
    if Keyed(it) && it.key !in v.keyIndex {
      PrevEntry(prev, pc, mc, pnc, j, v.keyIndex);
      MergeInsertRep(v, items, prev, it, mc, nc);
      MergeGrows(pc.items, cur, j);
      InsertedKeyed(items, FirstKeyed(cur), it);
    } else {
      MergeStays(pc.items, cur, j);
    }
  }

  lemma {:induction false} RepLength(nodes: seq<Node>, idx: Index, items: seq<Item>, mc: nat, nc: nat)
    requires ListRep(nodes, idx, items, mc, nc)
    ensures |nodes| == |items|
  {
  }

  lemma {:induction false} PrevEntry(prev: ChkView, pc: Chk, mc: nat, pnc: nat, j: nat, idx: Index)
    requires ChkRep(prev, pc, mc, pnc) && 0 < j <= |pc.items| && Keyed(pc.items[j - 1]) && OlderUpTo(prev, j, idx)
    ensures pc.items[j - 1].key in prev.keyIndex
    ensures prev.keyIndex[pc.items[j - 1].key].mutationId <= mc
    ensures forall k :: k in idx ==> prev.keyIndex[pc.items[j - 1].key].mutationId < idx[k].mutationId
  {
    hide NumKeyed;
    assert prev.toWrite[j - 1].item == pc.items[j - 1];
  }

  lemma {:induction false} InsertedKeyed(items: seq<Item>, f: nat, it: Item)
    requires f <= |items| && Keyed(it)
    ensures NumKeyed(Inserted(items, f, it)) == NumKeyed(items) + 1
  {
    assert items == items[..f] + items[f..];
    NumKeyedConcat(items[..f], items[f..]);
    NumKeyedConcat(items[..f] + [it], items[f..]);
    NumKeyedSnoc(items[..f], it);
  }

  lemma {:induction false} MergeStepOlder(v: ChkView, prev: ChkView, pc: Chk, j: nat, f: nat, mc: nat, nc: nat, pnc: nat)
    requires ChkRep(prev, pc, mc, pnc) && 0 < j <= |pc.items| && f <= |v.toWrite|
    requires OlderUpTo(prev, j, v.keyIndex)
    ensures OlderUpTo(prev, j - 1, MergeNode(v, prev, pc.items[j - 1], f, nc).keyIndex)
  {
    hide NumKeyed, NodesOk, Inserted;
    var it := pc.items[j - 1];
    assert prev.toWrite[j - 1].item == it;
  }

  lemma {:induction false} MergeStepFrom(v: ChkView, prev: ChkView, pc: Chk, j: nat, f: nat, mc: nat, nc: nat, pnc: nat, a: Index)
    requires ChkRep(prev, pc, mc, pnc) && 0 < j <= |pc.items| && f <= |v.toWrite|
    requires MidsFrom(v.keyIndex, a, prev.keyIndex)
    ensures MidsFrom(MergeNode(v, prev, pc.items[j - 1], f, nc).keyIndex, a, prev.keyIndex)
  {
    hide NumKeyed, NodesOk, MidsOk, Inserted;
    assert prev.toWrite[j - 1].item == pc.items[j - 1];
  }

  lemma {:induction false} MergeStepKept(v: ChkView, prev: ChkView, it: Item, nodes: seq<Node>, f: nat, added: nat, nc: nat)
    requires KeptNodes(nodes, v.toWrite, f, added)
    ensures KeptNodes(nodes, MergeNode(v, prev, it, f, nc).toWrite, f,
                      added + if it.key != "" && it.key !in v.keyIndex then 1 else 0)
  {
    if it.key != "" && it.key !in v.keyIndex {
      var r := Inserted(v.toWrite, f, Node(nc, it));
      forall i | 0 <= i < f ensures r[i] == nodes[i] {
        InsertedAt(v.toWrite, f, Node(nc, it), i);
      }
      forall i | f <= i < |nodes| ensures r[i + (added + 1)] == nodes[i] {
        InsertedAt(v.toWrite, f, Node(nc, it), i + added + 1);
      }
    }
  }

  // ---------------------------------------------------------------- the whole loop

  /** The loop invariant: the entries of `prev` from `j` on are merged. */
  ghost predicate Merging(
      v: ChkView, v0: ChkView, c: Chk, prev: ChkView, pc: Chk, j: nat, added: nat, mc: nat, nc: nat)
  {
    && j <= |pc.items|
    && ChkRep(v, c.(items := Merge(pc.items[j..], c.items)), mc, nc)
    && OlderUpTo(prev, j, v.keyIndex)
    && MidsFrom(v.keyIndex, v0.keyIndex, prev.keyIndex)
    && KeptNodes(v0.toWrite, v.toWrite, FirstKeyed(c.items), added)
    && added == |Missing(pc.items[j..], c.items)|
    && v.cursors == v0.cursors
  }

  lemma {:induction false} MergeStarts(v0: ChkView, c: Chk, prev: ChkView, pc: Chk, mc: nat, nc: nat)
    requires ChkRep(v0, c, mc, nc) && ChkRep(prev, pc, mc, nc) && Older(prev.keyIndex, v0.keyIndex)
    ensures Merging(v0, v0, c, prev, pc, |pc.items|, 0, mc, nc)
  {
    hide NodesOk, IndexOk, MidsOk, NumKeyed;
    assert pc.items[|pc.items|..] == [];
    var f := FirstKeyed(c.items);
    assert c.items[..f] + [] + c.items[f..] == c.items;
  }

  lemma {:induction false} SuffixDistinct(items: seq<Item>, j: nat)
    requires DistinctKeys(items) && j <= |items|
    ensures DistinctKeys(items[j..])
  {
    var r := items[j..];
    forall a, b | 0 <= a < b < |r| && Keyed(r[a]) ensures r[a].key != r[b].key {
      assert r[a] == items[j + a] && r[b] == items[j + b];
    }
  }

  lemma {:induction false} MergePass(
      v: ChkView, v0: ChkView, c: Chk, prev: ChkView, pc: Chk, j: nat, added: nat, mc: nat, nc: nat, pnc: nat)
    requires ChkInv(c) && ChkInv(pc) && ChkRep(prev, pc, mc, pnc) && 0 < j
    requires Merging(v, v0, c, prev, pc, j, added, mc, nc)
    ensures j <= |pc.items| == |prev.toWrite| && FirstKeyed(c.items) <= |v.toWrite|
    ensures var it, f := pc.items[j - 1], FirstKeyed(c.items);
            Merging(MergeNode(v, prev, it, f, nc), v0, c, prev, pc, j - 1,
                    added + if it.key != "" && it.key !in v.keyIndex then 1 else 0, mc, nc + 1)
  {
    hide ChkInv, DistinctKeys, Merge, ChkRep, OlderUpTo, MidsFrom, KeptNodes, FirstKeyed;
    var it, f := pc.items[j - 1], FirstKeyed(c.items);
    ChkParts(c);
    ChkParts(pc);
    SuffixDistinct(pc.items, j);
    MergeDistinct(pc.items[j..], c.items);
    MergeStepRep(v, c, prev, pc, j, mc, nc, pnc);
    MergeStepOlder(v, prev, pc, j, f, mc, nc, pnc);
    MergeStepFrom(v, prev, pc, j, f, mc, nc, pnc, v0.keyIndex);
    MergeStepKept(v, prev, it, v0.toWrite, f, added, nc);
    MissingStep(pc.items, c.items, j);
    assert |pc.items| == |prev.toWrite| by { ChkRepLength(prev, pc, mc, pnc); }
  }

  lemma {:induction false} ChkRepLength(v: ChkView, c: Chk, mc: nat, nc: nat)
    requires ChkRep(v, c, mc, nc)
    ensures SameItems(v.toWrite, c.items)
  {
  }

  lemma {:induction false} MergeEnds(
      v: ChkView, v0: ChkView, c: Chk, prev: ChkView, pc: Chk, added: nat, mc: nat, nc: nat)
    requires Merging(v, v0, c, prev, pc, 0, added, mc, nc)
    ensures ChkRep(v, c.(items := Merge(pc.items, c.items)), mc, nc)
    ensures MidsFrom(v.keyIndex, v0.keyIndex, prev.keyIndex) && v.cursors == v0.cursors
    ensures KeptNodes(v0.toWrite, v.toWrite, FirstKeyed(c.items), added) && added == |Missing(pc.items, c.items)|
  {
    hide ChkRep, MidsFrom, KeptNodes, Merge, Missing, OlderUpTo;
    assert pc.items[0..] == pc.items;
  }

  /** The first mutation of the list being merged into stays where it is. */
  lemma {:induction false} MergingFirst(
      v: ChkView, v0: ChkView, c: Chk, prev: ChkView, pc: Chk, j: nat, added: nat, mc: nat, nc: nat)
    requires Merging(v, v0, c, prev, pc, j, added, mc, nc)
    ensures SameItems(v.toWrite, Merge(pc.items[j..], c.items))
    ensures FirstKeyed(Merge(pc.items[j..], c.items)) == FirstKeyed(c.items)
  {
    hide NodesOk, IndexOk, MidsOk, NumKeyed, OlderUpTo, MidsFrom, KeptNodes, Merge, Missing;
    MergeKeepsFirst(pc.items[j..], c.items);
  }

  lemma {:induction false} FromOlder(idx: Index, a: Index, b: Index, other: Index)
    requires MidsFrom(idx, a, b)
    ensures Older(other, a) && Older(other, b) ==> Older(other, idx)
    ensures Older(a, other) && Older(b, other) ==> Older(idx, other)
  {
  }

  // ---------------------------------------------------------------- several checkpoints

  /** Merging an older checkpoint last is merging it into the merge of the others. */
  lemma {:induction false} MergeAllHead(a: Chk, rest: seq<Chk>, cur: seq<Item>)
    ensures MergeAll([a] + rest, cur) == Merge(a.items, MergeAll(rest, cur))
    decreases |rest|
  {
    hide Merge;
    var all := [a] + rest;
    if rest == [] {
      assert all == [a] && all[..0] == [];
    } else {
      var l := |rest| - 1;
      assert all[..|all| - 1] == [a] + rest[..l];
      assert all[|all| - 1] == rest[l];
      MergeAllHead(a, rest[..l], Merge(rest[l].items, cur));
    }
  }

  lemma {:induction false} MergeAllStep(chks: seq<Chk>, j: nat, lc: nat, cur: seq<Item>)
    requires 0 < j <= lc <= |chks|
    ensures MergeAll(chks[j - 1..lc], cur) == Merge(chks[j - 1].items, MergeAll(chks[j..lc], cur))
  {
    hide Merge, MergeAll;
    assert chks[j - 1..lc] == [chks[j - 1]] + chks[j..lc];
    MergeAllHead(chks[j - 1], chks[j..lc], cur);
  }

  lemma {:induction false} MergeAllFirst(chks: seq<Chk>, cur: seq<Item>)
    ensures FirstKeyed(MergeAll(chks, cur)) == FirstKeyed(cur)
    decreases |chks|
  {
    hide Merge, FirstKeyed;
    if chks != [] {
      MergeKeepsFirst(chks[|chks| - 1].items, cur);
      MergeAllFirst(chks[..|chks| - 1], Merge(chks[|chks| - 1].items, cur));
    }
  }

  lemma {:induction false} KeptTwice(a: seq<Node>, b: seq<Node>, c: seq<Node>, f: nat, m: nat, n: nat)
    requires KeptNodes(a, b, f, m) && KeptNodes(b, c, f, n)
    ensures KeptNodes(a, c, f, m + n)
  {
    forall i | f <= i < |a| ensures c[i + (m + n)] == a[i] {
      assert c[(i + m) + n] == b[i + m] == a[i];
    }
  }
}
