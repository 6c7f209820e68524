/**
 The write queue of the flusher: what is on it for a key of a vbucket, and the deduplication
 of the items fetched for one flush.
 */
module FlushQueue {
  import opened Options
  import opened QueuedItems

  /** An item on its way to disk. */
  datatype Write = Write(vb: nat, item: Item)

  function ItemsFor(ws: seq<Write>, v: nat): seq<Item> {
    if ws == [] then []
    else ItemsFor(ws[..|ws| - 1], v) + if ws[|ws| - 1].vb == v then [ws[|ws| - 1].item] else []
  }

  /** The last write for a key of a vbucket. */
  function LastWrite(ws: seq<Write>, v: nat, k: Key): Option<Change> {
    Replay(ItemsFor(ws, v), k)
  }

  function Copies(ws: seq<Write>, v: nat, k: Key): nat {
    if ws == [] then 0
    else Copies(ws[..|ws| - 1], v, k) + if ws[|ws| - 1].vb == v && ws[|ws| - 1].item.key == k then 1 else 0
  }

  lemma {:induction false} ItemsForConcat(a: seq<Write>, b: seq<Write>, v: nat)
    ensures ItemsFor(a + b, v) == ItemsFor(a, v) + ItemsFor(b, v)
  {
    if b == [] {
      assert a + b == a;
    } else {
      assert (a + b)[..|a + b| - 1] == a + b[..|b| - 1];
      ItemsForConcat(a, b[..|b| - 1], v);
    }
  }

  lemma {:induction false} LastWriteConcat(a: seq<Write>, b: seq<Write>, v: nat, k: Key)
    ensures LastWrite(a + b, v, k) == if LastWrite(b, v, k).Some? then LastWrite(b, v, k) else LastWrite(a, v, k)
  {
    ItemsForConcat(a, b, v);
    ReplayConcat(ItemsFor(a, v), ItemsFor(b, v), k);
  }

  lemma {:induction false} CopiesConcat(a: seq<Write>, b: seq<Write>, v: nat, k: Key)
    ensures Copies(a + b, v, k) == Copies(a, v, k) + Copies(b, v, k)
  {
    if b == [] {
      assert a + b == a;
    } else {
      assert (a + b)[..|a + b| - 1] == a + b[..|b| - 1];
      CopiesConcat(a, b[..|b| - 1], v, k);
    }
  }

  lemma {:induction false} SingleWrite(w: Write, v: nat, k: Key)
    ensures LastWrite([w], v, k) == if w.vb == v && w.item.key == k then Some(ChangeOf(w.item)) else None
    ensures Copies([w], v, k) == if w.vb == v && w.item.key == k then 1 else 0
  {
    assert [w][..0] == [];
    assert ItemsFor([w], v) == if w.vb == v then [w.item] else [];
    assert [w.item][..0] == [];
    assert Replay([w.item], k) == if w.item.key == k then Some(ChangeOf(w.item)) else None;
  }

  lemma {:induction false} NoCopyNoWrite(ws: seq<Write>, v: nat, k: Key)
    ensures Copies(ws, v, k) == 0 <==> LastWrite(ws, v, k) == None
  {
    if ws != [] {
      var init, w := ws[..|ws| - 1], ws[|ws| - 1];
      assert ws == init + [w];
      NoCopyNoWrite(init, v, k);
      LastWriteConcat(init, [w], v, k);
      SingleWrite(w, v, k);
    }
  }

  /** With one copy of a key at most, moving an item to the end of the queue does not change what is written last. */
  lemma {:induction false} Rotate(w: Write, ws: seq<Write>, v: nat, k: Key)
    requires Copies([w] + ws, v, k) <= 1
    ensures Copies(ws + [w], v, k) == Copies([w] + ws, v, k)
    ensures LastWrite(ws + [w], v, k) == LastWrite([w] + ws, v, k)
  {
    hide Copies, LastWrite;
    CopiesConcat([w], ws, v, k);
    CopiesConcat(ws, [w], v, k);
    LastWriteConcat([w], ws, v, k);
    LastWriteConcat(ws, [w], v, k);
    SingleWrite(w, v, k);
    NoCopyNoWrite(ws, v, k);
  }

  // ---------------------------------------------------------------- one batch

  predicate IsWrite(it: Item) {
    it.op == OpSet || it.op == OpDel
  }

  /** The last set or deletion of a key. */
  function LastMutation(items: seq<Item>, k: Key): Option<Item> {
    if items == [] then None
    else if IsWrite(items[|items| - 1]) && items[|items| - 1].key == k then Some(items[|items| - 1])
    else LastMutation(items[..|items| - 1], k)
  }

  lemma {:induction false} LastMutationConcat(a: seq<Item>, b: seq<Item>, k: Key)
    ensures LastMutation(a + b, k) == if LastMutation(b, k).Some? then LastMutation(b, k) else LastMutation(a, k)
  {
    if b == [] {
      assert a + b == a;
    } else {
      assert (a + b)[..|a + b| - 1] == a + b[..|b| - 1];
      LastMutationConcat(a, b[..|b| - 1], k);
    }
  }

  lemma {:induction false} LastMutationOne(it: Item, k: Key)
    ensures LastMutation([it], k) == if IsWrite(it) && it.key == k then Some(it) else None
  {
    assert [it][..0] == [];
  }

  lemma {:induction false} LastMutationKey(items: seq<Item>, k: Key)
    ensures LastMutation(items, k).Some? ==> LastMutation(items, k).value.key == k
  {
    if items != [] {
      LastMutationKey(items[..|items| - 1], k);
    }
  }

  ghost predicate KeysDistinct(items: seq<Item>) {
    forall i, j :: 0 <= i < j < |items| ==> items[i].key != items[j].key
  }

  /** Exactly the last set or deletion of every key, once. */
  ghost predicate IsDeduplicated(items: seq<Item>, kept: seq<Item>) {
    && KeysDistinct(kept)
    && forall it :: it in kept <==> LastMutation(items, it.key) == Some(it)
  }

  lemma {:induction false} DedupStep(it: Item, rest: seq<Item>, kept: seq<Item>)
    requires IsDeduplicated(rest, kept)
    ensures (exists j :: 0 <= j < |kept| && kept[j].key == it.key) <==> LastMutation(rest, it.key).Some?
    ensures IsDeduplicated([it] + rest,
              if IsWrite(it) && LastMutation(rest, it.key).None? then kept + [it] else kept)
  {
    if LastMutation(rest, it.key).Some? {
      LastMutationKey(rest, it.key);
      var x := LastMutation(rest, it.key).value;
      assert x in kept;
    }
    var kept' := if IsWrite(it) && LastMutation(rest, it.key).None? then kept + [it] else kept;
    forall x: Item ensures x in kept' <==> LastMutation([it] + rest, x.key) == Some(x) {
      LastMutationConcat([it], rest, x.key);
      LastMutationOne(it, x.key);
      LastMutationKey(rest, x.key);
    }
  }

  /** Walk the fetched items from the last one and keep the first item met for every key. */
  method Deduplicate(items: seq<Item>) returns (kept: seq<Item>, dedup: nat)
    ensures IsDeduplicated(items, kept)
    ensures dedup + |kept| == |Writes(items)|
  {
    hide IsDeduplicated, LastMutation;
    kept, dedup := [], 0;
    var seen: set<Key> := {};
    var i: nat := |items|;
    assert items[i..] == [];
    NothingKept();
    while i > 0
      invariant i <= |items| && IsDeduplicated(items[i..], kept)
      invariant forall k :: k in seen <==> LastMutation(items[i..], k).Some?
      invariant dedup + |kept| == |Writes(items[i..])|
    {
      i := i - 1;
      var it := items[i];
      assert items[i..] == [it] + items[i + 1..];
      DedupStep(it, items[i + 1..], kept);
      WritesFirst(it, items[i + 1..]);
      SeenStep(it, items[i + 1..], seen);
      if IsWrite(it) {
        if it.key in seen {
          dedup := dedup + 1;
        } else {
          kept := kept + [it];
          seen := seen + {it.key};
        }
      }
    }
    assert items[0..] == items;
  }

  lemma {:induction false} NothingKept()
    ensures IsDeduplicated([], [])
    ensures forall k :: LastMutation([], k).None?
  {
  }

  lemma {:induction false} SeenStep(it: Item, rest: seq<Item>, seen: set<Key>)
    requires forall k :: k in seen <==> LastMutation(rest, k).Some?
    ensures forall k :: (k in if IsWrite(it) then seen + {it.key} else seen) <==> LastMutation([it] + rest, k).Some?
  {
    hide LastMutation;
    forall k: Key ensures (k in if IsWrite(it) then seen + {it.key} else seen) <==> LastMutation([it] + rest, k).Some? {
      LastMutationConcat([it], rest, k);
      LastMutationOne(it, k);
    }
  }

  /** The sets and deletions among the items. */
  function Writes(items: seq<Item>): seq<Item> {
    if items == [] then [] else (if IsWrite(items[0]) then [items[0]] else []) + Writes(items[1..])
  }

  lemma {:induction false} WritesFirst(it: Item, rest: seq<Item>)
    ensures |Writes([it] + rest)| == |Writes(rest)| + if IsWrite(it) then 1 else 0
  {
    assert ([it] + rest)[1..] == rest;
  }

  /** The storage engine may reorder a batch. */
  method OptimizeWrites(items: seq<Item>) returns (r: seq<Item>)
    ensures multiset(r) == multiset(items)
  {
    r := items;
  }

  lemma {:induction false} TwoOccurrences(s: seq<Item>, i: nat, j: nat)
    requires i < j < |s| && s[i] == s[j]
    ensures multiset(s)[s[i]] >= 2
  {
    assert s == s[..i] + [s[i]] + s[i + 1..j] + [s[j]] + s[j + 1..];
  }

  lemma {:induction false} OneOccurrence(s: seq<Item>, x: Item)
    requires KeysDistinct(s)
    ensures multiset(s)[x] <= 1
  {
    if s != [] {
      var l := |s| - 1;
      assert s == s[..l] + [s[l]];
      OneOccurrence(s[..l], x);
      if s[l] == x {
        assert forall i :: 0 <= i < l ==> s[i].key != s[l].key;
        assert x !in s[..l];
      }
    }
  }

  /** Reordering a batch keeps its keys distinct and its items. */
  lemma {:induction false} ReorderKeeps(items: seq<Item>, kept: seq<Item>, r: seq<Item>)
    requires IsDeduplicated(items, kept) && multiset(r) == multiset(kept)
    ensures IsDeduplicated(items, r)
  {
    hide LastMutation;
    forall x: Item ensures x in r <==> x in kept {
      assert x in r <==> x in multiset(r);
      assert x in kept <==> x in multiset(kept);
    }
    forall i, j | 0 <= i < j < |r| ensures r[i].key != r[j].key {
      assert r[i] in kept && r[j] in kept;
      if r[i].key == r[j].key {
        assert r[i] == r[j];
        TwoOccurrences(r, i, j);
        OneOccurrence(kept, r[i]);
      }
    }
  }

  // ---------------------------------------------------------------- what a batch means

  /** In a batch where keys are sets and deletions only, the kept items replay like all of them. */
  lemma {:induction false} DedupReplays(items: seq<Item>, kept: seq<Item>, k: Key)
    requires IsDeduplicated(items, kept) && k != ""
    requires forall i :: 0 <= i < |items| && Keyed(items[i]) ==> IsWrite(items[i])
    ensures Replay(kept, k) == Replay(items, k)
  {
    hide Replay, LastMutation;
    LastReplays(items, k);
    LastMutationKey(items, k);
    if LastMutation(items, k).Some? {
      var x := LastMutation(items, k).value;
      assert x in kept;
      var i :| 0 <= i < |kept| && kept[i] == x;
      DistinctReplay(kept, i);
    } else {
      ReplayDefined(kept, k);
    }
  }

  lemma {:induction false} LastReplays(items: seq<Item>, k: Key)
    requires k != "" && forall i :: 0 <= i < |items| && Keyed(items[i]) ==> IsWrite(items[i])
    ensures Replay(items, k) == if LastMutation(items, k).Some? then Some(ChangeOf(LastMutation(items, k).value)) else None
  {
    if items != [] {
      LastReplays(items[..|items| - 1], k);
    }
  }

  lemma {:induction false} DistinctReplay(items: seq<Item>, i: nat)
    requires KeysDistinct(items) && i < |items|
    ensures Replay(items, items[i].key) == Some(ChangeOf(items[i]))
  {
    if i < |items| - 1 {
      DistinctReplay(items[..|items| - 1], i);
    }
  }

  /** The writes of one batch. */
  function Tagged(v: nat, items: seq<Item>): (r: seq<Write>)
    ensures |r| == |items|
    ensures forall i :: 0 <= i < |r| ==> r[i] == Write(v, items[i])
  {
    seq(|items|, i requires 0 <= i < |items| => Write(v, items[i]))
  }

  lemma {:induction false} TaggedItems(v: nat, items: seq<Item>, u: nat)
    ensures ItemsFor(Tagged(v, items), u) == if u == v then items else []
  {
    if items != [] {
      var l := |items| - 1;
      assert Tagged(v, items)[..l] == Tagged(v, items[..l]);
      TaggedItems(v, items[..l], u);
      assert items == items[..l] + [items[l]];
    }
  }

  lemma {:induction false} TaggedCopies(v: nat, items: seq<Item>, u: nat, k: Key)
    requires KeysDistinct(items)
    ensures Copies(Tagged(v, items), u, k) <= 1
    ensures u != v ==> Copies(Tagged(v, items), u, k) == 0
    ensures Copies(Tagged(v, items), u, k) > 0 ==> exists i :: 0 <= i < |items| && items[i].key == k
  {
    if items != [] {
      var l := |items| - 1;
      assert Tagged(v, items)[..l] == Tagged(v, items[..l]);
      TaggedCopies(v, items[..l], u, k);
      if Copies(Tagged(v, items[..l]), u, k) > 0 {
        var i :| 0 <= i < l && items[..l][i].key == k;
        assert items[i].key == k;
      }
    }
  }
}
