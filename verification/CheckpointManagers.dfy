/**
 The checkpoint manager and its checkpoints as objects that update their fields.

 Every public operation runs under one lock, so an operation is one method call. The ghost
 field `model` is the plain-list view of `CheckpointLog`; `Valid()` ties every real field to
 it, and each method is proved to do to the model what the function of the same name says.
 Cursors hold a checkpoint reference and the identity of a list node, as the source holds
 two list iterators; checkpoints hold the names of the cursors standing in them.
 */
module CheckpointManagers {
  import opened QueuedItems
  import opened CheckpointLog
  import opened CheckpointFacts
  import opened CheckpointReplay
  import opened CheckpointNodes
  import opened CheckpointMerging

  datatype CheckpointCursor = CheckpointCursor(
    name: string, currentCheckpoint: Checkpoint, currentPos: nat, offset: int, closedOnly: bool)

  datatype QueueResult = ExistingItem | NewItem

  /** The names of the cursors standing in the checkpoint at an index. */
  function NamesAt(cursors: map<string, Cursor>, i: nat): set<string> {
    set n | n in cursors && cursors[n].chk == i
  }

  /** A cursor object stands where the model says. */
  ghost predicate CursorRep(
      c: CheckpointCursor, m: Cursor, n: string, list: seq<Checkpoint>, nodes: seq<Node>)
  {
    && c.name == n && c.offset == m.offset && c.closedOnly == m.closedOnly
    && m.chk < |list| && c.currentCheckpoint == list[m.chk]
    && m.pos < |nodes| && nodes[m.pos].nid == c.currentPos
  }

  /**
   A cursor after the entry `currPos` of a checkpoint is about to be erased: its offset drops when
   the entry it stands on was queued no earlier, and it steps back when it stands on that entry.
   */
  function Shifted(
      n: string, c: CheckpointCursor, chk: Checkpoint, nodes: seq<Node>, idx: Index, currPos: nat, currMid: nat)
    : CheckpointCursor
  {
    if c.currentCheckpoint != chk then c
    else
      var i := IndexOf(nodes, c.currentPos);
      if i == |nodes| then c
      else
        var key := nodes[i].item.key;
        var c1 := if key in idx && currMid <= idx[key].mutationId then c.(offset := Decr(n, c.offset, 1)) else c;
        if c.currentPos == currPos && i > 0 then c1.(currentPos := nodes[i - 1].nid) else c1
  }

  /** The fields of a checkpoint after queueing a mutation. */
  function Requeued(v: ChkView, mc: nat, nc: nat, it: Item): ChkView {
    var entry := IndexEntry(nc, mc + 1);
    if it.key in v.keyIndex then
      var at := IndexOf(v.toWrite, v.keyIndex[it.key].position);
      if at == |v.toWrite| then v
      else v.(toWrite := Without(v.toWrite, at) + [Node(nc, it.(queuedTime := v.toWrite[at].item.queuedTime))],
              keyIndex := v.keyIndex[it.key := entry])
    else v.(numItems := v.numItems + 1, toWrite := v.toWrite + [Node(nc, it)], keyIndex := v.keyIndex[it.key := entry])
  }

  lemma {:induction false} EntryOf(v: ChkView, c: Chk, mc: nat, nc: nat, k: Key)
    requires ChkRep(v, c, mc, nc) && ChkInv(c) && k != ""
    ensures k in v.keyIndex <==> FindKey(c.items, k) < |c.items|
    ensures k in v.keyIndex ==> IndexOf(v.toWrite, v.keyIndex[k].position) == FindKey(c.items, k)
    ensures k in v.keyIndex ==> v.keyIndex[k].position == v.toWrite[FindKey(c.items, k)].nid
  {
    hide MidsOk, NumKeyed, FirstKeyed;
    LookupIsScan(v.toWrite, v.keyIndex, c.items, k);
    if k in v.keyIndex {
      IndexOfUnique(v.toWrite, nc, FindKey(c.items, k));
    }
  }

  lemma {:induction false} ReplacedRep(v: ChkView, c: Chk, mc: nat, nc: nat, it: Item)
    requires ChkRep(v, c, mc, nc) && ChkInv(c) && Keyed(it) && FindKey(c.items, it.key) < |c.items|
    ensures var v' := Requeued(v, mc, nc, it);
            ListRep(v'.toWrite, v'.keyIndex, Requeue(c.items, it), mc + 1, nc + 1) && |v'.keyIndex| == |v.keyIndex|
  {
    hide NumKeyed, FirstKeyed, IndexOk, MidsOk, NodesOk, FindKey;
    EntryOf(v, c, mc, nc, it.key);
    var at := FindKey(c.items, it.key);
    EraseRep(v.toWrite, v.keyIndex, c.items, mc, nc, at);
    var it' := it.(queuedTime := c.items[at].queuedTime);
    var idx1 := v.keyIndex - {it.key};
    AppendKeyedRep(Without(v.toWrite, at), idx1, Without(c.items, at), mc, nc, it');
    assert idx1[it.key := IndexEntry(nc, mc + 1)] == v.keyIndex[it.key := IndexEntry(nc, mc + 1)];
    assert v.keyIndex[it.key := IndexEntry(nc, mc + 1)].Keys == v.keyIndex.Keys;
    SameKeysSameSize(v.keyIndex[it.key := IndexEntry(nc, mc + 1)], v.keyIndex);
  }

  lemma {:induction false} SameKeysSameSize(a: Index, b: Index)
    requires a.Keys == b.Keys
    ensures |a| == |b|
  {
    assert |a| == |a.Keys| && |b| == |b.Keys|;
  }

  lemma {:induction false} AddedKeySize(idx: Index, k: Key, e: IndexEntry)
    requires k !in idx
    ensures |idx[k := e]| == |idx| + 1
  {
    assert idx[k := e].Keys == idx.Keys + {k};
    assert |idx[k := e]| == |idx[k := e].Keys| && |idx| == |idx.Keys|;
  }

  /** Index, node identities and mutation ids follow the plain list when a mutation is queued. */
  lemma {:induction false} RequeueRep(v: ChkView, c: Chk, mc: nat, nc: nat, it: Item)
    requires ChkRep(v, c, mc, nc) && ChkInv(c) && Keyed(it)
    ensures ChkRep(Requeued(v, mc, nc, it), c.(items := Requeue(c.items, it)), mc + 1, nc + 1)
  {
    hide NumKeyed, FirstKeyed, IndexOk, MidsOk, NodesOk, FindKey, ChkInv, ListRep;
    EntryOf(v, c, mc, nc, it.key);
    NumKeyedRequeue(c.items, it);
    if it.key in v.keyIndex {
      ReplacedRep(v, c, mc, nc, it);
    } else {
      AppendKeyedRep(v.toWrite, v.keyIndex, c.items, mc, nc, it);
      AddedKeySize(v.keyIndex, it.key, IndexEntry(nc, mc + 1));
    }
  }

  lemma {:induction false} RequeueOlder(a: Index, v: ChkView, mc: nat, nc: nat, it: Item)
    requires Older(a, v.keyIndex) && forall k :: k in a ==> a[k].mutationId <= mc
    ensures Older(a, Requeued(v, mc, nc, it).keyIndex)
  {
  }

  lemma {:induction false} LaterRep(v: ChkView, c: Chk, mc: nat, nc: nat, mc': nat, nc': nat)
    requires ChkRep(v, c, mc, nc) && mc <= mc' && nc <= nc'
    ensures ChkRep(v, c, mc', nc')
  {
  }

  lemma {:induction false} MidsBound(v: ChkView, c: Chk, mc: nat, nc: nat)
    requires ChkRep(v, c, mc, nc)
    ensures forall k :: k in v.keyIndex ==> v.keyIndex[k].mutationId <= mc
    ensures "" !in v.keyIndex
  {
  }

  /** Where a mutation stands, every later entry of an open checkpoint is a mutation. */
  lemma {:induction false} KeyedFrom(c: Chk, at: nat, p: nat)
    requires ChkInv(c) && c.open && at <= p < |c.items| && Keyed(c.items[at])
    ensures Keyed(c.items[p]) && at >= 2
  {
    assert FirstKeyed(c.items) <= at;
  }

  /** The mutation-id test succeeds exactly when the cursor stands at or behind the entry. */
  lemma {:induction false} MutationIdTest(v: ChkView, chk: Chk, mc: nat, nc: nat, k: Key, p: nat)
    requires ChkRep(v, chk, mc, nc) && ChkInv(chk) && chk.open && k != "" && k in v.keyIndex && p < |v.toWrite|
    ensures var at, key := FindKey(chk.items, k), v.toWrite[p].item.key;
            2 <= at < |chk.items|
            && (key in v.keyIndex && v.keyIndex[k].mutationId <= v.keyIndex[key].mutationId <==> at <= p)
  {
    hide NumKeyed, DistinctKeys, FirstKeyed, NodesOk;
    EntryOf(v, chk, mc, nc, k);
    var at, key := FindKey(chk.items, k), v.toWrite[p].item.key;
    KeyedFrom(chk, at, at);
    if at <= p {
      KeyedFrom(chk, at, p);
    }
    if key in v.keyIndex {
      MidsComparePositions(v.toWrite, v.keyIndex, mc, at, p);
    }
  }

  lemma {:induction false} ShiftedAt(
      n: string, c: CheckpointCursor, m: Cursor, list: seq<Checkpoint>, nodes: seq<Node>, idx: Index, nc: nat, at: nat, mid: nat)
    requires |list| >= 1 && NodesOk(nodes, nc) && 1 <= at < |nodes|
    requires CursorRep(c, m, n, list, nodes) && m.chk == |list| - 1
    requires var key := nodes[m.pos].item.key; key in idx && mid <= idx[key].mutationId <==> at <= m.pos
    ensures CursorRep(Shifted(n, c, list[|list| - 1], nodes, idx, nodes[at].nid, mid),
                      AfterErase(n, m, |list| - 1, at), n, list, Without(nodes, at))
  {
    hide IndexOf;
    IndexOfUnique(nodes, nc, m.pos);
    if at <= m.pos {
      WithoutAt(nodes, at, m.pos - 1);
    } else {
      WithoutAt(nodes, at, m.pos);
    }
  }

  /** The mutation-id test and the shift do to a cursor what erasing the entry at its position means. */
  lemma {:induction false} ShiftedRep(
      n: string, c: CheckpointCursor, m: Cursor, list: seq<Checkpoint>, v: ChkView, chk: Chk, mc: nat, nc: nat, k: Key)
    requires |list| >= 1 && ChkRep(v, chk, mc, nc) && ChkInv(chk) && chk.open && k != "" && k in v.keyIndex
    requires CursorRep(c, m, n, list, v.toWrite) && m.chk == |list| - 1
    ensures var at := FindKey(chk.items, k);
            && 2 <= at < |v.toWrite|
            && CursorRep(Shifted(n, c, list[|list| - 1], v.toWrite, v.keyIndex, v.keyIndex[k].position, v.keyIndex[k].mutationId),
                      AfterErase(n, m, |list| - 1, at), n, list, Without(v.toWrite, at))
  {
    hide NumKeyed, ChkInv, FindKey, NodesOk, IndexOk, MidsOk, Shifted, AfterErase;
    EntryOf(v, chk, mc, nc, k);
    MutationIdTest(v, chk, mc, nc, k, m.pos);
    ShiftedAt(n, c, m, list, v.toWrite, v.keyIndex, nc, FindKey(chk.items, k), v.keyIndex[k].mutationId);
  }

  // ---------------------------------------------------------------- the representation invariant

  /** Every checkpoint represents its plain list, and mutation ids also increase across checkpoints. */
  ghost predicate ListsRep(views: seq<ChkView>, chks: seq<Chk>, mc: nat, nc: nat) {
    && |views| == |chks|
    && (forall i :: 0 <= i < |views| ==> ChkRep(views[i], chks[i], mc, nc))
    && (forall i, j :: 0 <= i < j < |views| ==> Older(views[i].keyIndex, views[j].keyIndex))
  }

  /** A cursor's name is registered in the checkpoint it stands in and nowhere else. */
  ghost predicate NamesRep(views: seq<ChkView>, cursors: map<string, Cursor>) {
    forall i :: 0 <= i < |views| ==> views[i].cursors == NamesAt(cursors, i)
  }

  ghost predicate CursorAt(c: CheckpointCursor, n: string, cursors: map<string, Cursor>, list: seq<Checkpoint>, views: seq<ChkView>)
  {
    && n in cursors && cursors[n].chk < |views|
    && CursorRep(c, cursors[n], n, list, views[cursors[n].chk].toWrite)
  }

  ghost predicate CursorsRep(
      pc: CheckpointCursor, taps: map<string, CheckpointCursor>, cursors: map<string, Cursor>,
      list: seq<Checkpoint>, views: seq<ChkView>)
  {
    && PERSISTENCE !in taps
    && cursors.Keys == taps.Keys + {PERSISTENCE}
    && CursorAt(pc, PERSISTENCE, cursors, list, views)
    && (forall n :: n in taps ==> CursorAt(taps[n], n, cursors, list, views))
  }

  ghost predicate Distinct(list: seq<Checkpoint>) {
    forall i, j :: 0 <= i < j < |list| ==> list[i] != list[j]
  }

  lemma {:induction false} DistinctSuffix(list: seq<Checkpoint>, lc: nat)
    requires Distinct(list) && lc < |list|
    ensures Distinct(list[lc..]) && forall i :: 0 <= i < |list| && i != lc ==> list[i] != list[lc]
  {
  }

  // ---------------------------------------------------------------- queueing a mutation

  lemma {:induction false} ListsAt(views: seq<ChkView>, chks: seq<Chk>, mc: nat, nc: nat, i: nat)
    requires ListsRep(views, chks, mc, nc) && i < |views|
    ensures i < |chks| && ChkRep(views[i], chks[i], mc, nc)
  {
  }

  lemma {:induction false} ListsLength(views: seq<ChkView>, chks: seq<Chk>, mc: nat, nc: nat)
    requires ListsRep(views, chks, mc, nc)
    ensures |views| == |chks|
  {
  }

  lemma {:induction false} SetBackLists(
      views: seq<ChkView>, chks: seq<Chk>, mc: nat, nc: nat, v: ChkView, c: Chk, mc': nat, nc': nat)
    requires ListsRep(views, chks, mc, nc) && |views| >= 1 && mc <= mc' && nc <= nc'
    requires ChkRep(v, c, mc', nc')
    requires forall i :: 0 <= i < |views| - 1 ==> Older(views[i].keyIndex, v.keyIndex)
    ensures ListsRep(views[|views| - 1 := v], chks[|chks| - 1 := c], mc', nc')
  {
    hide ChkRep, Older;
    var last := |views| - 1;
    forall i | 0 <= i < last ensures ChkRep(views[i], chks[i], mc', nc') {
      LaterRep(views[i], chks[i], mc, nc, mc', nc');
    }
  }

  lemma {:induction false} QueuedLists(views: seq<ChkView>, s: State, mc: nat, nc: nat, it: Item)
    requires Inv(s) && ListsRep(views, s.chks, mc, nc) && Keyed(it)
    ensures |views| >= 1
    ensures ListsRep(views[|views| - 1 := Requeued(views[|views| - 1], mc, nc, it)], Enqueue(s, it).chks, mc + 1, nc + 1)
  {
    hide ChkInv, CursorsInv, TotalWeight, ChkRep, Requeued, Requeue;
    var last := |views| - 1;
    var v := Requeued(views[last], mc, nc, it);
    assert ChkInv(s.chks[last]);
    RequeueRep(views[last], s.chks[last], mc, nc, it);
    forall i | 0 <= i < last ensures Older(views[i].keyIndex, v.keyIndex) {
      MidsBound(views[i], s.chks[i], mc, nc);
      RequeueOlder(views[i].keyIndex, views[last], mc, nc, it);
    }
    SetBackLists(views, s.chks, mc, nc, v, s.chks[last].(items := Requeue(s.chks[last].items, it)), mc + 1, nc + 1);
  }

  lemma {:induction false} SameChksSameNames(a: map<string, Cursor>, b: map<string, Cursor>, i: nat)
    requires a.Keys == b.Keys && forall n :: n in a ==> a[n].chk == b[n].chk
    ensures NamesAt(a, i) == NamesAt(b, i)
  {
  }

  lemma {:induction false} RequeuedKeepsNames(v: ChkView, mc: nat, nc: nat, it: Item)
    ensures Requeued(v, mc, nc, it).cursors == v.cursors
  {
  }

  lemma {:induction false} QueuedNames(views: seq<ChkView>, s: State, it: Item, v: ChkView)
    requires |s.chks| >= 1 && |views| >= 1 && NamesRep(views, s.cursors) && v.cursors == views[|views| - 1].cursors
    ensures NamesRep(views[|views| - 1 := v], Enqueue(s, it).cursors)
  {
    hide NamesAt, Requeue;
    forall i | 0 <= i < |views| ensures NamesAt(Enqueue(s, it).cursors, i) == NamesAt(s.cursors, i) {
      SameChksSameNames(Enqueue(s, it).cursors, s.cursors, i);
    }
  }

  /** The cursor a method leaves behind when a mutation is queued. */
  function CursorAfter(n: string, c: CheckpointCursor, chk: Checkpoint, v: ChkView, k: Key): CheckpointCursor {
    if k in v.keyIndex
    then Shifted(n, c, chk, v.toWrite, v.keyIndex, v.keyIndex[k].position, v.keyIndex[k].mutationId)
    else c
  }

  lemma {:induction false} QueuedCursor(
      n: string, c: CheckpointCursor, list: seq<Checkpoint>, views: seq<ChkView>, s: State, mc: nat, nc: nat, it: Item)
    requires Inv(s) && ListsRep(views, s.chks, mc, nc) && Keyed(it) && Back(s).open
    requires |list| == |views| && Distinct(list) && CursorAt(c, n, s.cursors, list, views)
    ensures |views| >= 1 && n in Enqueue(s, it).cursors
    ensures var last := |views| - 1;
            CursorAt(CursorAfter(n, c, list[last], views[last], it.key), n, Enqueue(s, it).cursors, list,
                     views[last := Requeued(views[last], mc, nc, it)])
  {
    hide ChkInv, CursorsInv, TotalWeight, Requeue, Shifted, IndexOf, FindKey, NumKeyed, ListRep;
    var last := |views| - 1;
    var v, chk, m := views[last], s.chks[last], s.cursors[n];
    assert ChkInv(chk);
    ListsAt(views, s.chks, mc, nc, last);
    EntryOf(v, chk, mc, nc, it.key);
    if m.chk == last {
      if it.key in v.keyIndex {
        ShiftedRep(n, c, m, list, v, chk, mc, nc, it.key);
        var at := FindKey(chk.items, it.key);
        var r := Without(v.toWrite, at);
        assert forall i :: 0 <= i < |r| ==> Requeued(v, mc, nc, it).toWrite[i] == r[i];
      }
    } else {
      assert c.currentCheckpoint != list[last];
      assert CursorAfter(n, c, list[last], v, it.key) == c by { ShiftedElsewhere(n, c, list[last], v, it.key); }
    }
  }

  lemma {:induction false} ShiftedElsewhere(n: string, c: CheckpointCursor, chk: Checkpoint, v: ChkView, k: Key)
    requires c.currentCheckpoint != chk
    ensures CursorAfter(n, c, chk, v, k) == c
  {
  }

  lemma {:induction false} QueuedCursors(
      pc: CheckpointCursor, taps: map<string, CheckpointCursor>, pc': CheckpointCursor, taps': map<string, CheckpointCursor>,
      list: seq<Checkpoint>, views: seq<ChkView>, s: State, mc: nat, nc: nat, it: Item)
    requires Inv(s) && ListsRep(views, s.chks, mc, nc) && Keyed(it) && Back(s).open && |views| >= 1
    requires |s.chks| == |list| == |views| && Distinct(list) && CursorsRep(pc, taps, s.cursors, list, views)
    requires pc' == CursorAfter(PERSISTENCE, pc, list[|views| - 1], views[|views| - 1], it.key)
    requires taps'.Keys == taps.Keys
    requires forall n :: n in taps ==> taps'[n] == CursorAfter(n, taps[n], list[|views| - 1], views[|views| - 1], it.key)
    ensures CursorsRep(pc', taps', Enqueue(s, it).cursors, list,
                       views[|views| - 1 := Requeued(views[|views| - 1], mc, nc, it)])
  {
    hide Inv, ListsRep, Distinct, CursorAt, CursorAfter, Requeued;
    QueuedCursor(PERSISTENCE, pc, list, views, s, mc, nc, it);
    forall n | n in taps'
      ensures CursorAt(taps'[n], n, Enqueue(s, it).cursors, list, views[|views| - 1 := Requeued(views[|views| - 1], mc, nc, it)])
    {
      QueuedCursor(n, taps[n], list, views, s, mc, nc, it);
    }
    EnqueueKeys(s, it);
  }

  lemma {:induction false} EnqueueKeys(s: State, it: Item)
    requires |s.chks| >= 1
    ensures Enqueue(s, it).cursors.Keys == s.cursors.Keys
    ensures Enqueue(s, it).numItems == s.numItems + if FindKey(Back(s).items, it.key) < |Back(s).items| then 0 else 1
  {
  }

  // ---------------------------------------------------------------- opening, closing, relabelling

  /** Cursors stay put while lists only grow at their ends. */
  lemma {:induction false} GrowCursors(
      pc: CheckpointCursor, taps: map<string, CheckpointCursor>, cursors: map<string, Cursor>,
      list: seq<Checkpoint>, views: seq<ChkView>, list': seq<Checkpoint>, views': seq<ChkView>)
    requires CursorsRep(pc, taps, cursors, list, views)
    requires |views| == |list| <= |list'| == |views'| && list'[..|list|] == list
    requires forall i :: 0 <= i < |views| ==> |views[i].toWrite| <= |views'[i].toWrite|
    requires forall i, j :: 0 <= i < |views| && 0 <= j < |views[i].toWrite| ==> views[i].toWrite[j].nid == views'[i].toWrite[j].nid
    ensures CursorsRep(pc, taps, cursors, list', views')
  {
    forall i | 0 <= i < |list| ensures list'[i] == list[i] {
      assert list'[i] == list'[..|list|][i];
    }
    GrowCursor(pc, PERSISTENCE, cursors, list, views, list', views');
    forall n | n in taps ensures CursorAt(taps[n], n, cursors, list', views') {
      GrowCursor(taps[n], n, cursors, list, views, list', views');
    }
  }

  lemma {:induction false} GrowCursor(
      c: CheckpointCursor, n: string, cursors: map<string, Cursor>,
      list: seq<Checkpoint>, views: seq<ChkView>, list': seq<Checkpoint>, views': seq<ChkView>)
    requires CursorAt(c, n, cursors, list, views)
    requires |views| == |list| <= |list'| == |views'|
    requires forall i :: 0 <= i < |list| ==> list'[i] == list[i]
    requires forall i :: 0 <= i < |views| ==> |views[i].toWrite| <= |views'[i].toWrite|
    requires forall i, j :: 0 <= i < |views| && 0 <= j < |views[i].toWrite| ==> views[i].toWrite[j].nid == views'[i].toWrite[j].nid
    ensures CursorAt(c, n, cursors, list', views')
  {
    var m := cursors[n];
    assert views[m.chk].toWrite[m.pos].nid == views'[m.chk].toWrite[m.pos].nid;
  }

  /** The fields of a checkpoint after its end entry was queued and its state set to closed. */
  function ClosedView(v: ChkView, nc: nat, id: nat): ChkView {
    v.(isOpen := false, toWrite := v.toWrite + [Node(nc, EndItem(id))])
  }

  lemma {:induction false} ClosedLists(views: seq<ChkView>, s: State, mc: nat, nc: nat, id: nat)
    requires Inv(s) && ListsRep(views, s.chks, mc, nc) && Back(s).open && Back(s).id == id
    ensures |views| >= 1
    ensures ListsRep(views[|views| - 1 := ClosedView(views[|views| - 1], nc, id)], CloseOpen(s, id).chks, mc + 1, nc + 1)
  {
    hide ChkInv, CursorsInv, TotalWeight, ListRep;
    var last := |views| - 1;
    var v, c := views[last], s.chks[last];
    ListsAt(views, s.chks, mc, nc, last);
    AppendMetaRep(v.toWrite, v.keyIndex, c.items, mc, nc, EndItem(id));
    NumKeyedSnoc(c.items, EndItem(id));
    SetBackLists(views, s.chks, mc, nc, ClosedView(v, nc, id), c.(open := false, items := c.items + [EndItem(id)]), mc + 1, nc + 1);
  }

  lemma {:induction false} CloseElsewhere(s: State, id: nat)
    requires |s.chks| >= 1 && (id != Back(s).id || !Back(s).open)
    ensures CloseOpen(s, id) == s
  {
  }

  lemma {:induction false} CloseCounts(s: State, id: nat)
    requires |s.chks| >= 1 && id == Back(s).id && Back(s).open
    ensures CloseOpen(s, id).numItems == s.numItems + 1 && CloseOpen(s, id).cursors == s.cursors
  {
  }

  /** A bookkeeping entry has no key, so queueing it moves no cursor. */
  lemma {:induction false} MetaKeepsCursors(
      pc: CheckpointCursor, taps: map<string, CheckpointCursor>, pc': CheckpointCursor, taps': map<string, CheckpointCursor>,
      chk: Checkpoint, v: ChkView)
    requires "" !in v.keyIndex && pc' == CursorAfter(PERSISTENCE, pc, chk, v, "") && taps'.Keys == taps.Keys
    requires forall n :: n in taps' ==> taps'[n] == CursorAfter(n, taps[n], chk, v, "")
    ensures pc' == pc && taps' == taps
  {
  }

  function NewView(id: nat, nc: nat): ChkView {
    ChkView(id, true, 0, {}, [Node(nc, DummyItem()), Node(nc + 1, StartItem(id))], map[])
  }

  lemma {:induction false} NewViewRep(id: nat, mc: nat, nc: nat)
    ensures ChkRep(NewView(id, nc), NewChk(id), mc, nc + 2)
  {
    NewChkKeyless(id);
  }

  lemma {:induction false} AppendedLists(views: seq<ChkView>, chks: seq<Chk>, mc: nat, nc: nat, id: nat)
    requires ListsRep(views, chks, mc, nc)
    ensures ListsRep(views + [NewView(id, nc)], chks + [NewChk(id)], mc + 2, nc + 2)
  {
    hide ChkRep, NumKeyed;
    var r, s := views + [NewView(id, nc)], chks + [NewChk(id)];
    NewViewRep(id, mc + 2, nc);
    forall i | 0 <= i < |r| ensures ChkRep(r[i], s[i], mc + 2, nc + 2) {
      if i < |views| {
        LaterRep(views[i], chks[i], mc, nc, mc + 2, nc + 2);
      }
    }
  }

  lemma {:induction false} AppendedNames(views: seq<ChkView>, chks: seq<Chk>, cursors: map<string, Cursor>, v: ChkView)
    requires NamesRep(views, cursors) && CursorsInv(chks, cursors) && |chks| == |views| && v.cursors == {}
    ensures NamesRep(views + [v], cursors)
  {
    forall n | n in cursors ensures cursors[n].chk != |views| {
      assert CursorOk(chks, cursors[n]);
    }
    assert NamesAt(cursors, |views|) == {};
  }

  function RelabelledView(v: ChkView, id: nat): ChkView {
    if |v.toWrite| >= 2 then v.(id := id, toWrite := v.toWrite[1 := v.toWrite[1].(item := StartItem(id))]) else v
  }

  lemma {:induction false} RelabelledFields(v: ChkView, id: nat)
    requires |v.toWrite| >= 2
    ensures RelabelledView(v, id) == v.(id := id, toWrite := v.toWrite[1 := v.toWrite[1].(item := StartItem(id))])
  {
  }

  lemma {:induction false} RelabelledRep(v: ChkView, c: Chk, mc: nat, nc: nat, id: nat)
    requires ChkRep(v, c, mc, nc) && ChkInv(c)
    ensures ChkRep(RelabelledView(v, id), c.(id := id, items := c.items[1 := StartItem(id)]), mc, nc)
    ensures RelabelledView(v, id).keyIndex == v.keyIndex
  {
    hide NumKeyed, FirstKeyed, DistinctKeys, NodesOk, IndexOk, MidsOk;
    RelabelledChk(c, id);
    SameKeysRep(v.toWrite, RelabelledView(v, id).toWrite, v.keyIndex, mc, nc);
  }

  lemma {:induction false} RelabelledLists(views: seq<ChkView>, s: State, mc: nat, nc: nat, id: nat)
    requires Inv(s) && ListsRep(views, s.chks, mc, nc)
    ensures |views| >= 1
    ensures ListsRep(views[|views| - 1 := RelabelledView(views[|views| - 1], id)], SetOpenId(s, id).chks, mc, nc)
  {
    hide CursorsInv, TotalWeight, ChkRep, FirstKeyed, DistinctKeys, NumKeyed;
    var last := |views| - 1;
    var v, c := views[last], s.chks[last];
    ListsAt(views, s.chks, mc, nc, last);
    assert ChkInv(c);
    RelabelledRep(v, c, mc, nc, id);
    SetBackLists(views, s.chks, mc, nc, RelabelledView(v, id), c.(id := id, items := c.items[1 := StartItem(id)]), mc, nc);
  }

  lemma {:induction false} SetBackNames(views: seq<ChkView>, cursors: map<string, Cursor>, v: ChkView)
    requires |views| >= 1 && NamesRep(views, cursors) && v.cursors == views[|views| - 1].cursors
    ensures NamesRep(views[|views| - 1 := v], cursors)
  {
  }

  lemma {:induction false} InitCount(id: nat)
    ensures Init(id).numItems == 1
  {
  }

  lemma {:induction false} InitRep(id: nat, c: Checkpoint)
    ensures var v := NewView(id, 0).(cursors := {PERSISTENCE});
            && ListsRep([v], Init(id).chks, 2, 2)
            && NamesRep([v], Init(id).cursors)
            && CursorsRep(CheckpointCursor(PERSISTENCE, c, 0, 0, false), map[], Init(id).cursors, [c], [v])
  {
    NewViewRep(id, 2, 0);
    assert NamesAt(Init(id).cursors, 0) == {PERSISTENCE};
  }

  lemma {:induction false} AddNewParts(s: State, id: nat)
    requires |s.chks| >= 1 && !Back(s).open
    ensures AddNew(s, id) == s.(chks := s.chks + [NewChk(id)], numItems := s.numItems + 1)
  {
  }

  lemma {:induction false} AddNewClosesFirst(s: State, id: nat)
    requires Inv(s)
    ensures |CloseOpen(s, Back(s).id).chks| >= 1 && !Back(CloseOpen(s, Back(s).id)).open
    ensures AddNew(CloseOpen(s, Back(s).id), id) == AddNew(s, id)
  {
    hide ChkInv, CursorsInv, TotalWeight;
  }

  lemma {:induction false} CloseIds(s: State, id: nat)
    requires |s.chks| >= 1
    ensures |CloseOpen(s, id).chks| >= 1 && Back(CloseOpen(s, id)).id == Back(s).id
  {
  }

  lemma {:induction false} NoNames(views: seq<ChkView>, s: State, i: nat)
    requires NamesRep(views, s.cursors) && i < |views|
    ensures |views[i].cursors| == 0 <==> Unreferenced(s, i)
  {
    assert |views[i].cursors| == 0 <==> views[i].cursors == {};
    forall n | n in s.cursors && s.cursors[n].chk == i ensures n in views[i].cursors {
    }
  }

  // ---------------------------------------------------------------- moving a cursor

  /** Take a name off the checkpoint at `i`, when there is one, and put it on the one at `j`. */
  function Renamed(views: seq<ChkView>, n: string, i: nat, j: nat): seq<ChkView>
    requires j < |views|
  {
    var v1 := if i < |views| then views[i := views[i].(cursors := views[i].cursors - {n})] else views;
    v1[j := v1[j].(cursors := v1[j].cursors + {n})]
  }

  /** Views that differ in registered names only. */
  ghost predicate SameButNames(a: seq<ChkView>, b: seq<ChkView>) {
    |a| == |b| && forall i :: 0 <= i < |a| ==> b[i] == a[i].(cursors := b[i].cursors)
  }

  lemma {:induction false} RenamedSame(views: seq<ChkView>, n: string, i: nat, j: nat)
    requires j < |views|
    ensures SameButNames(views, Renamed(views, n, i, j))
  {
  }

  lemma {:induction false} NamesOnlyLists(a: seq<ChkView>, b: seq<ChkView>, chks: seq<Chk>, mc: nat, nc: nat)
    requires ListsRep(a, chks, mc, nc) && SameButNames(a, b)
    ensures ListsRep(b, chks, mc, nc)
  {
    hide ListRep, Older, NumKeyed;
  }

  lemma {:induction false} RenamedNames(views: seq<ChkView>, cursors: map<string, Cursor>, n: string, c: Cursor)
    requires NamesRep(views, cursors) && c.chk < |views|
    ensures NamesRep(Renamed(views, n, if n in cursors then cursors[n].chk else |views|, c.chk), cursors[n := c])
  {
    var i := if n in cursors then cursors[n].chk else |views|;
    var r := Renamed(views, n, i, c.chk);
    forall k | 0 <= k < |views| ensures r[k].cursors == NamesAt(cursors[n := c], k) {
      assert views[k].cursors == NamesAt(cursors, k);
    }
  }

  lemma {:induction false} NamesOnlyCursor(
      c: CheckpointCursor, n: string, cursors: map<string, Cursor>, list: seq<Checkpoint>, a: seq<ChkView>, b: seq<ChkView>)
    requires CursorAt(c, n, cursors, list, a) && SameButNames(a, b)
    ensures CursorAt(c, n, cursors, list, b)
  {
  }

  lemma {:induction false} PlacedCursors(
      pc: CheckpointCursor, taps: map<string, CheckpointCursor>, pc': CheckpointCursor, taps': map<string, CheckpointCursor>,
      cursors: map<string, Cursor>, list: seq<Checkpoint>, a: seq<ChkView>, b: seq<ChkView>,
      n: string, c: CheckpointCursor, m: Cursor)
    requires CursorsRep(pc, taps, cursors, list, a) && SameButNames(a, b) && m.chk < |b|
    requires CursorRep(c, m, n, list, b[m.chk].toWrite)
    requires n == PERSISTENCE ==> pc' == c && taps' == taps
    requires n != PERSISTENCE ==> pc' == pc && taps' == taps[n := c]
    ensures CursorsRep(pc', taps', cursors[n := m], list, b)
  {
    hide CursorAt, SameButNames;
    if n != PERSISTENCE {
      OtherPlaced(pc, PERSISTENCE, cursors, list, a, b, n, m);
    }
    PlacedAt(c, n, cursors, list, b, m);
    forall k | k in taps' && k != n ensures CursorAt(taps'[k], k, cursors[n := m], list, b) {
      OtherPlaced(taps[k], k, cursors, list, a, b, n, m);
    }
  }

  lemma {:induction false} OtherPlaced(
      c: CheckpointCursor, k: string, cursors: map<string, Cursor>, list: seq<Checkpoint>, a: seq<ChkView>, b: seq<ChkView>,
      n: string, m: Cursor)
    requires CursorAt(c, k, cursors, list, a) && SameButNames(a, b) && k != n
    ensures CursorAt(c, k, cursors[n := m], list, b)
  {
    hide CursorRep;
  }

  lemma {:induction false} PlacedAt(c: CheckpointCursor, n: string, cursors: map<string, Cursor>, list: seq<Checkpoint>, b: seq<ChkView>, m: Cursor)
    requires m.chk < |b| && CursorRep(c, m, n, list, b[m.chk].toWrite)
    ensures CursorAt(c, n, cursors[n := m], list, b)
  {
    hide CursorRep;
  }

  lemma {:induction false} CursorOkKept(s: State, n: string, c: Cursor)
    requires Inv(s) && CursorOk(s.chks, c)
    ensures Inv(s.(cursors := s.cursors[n := c]))
  {
    hide ListInv, TotalWeight, CursorOk;
  }

  /** Index of a checkpoint object in a list that holds it. */
  function RefIndex(list: seq<Checkpoint>, c: Checkpoint): (r: nat)
    ensures r <= |list|
    ensures r < |list| ==> list[r] == c
    ensures forall i :: 0 <= i < r ==> list[i] != c
  {
    if list == [] then 0 else if list[0] == c then 0 else 1 + RefIndex(list[1..], c)
  }

  /** A cursor object and its model cursor denote one position. */
  ghost predicate CursorStands(
      c: CheckpointCursor, m: Cursor, n: string, list: seq<Checkpoint>, chks: seq<Chk>, views: seq<ChkView>)
  {
    && CursorOk(chks, m) && CursorRep(c, m, n, list, if m.chk < |views| then views[m.chk].toWrite else [])
    && m.chk < |views| && RefIndex(list, c.currentCheckpoint) == m.chk
    && IndexOf(views[m.chk].toWrite, c.currentPos) == m.pos
  }

  lemma {:induction false} RefIndexUnique(list: seq<Checkpoint>, i: nat)
    requires Distinct(list) && i < |list|
    ensures RefIndex(list, list[i]) == i
  {
    hide RefIndex;
  }

  lemma {:induction false} StandsAt(
      c: CheckpointCursor, n: string, s: State, list: seq<Checkpoint>, views: seq<ChkView>, mc: nat, nc: nat)
    requires Inv(s) && ListsRep(views, s.chks, mc, nc) && Distinct(list) && CursorAt(c, n, s.cursors, list, views)
    ensures n in s.cursors && CursorStands(c, s.cursors[n], n, list, s.chks, views)
  {
    hide ListInv, TotalWeight, NumKeyed, RefIndex, IndexOf, IndexOk, MidsOk, CursorsInv, Distinct;
    var m := s.cursors[n];
    CursorsParts(s.chks, s.cursors, n);
    ListsAt(views, s.chks, mc, nc, m.chk);
    IndexOfUnique(views[m.chk].toWrite, nc, m.pos);
    RefIndexUnique(list, m.chk);
  }

  lemma {:induction false} StandsInList(
      c: CheckpointCursor, m: Cursor, n: string, list: seq<Checkpoint>, chks: seq<Chk>, views: seq<ChkView>)
    requires CursorStands(c, m, n, list, chks, views)
    ensures m.chk < |list| && m.chk < |views|
  {
  }

  lemma {:induction false} CursorKeys(
      pc: CheckpointCursor, taps: map<string, CheckpointCursor>, cursors: map<string, Cursor>,
      list: seq<Checkpoint>, views: seq<ChkView>, n: string)
    requires CursorsRep(pc, taps, cursors, list, views)
    ensures n in cursors <==> n == PERSISTENCE || n in taps
    ensures PERSISTENCE !in taps
  {
  }

  /** A cursor moved to another position. */
  function At(s: State, n: string, chk: nat, pos: nat): State
    requires n in s.cursors
  {
    s.(cursors := s.cursors[n := s.cursors[n].(chk := chk, pos := pos)])
  }

  predicate AtLast(chks: seq<Chk>, c: Cursor) {
    c.chk + 1 == |chks| && c.pos + 1 == |chks[c.chk].items|
  }

  /** Reading the rest of a checkpoint and stepping to the next one hands out exactly what was ahead. */
  lemma {:induction false} ReadAhead(s: State, c: Cursor, done: seq<Item>)
    requires Inv(s) && CursorOk(s.chks, c)
    ensures var last := |s.chks[c.chk].items| - 1;
            && done + Ahead(s.chks, c.chk, c.pos) == done + s.chks[c.chk].items[c.pos + 1..] + Ahead(s.chks, c.chk, last)
            && (if !s.chks[c.chk].open && c.chk + 1 < |s.chks|
                then |s.chks[c.chk + 1].items| >= 1 && Ahead(s.chks, c.chk, last) == Ahead(s.chks, c.chk + 1, 0)
                else c.chk + 1 == |s.chks|)
  {
    hide ListInv, CursorsInv, TotalWeight, Flat;
    var items, rest := s.chks[c.chk].items, Flat(s.chks[c.chk + 1..]);
    assert items[|items|..] + rest == rest;
    ConcatAssociative(done, items[c.pos + 1..], rest);
    ListParts(s.chks, c.chk);
    if c.chk + 1 < |s.chks| {
      ListParts(s.chks, c.chk + 1);
      AheadMove(s.chks, c.chk);
    }
  }

  lemma {:induction false} StayingNames(views: seq<ChkView>, cursors: map<string, Cursor>, n: string, m: Cursor)
    requires NamesRep(views, cursors) && n in cursors && m.chk == cursors[n].chk
    ensures NamesRep(views, cursors[n := m])
  {
    hide NamesAt;
    forall i | 0 <= i < |views| ensures NamesAt(cursors[n := m], i) == NamesAt(cursors, i) {
      SameChksSameNames(cursors[n := m], cursors, i);
    }
  }

  lemma {:induction false} AllLongEnough(s: State)
    requires Inv(s)
    ensures forall i :: 0 <= i < |s.chks| ==> |s.chks[i].items| >= 2
  {
    hide ListInv, CursorsInv, TotalWeight;
    forall i | 0 <= i < |s.chks| ensures |s.chks[i].items| >= 2 {
      ListParts(s.chks, i);
    }
  }

  /** Advancing a cursor depends on its place, not on where it was before. */
  lemma {:induction false} MovedSame(s: State, n: string, chk: nat)
    requires n in s.cursors && chk < |s.chks| && |s.chks[chk].items| >= 2
    ensures var c := s.cursors[n].(chk := chk, pos := 0);
            && Advance(At(s, n, chk, 0), n, c) == Advance(s, n, c)
            && NextFromOpen(At(s, n, chk, 0), n, c) == NextFromOpen(s, n, c)
  {
    var c := s.cursors[n].(chk := chk, pos := 0);
    var d := c.(pos := 1, offset := c.offset + 1);
    assert s.cursors[n := c][n := d] == s.cursors[n := d];
    assert s.cursors[n := c][n := c] == s.cursors[n := c];
  }

  lemma {:induction false} NextCounts(s: State, n: string)
    requires Inv(s)
    ensures Next(s, n).0.numItems == s.numItems
  {
    hide ListInv, CursorsInv, TotalWeight, LastMutationAt;
    AllLongEnough(s);
  }

  lemma {:induction false} ClosedWeight(s: State, k: nat)
    requires Inv(s) && k + 1 < |s.chks|
    ensures TotalWeight(s.chks[..k + 1]) == TotalWeight(s.chks[..k]) + NumKeyed(s.chks[k].items) + 2
  {
    hide ListInv, CursorsInv, TotalWeight, NumKeyed;
    ListParts(s.chks, k);
    assert s.chks[..k + 1] == s.chks[..k] + [s.chks[k]];
    TotalWeightConcat(s.chks[..k], [s.chks[k]]);
    Single(s.chks[k]);
  }

  function Unnamed(views: seq<ChkView>, n: string): (r: seq<ChkView>)
    ensures |r| == |views|
  {
    seq(|views|, i requires 0 <= i < |views| => views[i].(cursors := views[i].cursors - {n}))
  }

  /** Removing a cursor: its name goes, the others stay where they are. */
  lemma {:induction false} RemovedRep(
      pc: CheckpointCursor, taps: map<string, CheckpointCursor>, s: State,
      list: seq<Checkpoint>, views: seq<ChkView>, mc: nat, nc: nat, n: string)
    requires Inv(s) && ListsRep(views, s.chks, mc, nc) && NamesRep(views, s.cursors)
    requires CursorsRep(pc, taps, s.cursors, list, views) && n != PERSISTENCE
    ensures var s', views' := RemoveTap(s, n).0, Unnamed(views, n);
            && Inv(s') && ListsRep(views', s'.chks, mc, nc) && NamesRep(views', s'.cursors)
            && CursorsRep(pc, taps - {n}, s'.cursors, list, views')
  {
    hide ListInv, TotalWeight, CursorOk, ListsRep, CursorRep;
    var s', views' := RemoveTap(s, n).0, Unnamed(views, n);
    NamesOnlyLists(views, views', s.chks, mc, nc);
    forall i | 0 <= i < |views| ensures views'[i].cursors == NamesAt(s'.cursors, i) {
      assert views[i].cursors == NamesAt(s.cursors, i);
    }
    NamesOnlyCursor(pc, PERSISTENCE, s.cursors, list, views, views');
    forall k | k in taps - {n} ensures CursorAt(taps[k], k, s'.cursors, list, views') {
      NamesOnlyCursor(taps[k], k, s.cursors, list, views, views');
    }
  }

  /** A checkpoint after its end entry, if it has one at the back, was popped. */
  function Popped(v: ChkView): ChkView {
    if |v.toWrite| > 0 && v.toWrite[|v.toWrite| - 1].item.op == OpCheckpointEnd
    then v.(toWrite := v.toWrite[..|v.toWrite| - 1])
    else v
  }

  // ---------------------------------------------------------------- merging several checkpoints

  /** The checkpoint at `lc` with those from `j` on merged into it. */
  function MergedChk(chks: seq<Chk>, j: nat, lc: nat): Chk
    requires j <= lc < |chks|
  {
    chks[lc].(items := MergeAll(chks[j..lc], chks[lc].items))
  }

  /** The checkpoints from `j` up to `lc` are merged into the one at `lc`. */
  ghost predicate MergedDown(
      v: ChkView, views: seq<ChkView>, chks: seq<Chk>, j: nat, lc: nat, mc: nat, nc: nat, dropped: int)
  {
    && j <= lc < |chks| == |views|
    && ChkRep(v, MergedChk(chks, j, lc), mc, nc) && v.cursors == views[lc].cursors
    && |MergedChk(chks, j, lc).items| >= |chks[lc].items|
    && KeptNodes(views[lc].toWrite, v.toWrite, FirstKeyed(chks[lc].items), |MergedChk(chks, j, lc).items| - |chks[lc].items|)
    && (forall i :: 0 <= i < j ==> Older(views[i].keyIndex, v.keyIndex))
    && (forall i :: lc < i < |views| ==> Older(v.keyIndex, views[i].keyIndex))
    && dropped == TotalWeight(chks[j..lc]) - (|MergedChk(chks, j, lc).items| - |chks[lc].items|)
  }

  lemma {:induction false} MergeDownStarts(views: seq<ChkView>, s: State, lc: nat, mc: nat, nc: nat)
    requires Inv(s) && ListsRep(views, s.chks, mc, nc) && lc < |s.chks|
    ensures |views| == |s.chks| && MergedDown(views[lc], views, s.chks, lc, lc, mc, nc, 0)
  {
    hide ListInv, CursorsInv, Older, ListRep, NumKeyed;
    assert s.chks[lc..lc] == [];
    ListsAt(views, s.chks, mc, nc, lc);
    ChkRepLength(views[lc], s.chks[lc], mc, nc);
  }

  /** What the next merge needs. */
  lemma {:induction false} MergeDownReady(
      v: ChkView, views: seq<ChkView>, s: State, j: nat, lc: nat, mc: nat, nc0: nat, nc: nat, dropped: int)
    requires Inv(s) && ListsRep(views, s.chks, mc, nc0) && nc0 <= nc && 0 < j
    requires MergedDown(v, views, s.chks, j, lc, mc, nc, dropped)
    ensures ChkInv(MergedChk(s.chks, j, lc)) && ChkInv(s.chks[j - 1])
    ensures ChkRep(v, MergedChk(s.chks, j, lc), mc, nc)
    ensures ChkRep(views[j - 1], s.chks[j - 1], mc, nc) && Older(views[j - 1].keyIndex, v.keyIndex)
  {
    hide CursorsInv, Older, ChkRep, KeptNodes, ChkInv, TotalWeight, MergeAll;
    ListsAt(views, s.chks, mc, nc0, j - 1);
    LaterRep(views[j - 1], s.chks[j - 1], mc, nc0, mc, nc);
    MergeAllKeepsChk(s.chks[j..lc], s.chks[lc]);
  }

  lemma {:induction false} MergeDownSizes(s: State, j: nat, lc: nat)
    requires Inv(s) && j < lc < |s.chks|
    ensures MergedChk(s.chks, j, lc).items == Merge(s.chks[j].items, MergedChk(s.chks, j + 1, lc).items)
    ensures FirstKeyed(MergedChk(s.chks, j + 1, lc).items) == FirstKeyed(s.chks[lc].items)
    ensures |MergedChk(s.chks, j, lc).items|
            == |MergedChk(s.chks, j + 1, lc).items| + |Missing(s.chks[j].items, MergedChk(s.chks, j + 1, lc).items)|
    ensures TotalWeight(s.chks[j..lc]) == NumKeyed(s.chks[j].items) + 2 + TotalWeight(s.chks[j + 1..lc])
  {
    hide ListInv, CursorsInv, MergeAll, Merge, Missing, NumKeyed, FirstKeyed;
    MergeAllStep(s.chks, j + 1, lc, s.chks[lc].items);
    MergeAllFirst(s.chks[j + 1..lc], s.chks[lc].items);
    MergeSize(s.chks[j].items, MergedChk(s.chks, j + 1, lc).items);
    ListParts(s.chks, j);
    assert s.chks[j..lc][0] == s.chks[j] && s.chks[j..lc][1..] == s.chks[j + 1..lc];
  }

  lemma {:induction false} MergeDownOlder(
      v: ChkView, v': ChkView, views: seq<ChkView>, chks: seq<Chk>, j: nat, lc: nat, mc: nat, nc: nat)
    requires |views| == |chks| > lc
    requires ListsRep(views, chks, mc, nc) && j < lc && MidsFrom(v'.keyIndex, v.keyIndex, views[j].keyIndex)
    requires forall i :: 0 <= i < j + 1 ==> Older(views[i].keyIndex, v.keyIndex)
    requires forall i :: lc < i < |views| ==> Older(v.keyIndex, views[i].keyIndex)
    ensures forall i :: 0 <= i < j ==> Older(views[i].keyIndex, v'.keyIndex)
    ensures forall i :: lc < i < |views| ==> Older(v'.keyIndex, views[i].keyIndex)
  {
    hide ChkRep, Older, MidsFrom;
    forall i | 0 <= i < j ensures Older(views[i].keyIndex, v'.keyIndex) {
      FromOlder(v'.keyIndex, v.keyIndex, views[j].keyIndex, views[i].keyIndex);
    }
    forall i | lc < i < |views| ensures Older(v'.keyIndex, views[i].keyIndex) {
      FromOlder(v'.keyIndex, v.keyIndex, views[j].keyIndex, views[i].keyIndex);
    }
  }

  lemma {:induction false} MergeDownPass(
      v: ChkView, v': ChkView, views: seq<ChkView>, s: State, j: nat, lc: nat, mc: nat, nc0: nat, nc: nat, nc': nat,
      dropped: int, added: nat)
    requires Inv(s) && j < lc < |s.chks| == |views|
    requires ListsRep(views, s.chks, mc, nc0) && MergedDown(v, views, s.chks, j + 1, lc, mc, nc, dropped)
    requires ChkRep(v', MergedChk(s.chks, j + 1, lc).(items := Merge(s.chks[j].items, MergedChk(s.chks, j + 1, lc).items)), mc, nc')
    requires MidsFrom(v'.keyIndex, v.keyIndex, views[j].keyIndex) && v'.cursors == v.cursors
    requires KeptNodes(v.toWrite, v'.toWrite, FirstKeyed(MergedChk(s.chks, j + 1, lc).items), added)
    requires added == |Missing(s.chks[j].items, MergedChk(s.chks, j + 1, lc).items)|
    ensures MergedDown(v', views, s.chks, j, lc, mc, nc', dropped + (views[j].numItems - added) + 2)
  {
    hide ListInv, CursorsInv, Older, KeptNodes, MidsFrom, ListRep, TotalWeight, NumKeyed, Merge, MergeAll, FirstKeyed, Missing;
    MergeDownSizes(s, j, lc);
    ListsAt(views, s.chks, mc, nc0, j);
    MergeDownOlder(v, v', views, s.chks, j, lc, mc, nc0);
    KeptTwice(views[lc].toWrite, v.toWrite, v'.toWrite, FirstKeyed(s.chks[lc].items),
              |MergedChk(s.chks, j + 1, lc).items| - |s.chks[lc].items|, added);
  }

  function Repositioned(names: set<string>, n: string, c: CheckpointCursor, target: Checkpoint, pos: nat): CheckpointCursor {
    if n in names then c.(currentCheckpoint := target, currentPos := pos, offset := 0) else c
  }

  function Lowered(names: set<string>, n: string, c: CheckpointCursor, d: nat): CheckpointCursor {
    if n in names then c.(offset := Decr(n, c.offset, d)) else c
  }

  /** How a collapse moves cursors: slow ones to the beginning of the merged checkpoint, the others stay. */
  ghost predicate CollapsedFrom(
      pc: CheckpointCursor, taps: map<string, CheckpointCursor>, pc': CheckpointCursor, taps': map<string, CheckpointCursor>,
      slow: set<string>, target: Checkpoint, begin: nat, d: nat)
  {
    && pc' == CollapsedCursor(PERSISTENCE, pc, slow, target, begin, d)
    && taps'.Keys == taps.Keys
    && forall n :: n in taps ==> taps'[n] == CollapsedCursor(n, taps[n], slow, target, begin, d)
  }

  function CollapsedCursor(n: string, c: CheckpointCursor, slow: set<string>, target: Checkpoint, begin: nat, d: nat): CheckpointCursor {
    if n in slow then c.(currentCheckpoint := target, currentPos := begin, offset := 0)
    else c.(offset := Decr(n, c.offset, d))
  }

  /** The checkpoints before `lc` are merged into the one there, and the cursors in them stand at its beginning. */
  ghost predicate ClosedMerged(
      pc: CheckpointCursor, taps: map<string, CheckpointCursor>, pc': CheckpointCursor, taps': map<string, CheckpointCursor>,
      s: State, views: seq<ChkView>, lc: nat, target: Checkpoint, v: ChkView, slow: set<string>, mc: nat, nc: nat, d: nat)
  {
    && |s.chks| == |views| == lc + 2 && |v.toWrite| >= 2
    && (forall n :: n in slow <==> n in s.cursors && s.cursors[n].chk < lc)
    && CollapsedFrom(pc, taps, pc', taps', slow, target, v.toWrite[0].nid, d)
    && MergedDown(v, views, s.chks, 0, lc, mc, nc, d)
  }

  lemma {:induction false} CollapseReady(
      views: seq<ChkView>, v: ChkView, s: State, lc: nat, mc: nat, nc0: nat, nc: nat, dropped: int)
    requires Inv(s) && ListsRep(views, s.chks, mc, nc0) && MergedDown(v, views, s.chks, 0, lc, mc, nc, dropped)
    ensures dropped >= 0 && |v.toWrite| >= 2 && |views| == |s.chks|
  {
    hide ListInv, CursorsInv, TotalWeight, NumKeyed, MergeAll, Older, KeptNodes, NodesOk, IndexOk, MidsOk;
    assert s.chks[0..lc] == s.chks[..lc];
    CollapseIntoWeights(s, lc);
    ListParts(s.chks, lc);
  }

  /** Slow and fast names together are all cursors. */
  lemma {:induction false} FastNames(
      views: seq<ChkView>, s: State, lc: nat, fast: set<string>, slow: set<string>,
      pc: CheckpointCursor, taps: map<string, CheckpointCursor>, list: seq<Checkpoint>)
    requires Inv(s) && NamesRep(views, s.cursors) && CursorsRep(pc, taps, s.cursors, list, views)
    requires |views| == |s.chks| == lc + 2 && fast == views[lc].cursors + views[lc + 1].cursors
    requires forall n :: n in slow <==> n in s.cursors && s.cursors[n].chk < lc
    ensures slow + fast == taps.Keys + {PERSISTENCE} && slow !! fast && PERSISTENCE !in taps
  {
    hide ListInv, TotalWeight, CursorAt;
    assert views[lc].cursors == NamesAt(s.cursors, lc) && views[lc + 1].cursors == NamesAt(s.cursors, lc + 1);
    forall n | n in s.cursors ensures n in slow + fast {
      assert CursorOk(s.chks, s.cursors[n]);
    }
  }

  lemma {:induction false} BothMoves(
      pc: CheckpointCursor, taps: map<string, CheckpointCursor>, pc': CheckpointCursor, taps': map<string, CheckpointCursor>,
      slow: set<string>, fast: set<string>, target: Checkpoint, begin: nat, d: nat)
    requires slow + fast == taps.Keys + {PERSISTENCE} && slow !! fast && PERSISTENCE !in taps
    requires pc' == Lowered(fast, PERSISTENCE, Repositioned(slow, PERSISTENCE, pc, target, begin), d)
    requires taps'.Keys == taps.Keys
    requires forall n :: n in taps ==> taps'[n] == Lowered(fast, n, Repositioned(slow, n, taps[n], target, begin), d)
    ensures CollapsedFrom(pc, taps, pc', taps', slow, target, begin, d)
  {
    assert PERSISTENCE in slow + fast;
    forall n | n in taps ensures taps'[n] == CollapsedCursor(n, taps[n], slow, target, begin, d) {
      assert n in slow + fast;
    }
  }

  lemma {:induction false} CollapsedLists(
      views: seq<ChkView>, v: ChkView, s: State, lc: nat, mc: nat, nc0: nat, nc: nat, dropped: int, names: set<string>)
    requires ListsRep(views, s.chks, mc, nc0) && nc0 <= nc && MergedDown(v, views, s.chks, 0, lc, mc, nc, dropped)
    ensures lc < |s.chks| == |views|
    ensures ListsRep([v.(cursors := names)] + views[lc + 1..], CollapseInto(s, lc).chks, mc, nc)
  {
    hide TotalWeight, NumKeyed, MergeAll, Older, KeptNodes, ListRep, FirstKeyed;
    assert s.chks[0..lc] == s.chks[..lc];
    var w := v.(cursors := names);
    var r, cs := [w] + views[lc + 1..], CollapseInto(s, lc).chks;
    forall i | 0 <= i < |r| ensures ChkRep(r[i], cs[i], mc, nc) {
      if i > 0 {
        assert r[i] == views[lc + i] && cs[i] == s.chks[lc + i];
        LaterRep(views[lc + i], s.chks[lc + i], mc, nc0, mc, nc);
      }
    }
    forall i, j | 0 <= i < j < |r| ensures Older(r[i].keyIndex, r[j].keyIndex) {
      assert r[j] == views[lc + j];
      assert i > 0 ==> r[i] == views[lc + i];
    }
  }

  lemma {:induction false} CollapsedNames(views: seq<ChkView>, v: ChkView, s: State, lc: nat, slow: set<string>)
    requires NamesRep(views, s.cursors) && lc < |views| == |s.chks| && v.cursors == views[lc].cursors
    requires forall n :: n in slow <==> n in s.cursors && s.cursors[n].chk < lc
    ensures NamesRep([v.(cursors := v.cursors + slow)] + views[lc + 1..], CollapseInto(s, lc).cursors)
  {
    hide MergeAll, TotalWeight, FirstKeyed, Decr;
    var r, cs := [v.(cursors := v.cursors + slow)] + views[lc + 1..], CollapseInto(s, lc).cursors;
    assert cs.Keys == s.cursors.Keys;
    assert forall n :: n in cs ==> cs[n].chk == if s.cursors[n].chk < lc then 0 else s.cursors[n].chk - lc;
    forall i | 0 <= i < |r| ensures r[i].cursors == NamesAt(cs, i) {
      assert views[lc + i].cursors == NamesAt(s.cursors, lc + i);
    }
  }

  lemma {:induction false} CollapsedCursorAt(
      c: CheckpointCursor, n: string, s: State, list: seq<Checkpoint>, views: seq<ChkView>, lc: nat, v: ChkView,
      slow: set<string>, d: nat)
    requires CursorAt(c, n, s.cursors, list, views) && lc < |views| == |list| == |s.chks| && |v.toWrite| >= 1
    requires n in slow <==> s.cursors[n].chk < lc
    requires var items, merged := s.chks[lc].items, MergeAll(s.chks[..lc], s.chks[lc].items);
             && |merged| >= |items| && d == TotalWeight(s.chks[..lc]) - (|merged| - |items|)
             && KeptNodes(views[lc].toWrite, v.toWrite, FirstKeyed(items), |merged| - |items|)
    ensures CursorAt(CollapsedCursor(n, c, slow, list[lc], v.toWrite[0].nid, d), n, CollapseInto(s, lc).cursors, list[lc..],
                     [v] + views[lc + 1..])
  {
    hide MergeAll, TotalWeight, FirstKeyed, Decr;
    var m, cs, vs := s.cursors[n], CollapseInto(s, lc).cursors, [v] + views[lc + 1..];
    var first, added := FirstKeyed(s.chks[lc].items), |MergeAll(s.chks[..lc], s.chks[lc].items)| - |s.chks[lc].items|;
    assert cs[n] == AfterCollapse(n, m, lc, first, added, d);
    if m.chk > lc {
      assert vs[m.chk - lc] == views[m.chk] && list[lc..][m.chk - lc] == list[m.chk];
    } else if m.chk == lc {
      assert vs[0] == v && list[lc..][0] == list[lc];
      if m.pos >= first {
        assert v.toWrite[m.pos + added] == views[lc].toWrite[m.pos];
      }
    }
  }

  /** After a collapse, lists, names and cursors represent the collapsed model. */
  lemma {:induction false} CollapsedRep(
      pc: CheckpointCursor, taps: map<string, CheckpointCursor>, pc': CheckpointCursor, taps': map<string, CheckpointCursor>,
      s: State, list: seq<Checkpoint>, views: seq<ChkView>, lc: nat, v: ChkView, slow: set<string>,
      mc: nat, nc0: nat, nc: nat, d: nat)
    requires Inv(s) && ListsRep(views, s.chks, mc, nc0) && nc0 <= nc && MergedDown(v, views, s.chks, 0, lc, mc, nc, d)
    requires NamesRep(views, s.cursors) && CursorsRep(pc, taps, s.cursors, list, views) && |list| == |views|
    requires lc < |s.chks| - 1
    requires forall n :: n in slow <==> n in s.cursors && s.cursors[n].chk < lc
    requires |list| > lc && |v.toWrite| >= 1 && CollapsedFrom(pc, taps, pc', taps', slow, list[lc], v.toWrite[0].nid, d)
    ensures |s.chks| > lc && |views| == |s.chks|
    ensures var s', vs := CollapseInto(s, lc), [v.(cursors := v.cursors + slow)] + views[lc + 1..];
            && Inv(s') && s'.numItems == s.numItems - d
            && ListsRep(vs, s'.chks, mc, nc) && NamesRep(vs, s'.cursors) && CursorsRep(pc', taps', s'.cursors, list[lc..], vs)
  {
    hide Inv, ListsRep, NamesRep, CursorAt, ChkRep, Older, TotalWeight, FirstKeyed, KeptNodes, MergeAll, CollapsedCursor;
    var s', w := CollapseInto(s, lc), v.(cursors := v.cursors + slow);
    assert s.chks[0..lc] == s.chks[..lc];
    CollapseIntoKeepsInv(s, lc);
    CollapsedLists(views, v, s, lc, mc, nc0, nc, d, v.cursors + slow);
    CollapsedNames(views, v, s, lc, slow);
    CollapsedCursorIn(pc, PERSISTENCE, s, list, views, lc, v, w, slow, d);
    forall n | n in taps' ensures CursorAt(taps'[n], n, s'.cursors, list[lc..], [w] + views[lc + 1..]) {
      CollapsedCursorIn(taps[n], n, s, list, views, lc, v, w, slow, d);
    }
  }

  lemma {:induction false} CollapsedCursorIn(
      c: CheckpointCursor, n: string, s: State, list: seq<Checkpoint>, views: seq<ChkView>, lc: nat, v: ChkView, w: ChkView,
      slow: set<string>, d: nat)
    requires CursorAt(c, n, s.cursors, list, views) && lc < |views| == |list| == |s.chks| && |v.toWrite| >= 1
    requires n in slow <==> n in s.cursors && s.cursors[n].chk < lc
    requires w == v.(cursors := w.cursors)
    requires var items, merged := s.chks[lc].items, MergeAll(s.chks[..lc], s.chks[lc].items);
             && |merged| >= |items| && d == TotalWeight(s.chks[..lc]) - (|merged| - |items|)
             && KeptNodes(views[lc].toWrite, v.toWrite, FirstKeyed(items), |merged| - |items|)
    ensures CursorAt(CollapsedCursor(n, c, slow, list[lc], v.toWrite[0].nid, d), n, CollapseInto(s, lc).cursors, list[lc..],
                     [w] + views[lc + 1..])
  {
    hide CursorRep, MergeAll, TotalWeight, FirstKeyed, CollapseInto;
    CollapsedCursorAt(c, n, s, list, views, lc, w, slow, d);
  }

  function SetCursor(s: State, n: string, c: Cursor): State {
    s.(cursors := s.cursors[n := c])
  }

  lemma {:induction false} SubsetSize(a: set<string>, b: set<string>)
    requires a <= b
    ensures |a| <= |b| && (|a| == |b| <==> a == b)
  {
    assert b == a + (b - a);
    assert |b| == |a| + |b - a|;
  }

  lemma {:induction false} KeysOf(
      pc: CheckpointCursor, taps: map<string, CheckpointCursor>, cursors: map<string, Cursor>,
      list: seq<Checkpoint>, views: seq<ChkView>)
    requires CursorsRep(pc, taps, cursors, list, views)
    ensures cursors.Keys == taps.Keys + {PERSISTENCE} && PERSISTENCE !in taps
  {
  }

  /** Counting the names registered in the newest checkpoint tells whether every cursor is there. */
  lemma {:induction false} AllInOpen(
      pc: CheckpointCursor, taps: map<string, CheckpointCursor>, s: State, list: seq<Checkpoint>, views: seq<ChkView>)
    requires |s.chks| >= 1 && |views| == |s.chks| && NamesRep(views, s.cursors) && CursorsRep(pc, taps, s.cursors, list, views)
    ensures 1 + |taps| == |views[|views| - 1].cursors| <==> forall n | n in s.cursors :: s.cursors[n].chk == |s.chks| - 1
  {
    hide CursorAt;
    var names := NamesAt(s.cursors, |views| - 1);
    assert |taps| == |taps.Keys|;
    assert |s.cursors.Keys| == |taps.Keys| + 1;
    SubsetSize(names, s.cursors.Keys);
    assert names == s.cursors.Keys <==> forall n | n in s.cursors :: n in names;
  }

  /** Every cursor but those still to do has stepped over. */
  ghost function SteppedSome(s: State, oldId: nat, todo: set<string>): State {
    s.(cursors := map n | n in s.cursors :: if n in todo then s.cursors[n] else SteppedOver(s.chks, s.cursors[n], oldId))
  }

  lemma {:induction false} SteppedStart(s: State, oldId: nat)
    ensures SteppedSome(s, oldId, s.cursors.Keys) == s
  {
    hide SteppedOver;
    assert SteppedSome(s, oldId, s.cursors.Keys).cursors == s.cursors;
  }

  lemma {:induction false} SteppedNext(s: State, oldId: nat, todo: set<string>, n: string)
    requires n in todo && todo <= s.cursors.Keys
    ensures var s1 := SteppedSome(s, oldId, todo);
            && n in s1.cursors
            && SetCursor(s1, n, SteppedOver(s1.chks, s1.cursors[n], oldId)) == SteppedSome(s, oldId, todo - {n})
  {
    hide SteppedOver;
    var s1 := SteppedSome(s, oldId, todo);
    assert s1.cursors[n := SteppedOver(s.chks, s.cursors[n], oldId)] == SteppedSome(s, oldId, todo - {n}).cursors;
  }

  lemma {:induction false} SteppedEnd(s: State, oldId: nat)
    ensures SteppedSome(s, oldId, {}) == StepOver(s, oldId)
    ensures StepOver(s, oldId).numItems == s.numItems
  {
    hide SteppedOver;
    assert SteppedSome(s, oldId, {}).cursors == StepOver(s, oldId).cursors;
  }

  // ---------------------------------------------------------------- dropping checkpoints

  /** A registered name belongs to a cursor that stands in the checkpoint. */
  lemma {:induction false} RegisteredStands(
      pc: CheckpointCursor, taps: map<string, CheckpointCursor>, cursors: map<string, Cursor>,
      list: seq<Checkpoint>, views: seq<ChkView>, i: nat, n: string)
    requires NamesRep(views, cursors) && CursorsRep(pc, taps, cursors, list, views) && i < |views| == |list|
    requires n in views[i].cursors
    ensures if n == PERSISTENCE then pc.currentCheckpoint == list[i] else n in taps && taps[n].currentCheckpoint == list[i]
  {
    assert views[i].cursors == NamesAt(cursors, i);
  }

  /** How many leading checkpoints a clean-up drops. */
  ghost function Unref(s: State, keepClosed: bool): nat {
    if keepClosed && LeadingUnref(s, 0) > 1 then 1 else LeadingUnref(s, 0)
  }

  lemma {:induction false} UnrefBound(s: State)
    requires Inv(s)
    ensures LeadingUnref(s, 0) < |s.chks|
  {
    hide ListInv, TotalWeight, LeadingUnref;
    LeadingUnrefBeforeCursors(s, PERSISTENCE);
    CursorsParts(s.chks, s.cursors, PERSISTENCE);
  }

  lemma {:induction false} EmptyWeight(chks: seq<Chk>)
    ensures TotalWeight(chks[..0]) == 0
  {
  }

  lemma {:induction false} UnrefNext(s: State, i: nat)
    requires i <= LeadingUnref(s, 0)
    ensures Unreferenced(s, i) && i < |s.chks| ==> i < LeadingUnref(s, 0)
    ensures i < |s.chks| && !Unreferenced(s, i) ==> i == LeadingUnref(s, 0)
  {
    hide LeadingUnref;
  }

  lemma {:induction false} PositiveWeight(chks: seq<Chk>, r: nat)
    requires r <= |chks|
    ensures TotalWeight(chks[..r]) > 0 <==> r > 0
  {
    if r > 0 {
      assert chks[..r] != [];
    }
  }

  lemma {:induction false} DropNothing(s: State)
    ensures DropFront(s, 0) == s
  {
  }

  lemma {:induction false} DroppedLists(views: seq<ChkView>, chks: seq<Chk>, mc: nat, nc: nat, r: nat)
    requires ListsRep(views, chks, mc, nc) && r <= |chks|
    ensures ListsRep(views[r..], chks[r..], mc, nc)
  {
    hide ChkRep, Older;
  }

  lemma {:induction false} DroppedNames(views: seq<ChkView>, s: State, r: nat)
    requires Inv(s) && NamesRep(views, s.cursors) && |views| == |s.chks| && 0 < r <= LeadingUnref(s, 0)
    ensures NamesRep(views[r..], DropFront(s, r).cursors)
  {
    hide Inv, LeadingUnref, TotalWeight, Decr;
    var cs := DropFront(s, r).cursors;
    forall n | n in s.cursors ensures s.cursors[n].chk >= r {
      LeadingUnrefBeforeCursors(s, n);
    }
    forall i | 0 <= i < |views| - r ensures views[r..][i].cursors == NamesAt(cs, i) {
      assert views[i + r].cursors == NamesAt(s.cursors, i + r);
    }
  }

  lemma {:induction false} DroppedCursor(
      n: string, c: CheckpointCursor, s: State, list: seq<Checkpoint>, views: seq<ChkView>, r: nat)
    requires Inv(s) && CursorAt(c, n, s.cursors, list, views) && |views| == |s.chks| == |list| && 0 < r <= LeadingUnref(s, 0)
    ensures CursorAt(c.(offset := Decr(n, c.offset, TotalWeight(s.chks[..r]))), n, DropFront(s, r).cursors, list[r..], views[r..])
  {
    hide Inv, LeadingUnref, TotalWeight, Decr;
    LeadingUnrefBeforeCursors(s, n);
    var m := s.cursors[n];
    assert list[r..][m.chk - r] == list[m.chk] && views[r..][m.chk - r] == views[m.chk];
  }

  /** After dropping unreferenced checkpoints, lists, names and cursors represent what is left. */
  lemma {:induction false} DroppedRep(
      pc: CheckpointCursor, taps: map<string, CheckpointCursor>, pc': CheckpointCursor, taps': map<string, CheckpointCursor>,
      s: State, list: seq<Checkpoint>, views: seq<ChkView>, r: nat, mc: nat, nc: nat)
    requires Inv(s) && ListsRep(views, s.chks, mc, nc) && NamesRep(views, s.cursors) && |list| == |views| == |s.chks|
    requires CursorsRep(pc, taps, s.cursors, list, views) && 0 < r <= LeadingUnref(s, 0)
    requires var all, d := taps.Keys + {PERSISTENCE}, TotalWeight(s.chks[..r]);
             && pc' == Lowered(all, PERSISTENCE, pc, d) && taps'.Keys == taps.Keys
             && forall n :: n in taps' ==> taps'[n] == Lowered(all, n, taps[n], d)
    ensures var s' := DropFront(s, r);
            && Inv(s') && s'.numItems == s.numItems - TotalWeight(s.chks[..r])
            && ListsRep(views[r..], s'.chks, mc, nc) && NamesRep(views[r..], s'.cursors)
            && CursorsRep(pc', taps', s'.cursors, list[r..], views[r..])
  {
    hide Inv, ListsRep, NamesRep, CursorAt, LeadingUnref, TotalWeight, Decr;
    DropFrontKeepsInv(s, r);
    DroppedLists(views, s.chks, mc, nc, r);
    DroppedNames(views, s, r);
    DroppedCursor(PERSISTENCE, pc, s, list, views, r);
    forall n | n in taps' ensures CursorAt(taps'[n], n, DropFront(s, r).cursors, list[r..], views[r..]) {
      DroppedCursor(n, taps[n], s, list, views, r);
    }
  }

  // ---------------------------------------------------------------- clearing and rolling back

  lemma {:induction false} ResetCursorAt(
      c: CheckpointCursor, n: string, m0: State, list0: seq<Checkpoint>, views0: seq<ChkView>, chk: Checkpoint, w: ChkView)
    requires CursorAt(c, n, m0.cursors, list0, views0) && |w.toWrite| >= 1
    ensures CursorAt(c.(currentCheckpoint := chk, currentPos := w.toWrite[0].nid, offset := 0), n,
                     CheckpointLog.ResetCursors(m0).cursors, [chk], [w])
  {
  }

  /** With every cursor at the beginning of the only checkpoint, names and cursors represent the reset model. */
  lemma {:induction false} ResetRep(
      pc: CheckpointCursor, taps: map<string, CheckpointCursor>, pc': CheckpointCursor, taps': map<string, CheckpointCursor>,
      m0: State, list0: seq<Checkpoint>, views0: seq<ChkView>, chk: Checkpoint, v: ChkView, w: ChkView, chks: seq<Chk>, mc: nat, nc: nat)
    requires CursorsRep(pc, taps, m0.cursors, list0, views0) && ListsRep([v], chks, mc, nc)
    requires w == v.(cursors := m0.cursors.Keys) && |v.toWrite| >= 1
    requires var all, begin := taps.Keys + {PERSISTENCE}, v.toWrite[0].nid;
             && pc' == Repositioned(all, PERSISTENCE, pc, chk, begin) && taps'.Keys == taps.Keys
             && forall n :: n in taps' && n != PERSISTENCE ==> taps'[n] == Repositioned(all, n, taps[n], chk, begin)
    ensures var cs := CheckpointLog.ResetCursors(m0).cursors;
            ListsRep([w], chks, mc, nc) && NamesRep([w], cs) && CursorsRep(pc', taps', cs, [chk], [w])
  {
    hide ListsRep, CursorAt;
    var cs := CheckpointLog.ResetCursors(m0).cursors;
    assert SameButNames([v], [w]);
    NamesOnlyLists([v], [w], chks, mc, nc);
    assert NamesAt(cs, 0) == m0.cursors.Keys;
    ResetCursorAt(pc, PERSISTENCE, m0, list0, views0, chk, w);
    forall n | n in taps' ensures CursorAt(taps'[n], n, cs, [chk], [w]) {
      ResetCursorAt(taps[n], n, m0, list0, views0, chk, w);
    }
  }

  lemma {:induction false} ClearParts(s: State, vbState: VBState, nc: nat)
    requires Inv(s)
    ensures var id, m := if vbState == Active then 1 else 0, CheckpointLog.Clear(s, vbState);
            && Inv(m) && m.numItems == 1 && m.cursors == CheckpointLog.ResetCursors(s).cursors
            && ListsRep([NewView(id, nc)], m.chks, 2, nc + 2)
  {
    hide ListInv, TotalWeight, ChkRep;
    ClearKeepsInv(s, vbState);
    NewViewRep(if vbState == Active then 1 else 0, 2, nc);
  }

  function ReopenedView(v: ChkView): ChkView {
    if v.isOpen then v else Popped(v).(isOpen := true)
  }

  function RolledView(v: ChkView, id: nat): ChkView {
    RelabelledView(ReopenedView(v), id)
  }

  /** Popping an entry without a key leaves the index right. */
  lemma {:induction false} PopRep(nodes: seq<Node>, idx: Index, items: seq<Item>, mc: nat, nc: nat)
    requires ListRep(nodes, idx, items, mc, nc) && |items| >= 1 && !Keyed(items[|items| - 1])
    ensures ListRep(nodes[..|nodes| - 1], idx, items[..|items| - 1], mc, nc)
  {
    var r := nodes[..|nodes| - 1];
    forall k | k in idx ensures exists i :: 0 <= i < |r| && r[i].item.key == k {
      var i :| 0 <= i < |nodes| && nodes[i].item.key == k;
      assert r[i].item.key == k;
    }
  }

  lemma {:induction false} ReopenedRep(v: ChkView, c: Chk, mc: nat, nc: nat)
    requires ChkRep(v, c, mc, nc) && ChkInv(c)
    ensures ChkRep(ReopenedView(v), Reopen(c), mc, nc)
  {
    hide NumKeyed, FirstKeyed, DistinctKeys, NodesOk, IndexOk, MidsOk;
    ReopenKeepsChk(c);
    var l := |c.items| - 1;
    if !c.open && c.items[l].op == OpCheckpointEnd {
      assert v.toWrite[l].item == c.items[l];
      assert !Keyed(c.items[l]);
      PopRep(v.toWrite, v.keyIndex, c.items, mc, nc);
    }
  }

  lemma {:induction false} RollbackCursors(s: State, id: nat)
    requires Inv(s)
    ensures Rollback(s, id).cursors == CheckpointLog.ResetCursors(s).cursors
  {
    hide ListInv, CursorsInv, TotalWeight, MergeAll, FirstKeyed, Reopen, Decr;
    ListNonEmpty(s.chks);
  }

  lemma {:induction false} RolledBackRep(v: ChkView, c: Chk, id: nat, mc: nat, nc: nat)
    requires ChkRep(v, c, mc, nc) && ChkInv(c)
    ensures |Popped(v).toWrite| >= 2
    ensures |Reopen(c).items| >= 2
    ensures ChkRep(RolledView(v, id), Reopen(c).(id := id, items := Reopen(c).items[1 := StartItem(id)]), mc, nc)
    ensures |RolledView(v, id).toWrite| >= 2 && RolledView(v, id).cursors == v.cursors
  {
    hide NumKeyed, FirstKeyed, DistinctKeys, NodesOk, IndexOk, MidsOk, Reopen;
    ReopenedRep(v, c, mc, nc);
    ReopenKeepsChk(c);
    RelabelledRep(ReopenedView(v), Reopen(c), mc, nc, id);
    EndIsLate(c);
    ChkRepLength(v, c, mc, nc);
    ChkRepLength(ReopenedView(v), Reopen(c), mc, nc);
  }

  lemma {:induction false} EndIsLate(c: Chk)
    requires ChkInv(c)
    ensures c.items[|c.items| - 1].op == OpCheckpointEnd ==> |c.items| >= 3
  {
  }

  /** What a rollback leaves represents the rolled-back model. */
  lemma {:induction false} RollbackRep(
      views: seq<ChkView>, v: ChkView, s: State, id: nat, mc: nat, nc0: nat, nc: nat, dropped: int)
    requires Inv(s) && ListsRep(views, s.chks, mc, nc0) && |s.chks| >= 1
    requires MergedDown(v, views, s.chks, 0, |s.chks| - 1, mc, nc, dropped) && NamesRep(views, s.cursors)
    ensures |Popped(v).toWrite| >= 2 && |RolledView(v, id).toWrite| >= 2
    ensures ListsRep([RolledView(v, id)], Rollback(s, id).chks, mc, nc)
    ensures RolledView(v, id).cursors <= s.cursors.Keys
    ensures Inv(Rollback(s, id)) && Rollback(s, id).cursors == CheckpointLog.ResetCursors(s).cursors
    ensures Rollback(s, id).numItems == s.numItems - dropped - if v.isOpen then 0 else 1
  {
    hide ListInv, CursorsInv, TotalWeight, NumKeyed, MergeAll, Older, KeptNodes, ListRep, ChkInv, Rollback, RolledView, Popped, Reopen;
    var last := |s.chks| - 1;
    assert s.chks[0..last] == s.chks[..last];
    var c := MergedChk(s.chks, 0, last);
    assert ChkInv(c) by { CollapseIntoWeights(s, last); }
    RolledBackRep(v, c, id, mc, nc);
    RollbackChk(s, id);
    RollbackKeepsInv(s, id);
    RollbackCursors(s, id);
    assert v.cursors == NamesAt(s.cursors, last);
    RollbackCount(s, id);
  }

  lemma {:induction false} RollbackCount(s: State, id: nat)
    requires Inv(s)
    ensures |s.chks| >= 1
    ensures var last := |s.chks| - 1;
            var added := |MergeAll(s.chks[..last], s.chks[last].items)| - |s.chks[last].items|;
            Rollback(s, id).numItems == s.numItems - (TotalWeight(s.chks[..last]) - added) - if s.chks[last].open then 0 else 1
  {
    hide ListInv, CursorsInv, TotalWeight, MergeAll, Reopen;
    ListNonEmpty(s.chks);
    CollapseIntoWeights(s, |s.chks| - 1);
  }

  lemma {:induction false} OnlyBackfill(s: State)
    requires Inv(s) && Back(s).id == 0
    ensures |s.chks| == 1
  {
    hide ChkInv, CursorsInv, TotalWeight;
    var first := s.chks[0];
  }

  class Checkpoint {
    var id: nat
    var isOpen: bool
    var numItems: nat
    var cursors: set<string>
    var toWrite: seq<Node>
    var keyIndex: Index

    constructor (id: nat)
      ensures View() == ChkView(id, true, 0, {}, [], map[])
    {
      this.id := id;
      this.isOpen := true;
      this.numItems := 0;
      this.cursors := {};
      this.toWrite := [];
      this.keyIndex := map[];
    }

    function View(): ChkView
      reads this
    {
      ChkView(id, isOpen, numItems, cursors, toWrite, keyIndex)
    }

    /**
     Queue an entry. A mutation whose key the checkpoint already holds replaces the old entry and
     every cursor is adjusted; a bookkeeping entry is only appended.
     */
    method QueueDirty(item: Item, mgr: CheckpointManager) returns (rv: QueueResult)
      requires isOpen
      requires item.key in keyIndex ==> IndexOf(toWrite, keyIndex[item.key].position) < |toWrite|
      requires !Keyed(item) ==> "" !in keyIndex
      modifies this`toWrite, this`keyIndex, this`numItems
      modifies mgr`nodeCounter, mgr`mutationCounter, mgr`persistenceCursor, mgr`tapCursors
      ensures mgr.nodeCounter == old(mgr.nodeCounter) + 1 && mgr.mutationCounter == old(mgr.mutationCounter) + 1
      ensures rv == if item.key in old(keyIndex) then ExistingItem else NewItem
      ensures View() == if Keyed(item) then Requeued(old(View()), old(mgr.mutationCounter), old(mgr.nodeCounter), item)
                        else old(View()).(toWrite := old(toWrite) + [Node(old(mgr.nodeCounter), item)])
      ensures mgr.persistenceCursor
              == CursorAfter(PERSISTENCE, old(mgr.persistenceCursor), this, old(View()), item.key)
      ensures mgr.tapCursors.Keys == old(mgr.tapCursors).Keys
      ensures forall n :: n in mgr.tapCursors ==>
                mgr.tapCursors[n] == CursorAfter(n, old(mgr.tapCursors)[n], this, old(View()), item.key)
    {
      mgr.mutationCounter := mgr.mutationCounter + 1;
      var newMutationId := mgr.mutationCounter;
      var queued := item;
      if item.key in keyIndex {
        var currPos, currMid := keyIndex[item.key].position, keyIndex[item.key].mutationId;
        mgr.ShiftCursors(this, currPos, currMid);
        var at := IndexOf(toWrite, currPos);
        queued := item.(queuedTime := toWrite[at].item.queuedTime);
        toWrite := Without(toWrite, at);
        rv := ExistingItem;
      } else {
        if item.key != "" {
          numItems := numItems + 1;
        }
        rv := NewItem;
      }
      var nid := mgr.nodeCounter;
      mgr.nodeCounter := nid + 1;
      toWrite := toWrite + [Node(nid, queued)];
      if item.key != "" {
        keyIndex := keyIndex[item.key := IndexEntry(nid, newMutationId)];
      }
    }

    /** Queue the dummy, which a cursor can always step back to, and the start entry. */
    method QueueStart(mgr: CheckpointManager)
      requires View() == ChkView(id, true, 0, {}, [], map[])
      modifies this`toWrite, this`keyIndex, this`numItems
      modifies mgr`nodeCounter, mgr`mutationCounter, mgr`persistenceCursor, mgr`tapCursors
      ensures View() == NewView(id, old(mgr.nodeCounter))
      ensures mgr.nodeCounter == old(mgr.nodeCounter) + 2 && mgr.mutationCounter == old(mgr.mutationCounter) + 2
      ensures mgr.persistenceCursor == old(mgr.persistenceCursor) && mgr.tapCursors == old(mgr.tapCursors)
    {
      hide CursorAfter, Requeued, IndexOf;
      ghost var pc, taps, v := mgr.persistenceCursor, mgr.tapCursors, View();
      var r1 := QueueDirty(DummyItem(), mgr);
      MetaKeepsCursors(pc, taps, mgr.persistenceCursor, mgr.tapCursors, this, v);
      v := View();
      var r2 := QueueDirty(StartItem(id), mgr);
      MetaKeepsCursors(pc, taps, mgr.persistenceCursor, mgr.tapCursors, this, v);
    }

    /** Position of the first mutation in the list. */
    method FirstMutation(ghost items: seq<Item>) returns (pos: nat)
      requires SameItems(toWrite, items)
      ensures pos == FirstKeyed(items)
    {
      hide FirstKeyed;
      pos := 0;
      while pos < |toWrite| && toWrite[pos].item.key == ""
        invariant pos <= |toWrite|
        invariant forall i :: 0 <= i < pos ==> !Keyed(items[i])
      {
        pos := pos + 1;
      }
    }

    /** Insert the mutations of the previous checkpoint that this one does not have, from the back. */
    method MergePrevCheckpoint(prev: Checkpoint, mgr: CheckpointManager, ghost c: Chk, ghost pc: Chk)
      returns (numNewItems: nat)
      requires this != prev && ChkInv(c) && ChkInv(pc)
      requires ChkRep(View(), c, mgr.mutationCounter, mgr.nodeCounter)
      requires ChkRep(prev.View(), pc, mgr.mutationCounter, mgr.nodeCounter)
      requires Older(prev.keyIndex, keyIndex)
      modifies this`numItems, this`toWrite, this`keyIndex, mgr`nodeCounter
      ensures mgr.nodeCounter >= old(mgr.nodeCounter)
      ensures ChkRep(View(), c.(items := Merge(pc.items, c.items)), mgr.mutationCounter, mgr.nodeCounter)
      ensures MidsFrom(keyIndex, old(keyIndex), prev.keyIndex)
      ensures KeptNodes(old(toWrite), toWrite, FirstKeyed(c.items), numNewItems)
      ensures numNewItems == |Missing(pc.items, c.items)|
    {
      hide ChkInv, ChkRep, Older, Merging, MidsFrom, KeptNodes, Merge, Missing, FirstKeyed, Inserted;
      ghost var v0, pv, mc, nc0 := View(), prev.View(), mgr.mutationCounter, mgr.nodeCounter;
      MergeStarts(v0, c, pv, pc, mc, nc0);
      numNewItems := 0;
      var j: nat := |prev.toWrite|;
      ChkRepLength(pv, pc, mc, nc0);
      while j > 0
        invariant j <= |prev.toWrite| && mgr.nodeCounter >= nc0
        invariant Merging(View(), v0, c, pv, pc, j, numNewItems, mc, mgr.nodeCounter)
      {
        MergePass(View(), v0, c, pv, pc, j, numNewItems, mc, mgr.nodeCounter, nc0);
        MergingFirst(View(), v0, c, pv, pc, j, numNewItems, mc, mgr.nodeCounter);
        ghost var items := Merge(pc.items[j..], c.items);
        j := j - 1;
        var it, nid := prev.toWrite[j].item, mgr.nodeCounter;
        mgr.nodeCounter := nid + 1;
        if it.key != "" && it.key !in keyIndex {
          var pos := FirstMutation(items);
          toWrite := Inserted(toWrite, pos, Node(nid, it));
          keyIndex := keyIndex[it.key := IndexEntry(nid, prev.GetMutationIdForKey(it.key))];
          numItems := numItems + 1;
          numNewItems := numNewItems + 1;
        }
      }
      MergeEnds(View(), v0, c, pv, pc, numNewItems, mc, mgr.nodeCounter);
    }

    function GetMutationIdForKey(key: Key): nat
      reads this
    {
      if key in keyIndex then keyIndex[key].mutationId else 0
    }

    method PopBackCheckpointEndItem()
      modifies this`toWrite
      ensures View() == Popped(old(View()))
    {
      if |toWrite| > 0 && toWrite[|toWrite| - 1].item.op == OpCheckpointEnd {
        toWrite := toWrite[..|toWrite| - 1];
      }
    }
  }

  class CheckpointManager {
    var numItems: int
    var mutationCounter: nat
    var nodeCounter: nat
    var checkpointList: seq<Checkpoint>
    var persistenceCursor: CheckpointCursor
    var tapCursors: map<string, CheckpointCursor>
    ghost var model: State
    ghost var views: seq<ChkView>

    constructor (id: nat)
      ensures Valid() && model == Init(id)
      ensures forall i :: 0 <= i < |checkpointList| ==> fresh(checkpointList[i])
    {
      var c := new Checkpoint(id);
      numItems := 0;
      mutationCounter := 0;
      nodeCounter := 0;
      checkpointList := [];
      persistenceCursor := CheckpointCursor(PERSISTENCE, c, 0, 0, false);
      tapCursors := map[];
      new;
      c.QueueStart(this);
      numItems := numItems + 1;
      checkpointList := [c];
      RegisterPersistenceCursor(c, id);
    }

    /** Put the persistence cursor at the beginning of the first checkpoint. */
    method RegisterPersistenceCursor(c: Checkpoint, ghost id: nat)
      requires checkpointList == [c] && c.View() == NewView(id, 0)
      requires numItems == 1 && mutationCounter == 2 && nodeCounter == 2 && tapCursors == map[]
      modifies this`persistenceCursor, this`model, this`views, c`cursors
      ensures Valid() && model == Init(id)
    {
      hide Inv, ListsRep, NamesRep, CursorsRep, Init;
      persistenceCursor := CheckpointCursor(PERSISTENCE, c, c.toWrite[0].nid, 0, false);
      c.cursors := c.cursors + {PERSISTENCE};
      model := Init(id);
      views := [c.View()];
      assert c.View() == NewView(id, 0).(cursors := {PERSISTENCE});
      InitRep(id, c);
      InitInv(id);
      InitCount(id);
    }

    /** The recorded views are the checkpoints' current fields, and no checkpoint is listed twice. */
    ghost predicate Linked()
      reads this, checkpointList
    {
      && |views| == |checkpointList| && Distinct(checkpointList)
      && forall i :: 0 <= i < |checkpointList| ==> checkpointList[i].View() == views[i]
    }

    /** Everything but the item counter agrees with the model. */
    ghost predicate Represents()
      reads this, checkpointList
    {
      && Linked()
      && Inv(model)
      && ListsRep(views, model.chks, mutationCounter, nodeCounter)
      && NamesRep(views, model.cursors)
      && CursorsRep(persistenceCursor, tapCursors, model.cursors, checkpointList, views)
    }

    ghost predicate Valid()
      reads this, checkpointList
    {
      Represents() && numItems == model.numItems
    }

    /** Lower every TAP cursor and the persistence cursor for an entry about to be erased. */
    method ShiftCursors(chk: Checkpoint, currPos: nat, currMid: nat)
      modifies this`persistenceCursor, this`tapCursors
      ensures persistenceCursor
              == Shifted(PERSISTENCE, old(persistenceCursor), chk, chk.toWrite, chk.keyIndex, currPos, currMid)
      ensures tapCursors.Keys == old(tapCursors).Keys
      ensures forall n :: n in tapCursors ==>
        tapCursors[n] == Shifted(n, old(tapCursors)[n], chk, chk.toWrite, chk.keyIndex, currPos, currMid)
    {
      persistenceCursor := Shifted(PERSISTENCE, persistenceCursor, chk, chk.toWrite, chk.keyIndex, currPos, currMid);
      ghost var before, shifted := tapCursors, persistenceCursor;
      var todo := tapCursors.Keys;
      while todo != {}
        invariant persistenceCursor == shifted
        invariant todo <= before.Keys == tapCursors.Keys
        invariant forall n :: n in todo ==> tapCursors[n] == before[n]
        invariant forall n :: n in before && n !in todo ==>
                    tapCursors[n] == Shifted(n, before[n], chk, chk.toWrite, chk.keyIndex, currPos, currMid)
        decreases todo
      {
        var n :| n in todo;
        tapCursors := tapCursors[n := Shifted(n, tapCursors[n], chk, chk.toWrite, chk.keyIndex, currPos, currMid)];
        todo := todo - {n};
      }
    }

    /** Queue a mutation in the newest checkpoint and count it when its key is new there. */
    method Enqueue(item: Item)
      requires Valid() && Mutates(item) && Back(model).open
      modifies this, checkpointList
      ensures Valid() && checkpointList == old(checkpointList)
      ensures model == CheckpointLog.Enqueue(old(model), item)
    {
      hide Inv, ListsRep, NamesRep, CursorsRep, Requeued, CursorAfter, CheckpointLog.Enqueue, IndexOf, FindKey;
      NewestPlace(item.key);
      var last := |checkpointList| - 1;
      var back := checkpointList[last];
      ghost var mc, nc, pc, taps := mutationCounter, nodeCounter, persistenceCursor, tapCursors;
      var rv := back.QueueDirty(item, this);
      EnqueueKeys(model, item);
      RequeuedKeepsNames(views[last], mc, nc, item);
      QueuedLists(views, model, mc, nc, item);
      QueuedNames(views, model, item, back.View());
      QueuedCursors(pc, taps, persistenceCursor, tapCursors, checkpointList, views, model, mc, nc, item);
      EnqueueKeepsInv(model, item);
      if rv == NewItem {
        numItems := numItems + 1;
      }
      model := CheckpointLog.Enqueue(model, item);
      views := views[last := back.View()];
    }

    lemma NewestPlace(k: Key)
      requires Represents() && k != ""
      ensures |model.chks| == |checkpointList| >= 1
      ensures var back := checkpointList[|checkpointList| - 1];
              && back.isOpen == Back(model).open
              && (k in back.keyIndex <==> FindKey(Back(model).items, k) < |Back(model).items|)
              && (k in back.keyIndex ==> IndexOf(back.toWrite, back.keyIndex[k].position) < |back.toWrite|)
    {
      hide CursorsInv, TotalWeight, ChkInv, CursorsRep;
      var last := |checkpointList| - 1;
      ListsAt(views, model.chks, mutationCounter, nodeCounter, last);
      assert ChkInv(model.chks[last]);
      EntryOf(views[last], model.chks[last], mutationCounter, nodeCounter, k);
    }

    /** Facts about the newest checkpoint object. */
    lemma NewestFacts()
      requires Represents()
      ensures |model.chks| == |checkpointList| >= 1
      ensures var back := checkpointList[|checkpointList| - 1];
              && back.id == Back(model).id && back.isOpen == Back(model).open && |back.toWrite| == |Back(model).items| >= 2
              && back.numItems == NumKeyed(Back(model).items) && "" !in back.keyIndex
    {
      hide CursorsInv, TotalWeight, CursorsRep, NumKeyed;
      var last := |checkpointList| - 1;
      ListsAt(views, model.chks, mutationCounter, nodeCounter, last);
      assert ChkInv(model.chks[last]);
    }

    method CloseOpenCheckpoint(id: nat) returns (rv: bool)
      requires Valid()
      modifies this, checkpointList
      ensures Valid() && checkpointList == old(checkpointList) && rv
      ensures model == CloseOpen(old(model), id)
    {
      hide Inv, ListsRep, NamesRep, CursorsRep, CloseOpen;
      NewestFacts();
      var last := |checkpointList| - 1;
      var back := checkpointList[last];
      if id != back.id || !back.isOpen {
        CloseElsewhere(model, id);
        return true;
      }
      ghost var mc, nc, pc, taps := mutationCounter, nodeCounter, persistenceCursor, tapCursors;
      var res := back.QueueDirty(EndItem(id), this);
      numItems := numItems + 1;
      back.isOpen := false;
      MetaKeepsCursors(pc, taps, persistenceCursor, tapCursors, back, views[last]);
      ClosedLists(views, model, mc, nc, id);
      CloseKeepsInv(model, id);
      CloseCounts(model, id);
      SetBackNames(views, model.cursors, back.View());
      GrowCursors(pc, taps, model.cursors, checkpointList, views, checkpointList, views[last := back.View()]);
      model := CloseOpen(model, id);
      views := views[last := back.View()];
      return true;
    }

    method AddNewCheckpoint(id: nat)
      requires Valid() && Back(model).id < id
      modifies this, checkpointList
      ensures Valid() && model == AddNew(old(model), id)
      ensures |checkpointList| == |old(checkpointList)| + 1 && checkpointList[..|old(checkpointList)|] == old(checkpointList)
      ensures fresh(checkpointList[|old(checkpointList)|])
    {
      hide Inv, ListsRep, NamesRep, CursorsRep, CloseOpen, AddNew;
      NewestFacts();
      var back := checkpointList[|checkpointList| - 1];
      AddNewClosesFirst(model, id);
      CloseIds(model, back.id);
      if back.isOpen {
        var rv := CloseOpenCheckpoint(back.id);
      } else {
        CloseElsewhere(model, back.id);
      }
      NewestFacts();
      AppendNewCheckpoint(id);
    }

    method AppendNewCheckpoint(id: nat)
      requires Valid() && Back(model).id < id && !Back(model).open
      modifies this, checkpointList
      ensures Valid() && model == AddNew(old(model), id)
      ensures |checkpointList| == |old(checkpointList)| + 1 && checkpointList[..|old(checkpointList)|] == old(checkpointList)
      ensures fresh(checkpointList[|old(checkpointList)|])
    {
      hide ListInv, CursorsInv, ListsRep, NamesRep, CursorsRep, CloseOpen, AddNew, TotalWeight, CursorAfter, Requeued, IndexOf;
      ghost var mc, nc, pc, taps, list := mutationCounter, nodeCounter, persistenceCursor, tapCursors, checkpointList;
      NewestFacts();
      var c := new Checkpoint(id);
      c.QueueStart(this);
      numItems := numItems + 1;
      checkpointList := checkpointList + [c];
      assert c.View() == NewView(id, nc);
      AddNewKeepsInv(model, id);
      AddNewParts(model, id);
      AppendedLists(views, model.chks, mc, nc, id);
      AppendedNames(views, model.chks, model.cursors, c.View());
      GrowCursors(pc, taps, model.cursors, list, views, checkpointList, views + [c.View()]);
      model := AddNew(model, id);
      views := views + [c.View()];
    }

    lemma SetOpenParts(s: State, id: nat)
      requires |s.chks| >= 1 && |Back(s).items| >= 2
      ensures SetOpenId(s, id).cursors == s.cursors && SetOpenId(s, id).numItems == s.numItems
    {
    }

    method SetOpenCheckpointId(id: nat)
      requires Valid()
      requires |model.chks| > 1 ==> model.chks[|model.chks| - 2].id < id
      modifies this, checkpointList
      ensures |Back(old(model)).items| >= 2
      ensures Valid() && checkpointList == old(checkpointList) && model == SetOpenId(old(model), id)
    {
      hide ListsRep, NamesRep, CursorsRep, Inv, SetOpenId, RelabelledView, NumKeyed;
      NewestFacts();
      SetOpenParts(model, id);
      var last := |checkpointList| - 1;
      var back := checkpointList[last];
      back.id := id;
      back.toWrite := back.toWrite[1 := back.toWrite[1].(item := StartItem(id))];
      RelabelledLists(views, model, mutationCounter, nodeCounter, id);
      SetOpenIdKeepsInv(model, id);
      SetBackNames(views, model.cursors, back.View());
      GrowCursors(persistenceCursor, tapCursors, model.cursors, checkpointList, views, checkpointList, views[last := back.View()]);
      assert back.View() == RelabelledView(views[last], id) by { RelabelledFields(views[last], id); }
      model := SetOpenId(model, id);
      views := views[last := back.View()];
    }

    method CheckOpenCheckpoint(force: bool, env: Env) returns (checkpointId: nat)
      requires Valid()
      modifies this, checkpointList
      ensures Valid() && (model, checkpointId) == CheckOpen(old(model), force, env)
      ensures |checkpointList| >= |old(checkpointList)| && checkpointList[..|old(checkpointList)|] == old(checkpointList)
      ensures forall i :: |old(checkpointList)| <= i < |checkpointList| ==> fresh(checkpointList[i])
    {
      hide Inv, ListsRep, NamesRep, CursorsRep, CloseOpen, AddNew, NumKeyed;
      NewestFacts();
      checkpointId := 0;
      var back := checkpointList[|checkpointList| - 1];
      if force || back.numItems >= env.maxItems || (back.numItems > 0 && env.timeUp) {
        checkpointId := back.id;
        CloseIds(model, checkpointId);
        var rv := CloseOpenCheckpoint(checkpointId);
        AddNewCheckpoint(checkpointId + 1);
      }
    }

    /** Does a new open checkpoint fit under the limit? */
    method CanCreateNew(env: Env) returns (can: bool)
      requires Valid()
      ensures can == CanCreate(model, env)
    {
      hide Inv, ListsRep, CursorsRep;
      NewestFacts();
      can := |checkpointList| < env.maxCheckpoints
             || (|checkpointList| == env.maxCheckpoints && |checkpointList[0].cursors| == 0);
      NoNames(views, model, 0);
    }

    method QueueDirty(item: Item, env: Env) returns (grew: bool)
      requires Valid() && Mutates(item)
      requires env.vbState == Active ==> Back(model).open
      modifies this, checkpointList
      ensures Inv(old(model))
      ensures Valid() && (model, grew) == CheckpointLog.QueueDirty(old(model), item, env)
      ensures |checkpointList| >= |old(checkpointList)| && checkpointList[..|old(checkpointList)|] == old(checkpointList)
      ensures forall i :: |old(checkpointList)| <= i < |checkpointList| ==> fresh(checkpointList[i])
    {
      hide ChkInv, TotalWeight, ListsRep, NamesRep, CursorAt, NumKeyed, CheckOpen, CheckpointLog.Enqueue, CanCreate;
      NewestFacts();
      if env.vbState != Active && !checkpointList[|checkpointList| - 1].isOpen {
        return false;
      }
      var numItemsBefore := NumItemsForPersistence();
      Enqueue(item);
      var numItemsAfter := NumItemsForPersistence();
      var can := CanCreateNew(env);
      if env.vbState == Active && !env.inconsistentSlave && can {
        var oldId := CheckOpenCheckpoint(false, env);
      }
      // the source compares an unsigned difference with zero
      return numItemsAfter != numItemsBefore;
    }

    function NumItemsForPersistence(): (r: nat)
      requires Valid()
      reads this, checkpointList
      ensures PERSISTENCE in model.cursors && r == Backlog(model)
    {
      if numItems > persistenceCursor.offset then numItems - persistenceCursor.offset else 0
    }

    function CursorNamed(n: string): CheckpointCursor
      requires n == PERSISTENCE || n in tapCursors
      reads this
    {
      if n == PERSISTENCE then persistenceCursor else tapCursors[n]
    }

    /** Where a cursor stands, as indices. */
    lemma CursorPlace(n: string)
      requires Represents() && n in model.cursors
      ensures n == PERSISTENCE || n in tapCursors
      ensures |checkpointList| == |model.chks|
      ensures CursorStands(CursorNamed(n), model.cursors[n], n, checkpointList, model.chks, views)
      ensures checkpointList[model.cursors[n].chk].View() == views[model.cursors[n].chk]
    {
      hide ListInv, CursorsInv, ListsRep, NamesRep, CursorAt, TotalWeight, CursorStands;
      ListsLength(views, model.chks, mutationCounter, nodeCounter);
      CursorKeys(persistenceCursor, tapCursors, model.cursors, checkpointList, views, n);
      StandsAt(CursorNamed(n), n, model, checkpointList, views, mutationCounter, nodeCounter);
      StandsInList(CursorNamed(n), model.cursors[n], n, checkpointList, model.chks, views);
    }

    /** What the checkpoint objects hold. */
    lemma ChkFacts(i: nat)
      requires Represents() && i < |checkpointList|
      ensures i < |model.chks|
      ensures var c := checkpointList[i];
              && c.id == model.chks[i].id && c.isOpen == model.chks[i].open && SameItems(c.toWrite, model.chks[i].items)
              && |c.toWrite| >= 2 && c.numItems == NumKeyed(model.chks[i].items)
    {
      hide CursorsInv, TotalWeight, CursorsRep, NumKeyed;
      ListsAt(views, model.chks, mutationCounter, nodeCounter, i);
      assert ChkInv(model.chks[i]);
    }

    /** Take a name off the checkpoint it is registered in, if any, and register it in another. */
    method MoveName(n: string, ghost i: nat, target: Checkpoint, ghost j: nat)
      requires Linked() && j < |checkpointList| && checkpointList[j] == target
      requires i < |checkpointList| <==> n == PERSISTENCE || n in tapCursors
      requires i < |checkpointList| ==> CursorNamed(n).currentCheckpoint == checkpointList[i]
      modifies checkpointList
      ensures forall k :: 0 <= k < |checkpointList| ==> checkpointList[k].View() == Renamed(views, n, i, j)[k]
    {
      if n == PERSISTENCE || n in tapCursors {
        var home := CursorNamed(n).currentCheckpoint;
        home.cursors := home.cursors - {n};
      }
      target.cursors := target.cursors + {n};
    }

    /** Put a cursor on a node of a checkpoint, moving its name along. */
    method PlaceCursor(n: string, target: Checkpoint, pos: nat, offset: int, closedOnly: bool, ghost j: nat, ghost p: nat)
      requires Represents()
      requires j < |checkpointList| && checkpointList[j] == target && p < |target.toWrite| && target.toWrite[p].nid == pos
      modifies this`persistenceCursor, this`tapCursors, this`model, this`views, checkpointList
      ensures Represents()
      ensures model == old(model).(cursors := old(model).cursors[n := Cursor(j, p, offset, closedOnly)])
      ensures SameButNames(old(views), views)
    {
      hide Inv, ListsRep, NamesRep, CursorsRep, NamesAt, IndexOf, RefIndex, Renamed;
      var c := CheckpointCursor(n, target, pos, offset, closedOnly);
      ghost var pc, taps, i := persistenceCursor, tapCursors, if n in model.cursors then model.cursors[n].chk else |views|;
      ghost var m := Cursor(j, p, offset, closedOnly);
      ghost var views' := Renamed(views, n, i, j);
      PlaceFacts(n, i, j, p, c, m);
      MoveName(n, i, target, j);
      if n == PERSISTENCE { persistenceCursor := c; } else { tapCursors := tapCursors[n := c]; }
      NamesOnlyLists(views, views', model.chks, mutationCounter, nodeCounter);
      PlacedCursors(pc, taps, persistenceCursor, tapCursors, model.cursors, checkpointList, views, views', n, c, m);
      views := views';
      model := model.(cursors := model.cursors[n := m]);
    }

    lemma PlaceFacts(n: string, i: nat, j: nat, p: nat, c: CheckpointCursor, m: Cursor)
      requires Represents() && j < |checkpointList| && p < |checkpointList[j].toWrite|
      requires i == if n in model.cursors then model.cursors[n].chk else |views|
      requires c.name == n && c.currentCheckpoint == checkpointList[j] && checkpointList[j].toWrite[p].nid == c.currentPos
      requires m == Cursor(j, p, c.offset, c.closedOnly)
      ensures |views| == |checkpointList|
      ensures i < |checkpointList| <==> n == PERSISTENCE || n in tapCursors
      ensures i < |checkpointList| ==> CursorNamed(n).currentCheckpoint == checkpointList[i]
      ensures SameButNames(views, Renamed(views, n, i, j))
      ensures NamesRep(Renamed(views, n, i, j), model.cursors[n := m])
      ensures CursorRep(c, m, n, checkpointList, Renamed(views, n, i, j)[j].toWrite)
      ensures Inv(model.(cursors := model.cursors[n := m]))
    {
      hide Inv, ListsRep, NamesRep, CursorsRep, NamesAt, IndexOf, RefIndex, Renamed;
      CursorKeys(persistenceCursor, tapCursors, model.cursors, checkpointList, views, n);
      if n in model.cursors {
        CursorPlace(n);
      }
      RenamedSame(views, n, i, j);
      RenamedNames(views, model.cursors, n, m);
      assert CursorOk(model.chks, m) by { ChkFacts(j); }
      CursorOkKept(model, n, m);
    }

    /** Move a cursor inside its checkpoint. */
    method UpdateCursor(n: string, pos: nat, offset: int, ghost p: nat)
      requires Represents() && n in model.cursors && model.cursors[n].chk < |checkpointList|
      requires var target := checkpointList[model.cursors[n].chk]; p < |target.toWrite| && target.toWrite[p].nid == pos
      modifies this`persistenceCursor, this`tapCursors, this`model
      ensures Represents()
      ensures model == old(model).(cursors := old(model).cursors[n := old(model).cursors[n].(pos := p, offset := offset)])
    {
      hide ListInv, CursorsInv, TotalWeight, ListsRep, NamesRep, CursorsRep, NamesAt, IndexOf, RefIndex, NumKeyed;
      ghost var pc, taps := persistenceCursor, tapCursors;
      ghost var m := model.cursors[n].(pos := p, offset := offset);
      CursorPlace(n);
      ChkFacts(m.chk);
      var c := CursorNamed(n).(currentPos := pos, offset := offset);
      if n == PERSISTENCE { persistenceCursor := c; } else { tapCursors := tapCursors[n := c]; }
      StayingNames(views, model.cursors, n, m);
      PlacedCursors(pc, taps, persistenceCursor, tapCursors, model.cursors, checkpointList, views, views, n, c, m);
      CursorOkKept(model, n, m);
      model := model.(cursors := model.cursors[n := m]);
    }

    method MoveCursorToNextCheckpoint(n: string) returns (moved: bool)
      requires Represents() && n in model.cursors
      modifies this`persistenceCursor, this`tapCursors, this`model, this`views, checkpointList
      ensures Represents()
      ensures CursorOk(old(model).chks, old(model).cursors[n])
      ensures var m := old(model).cursors[n];
              && moved == (!old(model).chks[m.chk].open && m.chk + 1 < |old(model).chks|)
              && model == if moved then At(old(model), n, m.chk + 1, 0) else old(model)
    {
      hide Inv, ListsRep, NamesRep, CursorsRep, SameItems, RefIndex, SameButNames, IndexOf, NumKeyed;
      CursorPlace(n);
      var cursor := CursorNamed(n);
      ghost var m := model.cursors[n];
      ChkFacts(m.chk);
      if cursor.currentCheckpoint.isOpen {
        return false;
      }
      var next := RefIndex(checkpointList, cursor.currentCheckpoint) + 1;
      if next == |checkpointList| {
        return false;
      }
      var target := checkpointList[next];
      ChkFacts(next);
      PlaceCursor(n, target, target.toWrite[0].nid, cursor.offset, cursor.closedOnly, next, 0);
      return true;
    }

    /** Hand out the rest of the checkpoint a cursor stands in and leave it on the last entry there. */
    method ReadToEnd(n: string) returns (rest: seq<Item>)
      requires Represents() && n in model.cursors
      modifies this`persistenceCursor, this`tapCursors, this`model, this`views, checkpointList
      ensures Represents()
      ensures CursorOk(old(model).chks, old(model).cursors[n])
      ensures var m := old(model).cursors[n];
              && model == At(old(model), n, m.chk, |old(model).chks[m.chk].items| - 1)
              && rest == old(model).chks[m.chk].items[m.pos + 1..]
    {
      hide Inv, ListsRep, NamesRep, CursorsRep, RefIndex, SameButNames, IndexOf, NumKeyed;
      CursorPlace(n);
      var cursor := CursorNamed(n);
      ghost var m := model.cursors[n];
      ChkFacts(m.chk);
      var chk := cursor.currentCheckpoint;
      var pos := IndexOf(chk.toWrite, cursor.currentPos);
      rest := [];
      ghost var items := model.chks[m.chk].items;
      while pos + 1 < |chk.toWrite|
        invariant m.pos <= pos < |chk.toWrite|
        invariant rest == items[m.pos + 1..pos + 1]
      {
        pos := pos + 1;
        rest := rest + [chk.toWrite[pos].item];
      }
      UpdateCursor(n, chk.toWrite[pos].nid, cursor.offset, pos);
    }

    /** The id before that of the checkpoint a cursor stands in. */
    method LastReadId(n: string) returns (checkpointId: nat)
      requires Represents() && n in model.cursors
      ensures model.cursors[n].chk < |model.chks|
      ensures var id := model.chks[model.cursors[n].chk].id; checkpointId == if id > 0 then id - 1 else 0
    {
      hide Inv, ListsRep, NamesRep, CursorsRep, IndexOf, NumKeyed, Linked;
      CursorPlace(n);
      ChkFacts(model.cursors[n].chk);
      var id := CursorNamed(n).currentCheckpoint.id;
      checkpointId := if id > 0 then id - 1 else 0;
    }

    /** Read everything ahead of a cursor, checkpoint by checkpoint, and leave it on the newest entry. */
    method GetAllItemsFromCurrentPosition(n: string) returns (items: seq<Item>, checkpointId: nat)
      requires Represents() && n in model.cursors
      modifies this`persistenceCursor, this`tapCursors, this`model, this`views, checkpointList
      ensures Represents()
      ensures CursorOk(old(model).chks, old(model).cursors[n]) && |Back(old(model)).items| >= 1
      ensures model == At(old(model), n, |old(model).chks| - 1, |Back(old(model)).items| - 1)
      ensures items == Remaining(old(model), n)
      ensures checkpointId == if Back(model).id > 0 then Back(model).id - 1 else 0
    {
      hide Inv, ListsRep, NamesRep, CursorsRep, SameItems, RefIndex, SameButNames, Flat, IndexOf, NumKeyed, Ahead, Linked;
      ghost var m0 := model;
      items := [];
      CursorPlace(n);
      assert items + Remaining(m0, n) == Remaining(m0, n);
      var moved := true;
      while moved
        invariant Represents() && n in model.cursors && CursorOk(m0.chks, model.cursors[n])
        invariant model == At(m0, n, model.cursors[n].chk, model.cursors[n].pos)
        invariant items + Ahead(m0.chks, model.cursors[n].chk, model.cursors[n].pos) == Remaining(m0, n)
        invariant !moved ==> AtLast(m0.chks, model.cursors[n])
        decreases |m0.chks| - model.cursors[n].chk, moved
      {
        ghost var m := model.cursors[n];
        var rest := ReadToEnd(n);
        ReadAhead(m0, m, items);
        items := items + rest;
        moved := MoveCursorToNextCheckpoint(n);
      }
      LastAhead(m0.chks);
      checkpointId := LastReadId(n);
    }

    /** Fetch everything for a cursor and take its distance to the end as zero. */
    method FetchAll(n: string) returns (items: seq<Item>, checkpointId: nat)
      requires Valid() && n in model.cursors
      modifies this`persistenceCursor, this`tapCursors, this`model, this`views, checkpointList
      ensures Inv(old(model))
      ensures Valid() && (model, items, checkpointId) == Fetch(old(model), n)
    {
      hide ListInv, CursorsInv, TotalWeight, ListsRep, NamesRep, CursorsRep, IndexOf, RefIndex, NumKeyed, Remaining, SameItems;
      items, checkpointId := GetAllItemsFromCurrentPosition(n);
      CursorPlace(n);
      ghost var m1 := model.cursors[n];
      UpdateCursor(n, CursorNamed(n).currentPos, numItems, model.cursors[n].pos);
      assert old(model).cursors[n := m1][n := model.cursors[n]] == old(model).cursors[n := model.cursors[n]];
    }

    method GetAllItemsForPersistence() returns (items: seq<Item>, checkpointId: nat)
      requires Valid()
      modifies this`persistenceCursor, this`tapCursors, this`model, this`views, checkpointList
      ensures Inv(old(model))
      ensures Valid() && (model, items, checkpointId) == Fetch(old(model), PERSISTENCE)
    {
      hide ListInv, TotalWeight, ListsRep, NamesRep, CursorsRep, Fetch, CursorOk;
      items, checkpointId := FetchAll(PERSISTENCE);
    }

    method GetAllItemsForTAPConnection(name: string) returns (items: seq<Item>, checkpointId: nat)
      requires Valid() && name != PERSISTENCE
      modifies this`persistenceCursor, this`tapCursors, this`model, this`views, checkpointList
      ensures Inv(old(model))
      ensures Valid() && (model, items, checkpointId) == Fetch(old(model), name)
    {
      hide ListInv, TotalWeight, ListsRep, NamesRep, CursorsRep, CursorOk, Remaining;
      CursorKeys(persistenceCursor, tapCursors, model.cursors, checkpointList, views, name);
      if name !in tapCursors {
        return [], 0;
      }
      items, checkpointId := FetchAll(name);
    }

    /** Is the entry under a cursor the last mutation of its checkpoint? */
    method IsLastMutationItem(n: string) returns (last: bool)
      requires Represents() && n in model.cursors
      ensures CursorOk(model.chks, model.cursors[n])
      ensures last == LastMutationAt(model.chks[model.cursors[n].chk].items, model.cursors[n].pos)
    {
      hide Inv, ListsRep, NamesRep, CursorsRep, IndexOf, RefIndex, NumKeyed;
      CursorPlace(n);
      ChkFacts(model.cursors[n].chk);
      var nodes := CursorNamed(n).currentCheckpoint.toWrite;
      var next := IndexOf(nodes, CursorNamed(n).currentPos) + 1;
      last := next == |nodes| || nodes[next].item.op == OpCheckpointEnd;
    }

    /** Advance a cursor by one entry inside its checkpoint. */
    method Step(n: string) returns (item: Item, last: bool)
      requires Represents() && n in model.cursors && CursorOk(model.chks, model.cursors[n])
      requires model.cursors[n].pos + 1 < |model.chks[model.cursors[n].chk].items|
      modifies this`persistenceCursor, this`tapCursors, this`model
      ensures Represents() && (model, item, last) == Advance(old(model), n, old(model).cursors[n])
    {
      hide Inv, ListsRep, NamesRep, CursorsRep, IndexOf, RefIndex, NumKeyed, LastMutationAt;
      CursorPlace(n);
      ChkFacts(model.cursors[n].chk);
      var cursor := CursorNamed(n);
      var nodes := cursor.currentCheckpoint.toWrite;
      var next := IndexOf(nodes, cursor.currentPos) + 1;
      UpdateCursor(n, nodes[next].nid, cursor.offset + 1, next);
      last := IsLastMutationItem(n);
      item := nodes[next].item;
    }

    method NextItemFromOpenedCheckpoint(n: string) returns (item: Item, last: bool)
      requires Represents() && n in model.cursors
      modifies this`persistenceCursor, this`tapCursors, this`model
      ensures CursorOk(old(model).chks, old(model).cursors[n])
      ensures Represents() && (model, item, last) == NextFromOpen(old(model), n, old(model).cursors[n])
    {
      hide Inv, ListsRep, NamesRep, CursorsRep, IndexOf, RefIndex, NumKeyed, LastMutationAt;
      CursorPlace(n);
      ChkFacts(model.cursors[n].chk);
      var cursor := CursorNamed(n);
      assert model.cursors[n := model.cursors[n]] == model.cursors;
      if cursor.closedOnly {
        return DummyItem(), false;
      }
      var nodes := cursor.currentCheckpoint.toWrite;
      if IndexOf(nodes, cursor.currentPos) + 1 == |nodes| {
        return DummyItem(), false;
      }
      item, last := Step(n);
    }

    method NextItemFromClosedCheckpoint(n: string) returns (item: Item, last: bool)
      requires Represents() && n in model.cursors
      requires model.cursors[n].chk < |model.chks| && !model.chks[model.cursors[n].chk].open
      modifies this`persistenceCursor, this`tapCursors, this`model, this`views, checkpointList
      ensures CursorOk(old(model).chks, old(model).cursors[n])
      ensures forall i :: 0 <= i < |old(model).chks| ==> |old(model).chks[i].items| >= 2
      ensures Represents() && (model, item, last) == NextFromClosed(old(model), n, old(model).cursors[n])
    {
      hide ListInv, CursorsInv, TotalWeight, ListsRep, NamesRep, CursorsRep, IndexOf, RefIndex, NumKeyed, Advance;
      AllLongEnough(model);
      CursorPlace(n);
      ChkFacts(model.cursors[n].chk);
      var cursor := CursorNamed(n);
      var nodes := cursor.currentCheckpoint.toWrite;
      if IndexOf(nodes, cursor.currentPos) + 1 < |nodes| {
        item, last := Step(n);
        return;
      }
      ghost var m, m0 := model.cursors[n], model;
      var moved := MoveCursorToNextCheckpoint(n);
      if !moved {
        return DummyItem(), false;
      }
      CursorPlace(n);
      ChkFacts(m.chk + 1);
      MovedSame(m0, n, m.chk + 1);
      if CursorNamed(n).currentCheckpoint.isOpen {
        item, last := NextItemFromOpenedCheckpoint(n);
      } else {
        item, last := Step(n);
      }
    }

    method NextItem(name: string) returns (item: Item, last: bool)
      requires Valid() && name != PERSISTENCE
      modifies this`persistenceCursor, this`tapCursors, this`model, this`views, checkpointList
      ensures Inv(old(model))
      ensures Valid() && (model, item, last) == Next(old(model), name)
    {
      hide ListInv, CursorsInv, TotalWeight, ListsRep, NamesRep, CursorsRep, IndexOf, RefIndex, NumKeyed, NextFromOpen, NextFromClosed;
      CursorKeys(persistenceCursor, tapCursors, model.cursors, checkpointList, views, name);
      NewestFacts();
      if name !in tapCursors {
        return DummyItem(), false;
      }
      if checkpointList[|checkpointList| - 1].id == 0 {
        return DummyItem(), false;
      }
      CursorPlace(name);
      ChkFacts(model.cursors[name].chk);
      if CursorNamed(name).currentCheckpoint.isOpen {
        item, last := NextItemFromOpenedCheckpoint(name);
      } else {
        item, last := NextItemFromClosedCheckpoint(name);
      }
      NextCounts(old(model), name);
    }

    /** Position of the checkpoint with an id, or the number of checkpoints. */
    method FindCheckpoint(id: nat) returns (i: nat)
      requires Represents()
      ensures i == FindChk(model.chks, id) && |model.chks| == |checkpointList|
    {
      hide Inv, ListsRep, NamesRep, CursorsRep, FindChk, SameItems, NumKeyed;
      ListsLength(views, model.chks, mutationCounter, nodeCounter);
      i := 0;
      while i < |checkpointList|
        invariant i <= |checkpointList|
        invariant forall k :: 0 <= k < i ==> model.chks[k].id != id
      {
        ChkFacts(i);
        if checkpointList[i].id == id {
          return;
        }
        i := i + 1;
      }
    }

    /** Number of entries the code counts before the checkpoint at `i`. */
    method OffsetOf(i: nat) returns (offset: nat)
      requires Represents() && i < |checkpointList|
      ensures i < |model.chks| && offset == TotalWeight(model.chks[..i])
    {
      hide Inv, ListsRep, NamesRep, CursorsRep, SameItems, NumKeyed;
      ListsLength(views, model.chks, mutationCounter, nodeCounter);
      offset := 0;
      var k := 0;
      assert model.chks[..0] == [];
      while k < i
        invariant k <= i && offset == TotalWeight(model.chks[..k])
      {
        ChkFacts(k);
        ClosedWeight(model, k);
        offset := offset + checkpointList[k].numItems + 2;
        k := k + 1;
      }
    }

    method RegisterTAPCursor(name: string, id: nat, closedOnly: bool, fromBeginning: bool) returns (found: bool)
      requires Valid() && name != PERSISTENCE
      modifies this`persistenceCursor, this`tapCursors, this`model, this`views, checkpointList
      ensures |old(model).chks| >= 1
      ensures Valid() && (model, found) == Register(old(model), name, id, closedOnly, fromBeginning)
    {
      hide Inv, ListsRep, NamesRep, CursorsRep, SameItems, NumKeyed, TotalWeight, IndexOf, SameButNames, FindChk;
      NewestFacts();
      CursorKeys(persistenceCursor, tapCursors, model.cursors, checkpointList, views, name);
      var i := FindCheckpoint(id);
      found := i < |checkpointList|;
      if !found {
        var last := |checkpointList| - 1;
        var back := checkpointList[last];
        ChkFacts(last);
        PlaceCursor(name, back, back.toWrite[0].nid, numItems - (back.numItems + 1), closedOnly, last, 0);
        return;
      }
      ChkFacts(i);
      if !fromBeginning && name in tapCursors {
        CursorPlace(name);
        var cursor := tapCursors[name];
        if RefIndex(checkpointList, cursor.currentCheckpoint) == i {
          PlaceCursor(name, checkpointList[i], cursor.currentPos, cursor.offset, closedOnly, i, model.cursors[name].pos);
          return;
        }
      }
      var offset := OffsetOf(i);
      PlaceCursor(name, checkpointList[i], checkpointList[i].toWrite[0].nid, offset, closedOnly, i, 0);
    }

    method RemoveTAPCursor(name: string) returns (found: bool)
      requires Valid() && name != PERSISTENCE
      modifies this`tapCursors, this`model, this`views, checkpointList
      ensures Valid() && (model, found) == RemoveTap(old(model), name)
    {
      hide Inv, ListsRep, NamesRep, CursorsRep;
      CursorKeys(persistenceCursor, tapCursors, model.cursors, checkpointList, views, name);
      if name !in tapCursors {
        assert model.cursors - {name} == model.cursors;
        return false;
      }
      RemoveName(name);
      ghost var taps := tapCursors;
      tapCursors := tapCursors - {name};
      RemovedRep(persistenceCursor, taps, model, checkpointList, views, mutationCounter, nodeCounter, name);
      views := Unnamed(views, name);
      model := RemoveTap(model, name).0;
      return true;
    }

    /** Take a name off every checkpoint. */
    method RemoveName(name: string)
      requires Linked()
      modifies checkpointList
      ensures forall k :: 0 <= k < |checkpointList| ==> checkpointList[k].View() == Unnamed(views, name)[k]
    {
      var i := 0;
      while i < |checkpointList|
        invariant i <= |checkpointList|
        invariant forall k :: 0 <= k < i ==> checkpointList[k].View() == Unnamed(views, name)[k]
        invariant forall k :: i <= k < |checkpointList| ==> checkpointList[k].View() == views[k]
      {
        checkpointList[i].cursors := checkpointList[i].cursors - {name};
        i := i + 1;
      }
    }

    method DecrTapCursorFromCheckpointEnd(name: string)
      requires Valid() && name != PERSISTENCE
      modifies this`persistenceCursor, this`tapCursors, this`model
      ensures Inv(old(model)) && Valid() && model == DecrFromEnd(old(model), name)
    {
      hide ListInv, TotalWeight, ListsRep, NamesRep, CursorsRep, NumKeyed, IndexOf, RefIndex;
      CursorKeys(persistenceCursor, tapCursors, model.cursors, checkpointList, views, name);
      if name in tapCursors {
        CursorPlace(name);
        var cursor := CursorNamed(name);
        var nodes := cursor.currentCheckpoint.toWrite;
        var at := IndexOf(nodes, cursor.currentPos);
        ChkFacts(model.cursors[name].chk);
        if nodes[at].item.op == OpCheckpointEnd && at > 0 {
          UpdateCursor(name, nodes[at - 1].nid, cursor.offset - 1, at - 1);
        }
      }
    }

    /** Merge every checkpoint before the one at `lc` into it; the number of entries the log loses by that. */
    method MergeOlder(target: Checkpoint, lc: nat) returns (dropped: int)
      requires Represents() && lc < |checkpointList| && target == checkpointList[lc]
      modifies target`numItems, target`toWrite, target`keyIndex, this`nodeCounter
      ensures nodeCounter >= old(nodeCounter)
      ensures MergedDown(target.View(), views, model.chks, 0, lc, mutationCounter, nodeCounter, dropped)
    {
      hide ListInv, CursorsInv, TotalWeight, ListsRep, NamesRep, CursorsRep, ChkRep, ChkInv, Older, MergedDown, MidsFrom, KeptNodes, Merge, Missing;
      ghost var nc0 := nodeCounter;
      ListsLength(views, model.chks, mutationCounter, nodeCounter);
      MergeDownStarts(views, model, lc, mutationCounter, nodeCounter);
      dropped := 0;
      var j: nat := lc;
      while j > 0
        invariant j <= lc && nodeCounter >= nc0
        invariant forall i :: 0 <= i < lc ==> checkpointList[i].View() == views[i]
        invariant MergedDown(target.View(), views, model.chks, j, lc, mutationCounter, nodeCounter, dropped)
      {
        ghost var c := MergedChk(model.chks, j, lc);
        ghost var v, nc := target.View(), nodeCounter;
        MergeDownReady(v, views, model, j, lc, mutationCounter, nc0, nc, dropped);
        j := j - 1;
        var prev := checkpointList[j];
        assert checkpointList[j].View() == views[j];
        var numAdded := target.MergePrevCheckpoint(prev, this, c, model.chks[j]);
        MergeDownPass(v, target.View(), views, model, j, lc, mutationCounter, nc0, nc, nodeCounter, dropped, numAdded);
        dropped := dropped + (prev.numItems - numAdded) + 2;
      }
    }

    /** Put every named cursor at the beginning of a checkpoint. */
    method RepositionCursors(names: set<string>, target: Checkpoint)
      requires |target.toWrite| > 0
      modifies this`persistenceCursor, this`tapCursors, target`cursors
      ensures persistenceCursor == Repositioned(names, PERSISTENCE, old(persistenceCursor), target, target.toWrite[0].nid)
      ensures tapCursors.Keys == old(tapCursors).Keys
      ensures forall n :: n in tapCursors && n != PERSISTENCE ==>
                tapCursors[n] == Repositioned(names, n, old(tapCursors)[n], target, target.toWrite[0].nid)
      ensures target.cursors == old(target.cursors) + names * (tapCursors.Keys + {PERSISTENCE})
    {
      ghost var pc, taps, registered := persistenceCursor, tapCursors, target.cursors;
      var todo := names;
      ghost var done: set<string> := {};
      var begin := target.toWrite[0].nid;
      assert registered == registered + done * (taps.Keys + {PERSISTENCE});
      while todo != {}
        invariant done + todo == names && tapCursors.Keys == taps.Keys
        invariant persistenceCursor == Repositioned(done, PERSISTENCE, pc, target, begin)
        invariant forall n :: n in taps && n != PERSISTENCE ==> tapCursors[n] == Repositioned(done, n, taps[n], target, begin)
        invariant target.cursors == registered + done * (taps.Keys + {PERSISTENCE})
        decreases todo
      {
        var n :| n in todo;
        AlsoRegistered(registered, done, taps.Keys + {PERSISTENCE}, n);
        if n == PERSISTENCE {
          persistenceCursor := persistenceCursor.(currentCheckpoint := target, currentPos := begin, offset := 0);
          target.cursors := target.cursors + {n};
        } else if n in tapCursors {
          tapCursors := tapCursors[n := tapCursors[n].(currentCheckpoint := target, currentPos := begin, offset := 0)];
          target.cursors := target.cursors + {n};
        }
        todo, done := todo - {n}, done + {n};
      }
      assert done == names;
    }

    lemma AlsoRegistered(registered: set<string>, done: set<string>, known: set<string>, n: string)
      ensures registered + (done + {n}) * known == (registered + done * known) + if n in known then {n} else {}
    {
    }

    /** Lower the offset of every named cursor. */
    method LowerOffsets(names: set<string>, d: nat)
      modifies this`persistenceCursor, this`tapCursors
      ensures persistenceCursor == Lowered(names, PERSISTENCE, old(persistenceCursor), d)
      ensures tapCursors.Keys == old(tapCursors).Keys
      ensures forall n :: n in tapCursors && n != PERSISTENCE ==> tapCursors[n] == Lowered(names, n, old(tapCursors)[n], d)
    {
      ghost var pc, taps := persistenceCursor, tapCursors;
      var todo := names;
      while todo != {}
        invariant todo <= names && tapCursors.Keys == taps.Keys
        invariant persistenceCursor == Lowered(names - todo, PERSISTENCE, pc, d)
        invariant forall n :: n in taps && n != PERSISTENCE ==> tapCursors[n] == Lowered(names - todo, n, taps[n], d)
        decreases todo
      {
        var n :| n in todo;
        if n == PERSISTENCE {
          persistenceCursor := persistenceCursor.(offset := Decr(n, persistenceCursor.offset, d));
        } else if n in tapCursors {
          tapCursors := tapCursors[n := tapCursors[n].(offset := Decr(n, tapCursors[n].offset, d))];
        }
        todo := todo - {n};
      }
    }

    /** The names registered in the checkpoints before the one at `lc`. */
    method NamesBefore(lc: nat) returns (names: set<string>)
      requires Linked() && NamesRep(views, model.cursors) && lc <= |checkpointList|
      ensures forall n :: n in names <==> n in model.cursors && model.cursors[n].chk < lc
    {
      names := {};
      var i := 0;
      while i < lc
        invariant i <= lc
        invariant forall n :: n in names <==> n in model.cursors && model.cursors[n].chk < i
      {
        assert checkpointList[i].View() == views[i];
        names := names + checkpointList[i].cursors;
        i := i + 1;
      }
    }

    /** Move slow cursors to the merged checkpoint and lower the others. */
    method MoveCollapsed(slow: set<string>, fast: set<string>, target: Checkpoint, d: nat)
      requires slow + fast == tapCursors.Keys + {PERSISTENCE} && slow !! fast && PERSISTENCE !in tapCursors
      requires |target.toWrite| > 0
      modifies this`persistenceCursor, this`tapCursors, target`cursors
      ensures CollapsedFrom(old(persistenceCursor), old(tapCursors), persistenceCursor, tapCursors, slow, target,
                            target.toWrite[0].nid, d)
      ensures target.cursors == old(target.cursors) + slow
    {
      hide CollapsedFrom, Repositioned, Lowered;
      ghost var pc, taps := persistenceCursor, tapCursors;
      RepositionCursors(slow, target);
      LowerOffsets(fast, d);
      BothMoves(pc, taps, persistenceCursor, tapCursors, slow, fast, target, target.toWrite[0].nid, d);
      assert slow * (taps.Keys + {PERSISTENCE}) == slow by { assert slow <= slow + fast; }
    }

    /** With more than one closed checkpoint, merge the closed ones into the newest of them. */
    method CollapseClosedCheckpoints()
      requires Valid()
      modifies this, checkpointList
      ensures |old(model).chks| >= 1
      ensures Valid() && model == CollapseClosed(old(model))
      ensures forall i :: 0 <= i < |checkpointList| ==> checkpointList[i] in old(checkpointList)
    {
      hide Inv, ListsRep, NamesRep, CursorsRep, CollapseInto, NumKeyed;
      NewestFacts();
      if |checkpointList| > 2 {
        CollapseClosedInto(|checkpointList| - 2);
      }
    }

    /** Merge the older checkpoints into the one at `lc` and move their cursors there. */
    method MergeClosed(target: Checkpoint, lc: nat) returns (dropped: nat, ghost slow: set<string>, ghost v: ChkView)
      requires Represents() && |checkpointList| == lc + 2 && target == checkpointList[lc]
      modifies this`nodeCounter, this`persistenceCursor, this`tapCursors, target
      ensures nodeCounter >= old(nodeCounter) && target.View() == v.(cursors := v.cursors + slow)
      ensures ClosedMerged(old(persistenceCursor), old(tapCursors), persistenceCursor, tapCursors, model, views, lc,
                           target, v, slow, mutationCounter, nodeCounter, dropped)
    {
      hide Inv, ListsRep, NamesRep, CursorsRep, MergedDown, NumKeyed, CollapsedFrom, Distinct;
      ListsLength(views, model.chks, mutationCounter, nodeCounter);
      var open := checkpointList[lc + 1];
      ghost var nc0 := nodeCounter;
      var fast := target.cursors + open.cursors;
      var names := NamesBefore(lc);
      var d := MergeOlder(target, lc);
      slow, v := names, target.View();
      CollapseReady(views, v, model, lc, mutationCounter, nc0, nodeCounter, d);
      FastNames(views, model, lc, fast, names, persistenceCursor, tapCursors, checkpointList);
      dropped := d;
      MoveCollapsed(names, fast, target, dropped);
    }

    method CollapseClosedInto(lc: nat)
      requires Valid() && |checkpointList| == lc + 2
      modifies this, checkpointList
      ensures |old(model).chks| == lc + 2
      ensures Valid() && model == CollapseInto(old(model), lc)
      ensures checkpointList == old(checkpointList)[lc..]
    {
      hide Inv, ListsRep, NamesRep, CursorsRep, MergedDown, CollapseInto, NumKeyed, CollapsedFrom, Distinct;
      DistinctSuffix(checkpointList, lc);
      ghost var pc, taps, list, nc0 := persistenceCursor, tapCursors, checkpointList, nodeCounter;
      var target, open := checkpointList[lc], checkpointList[lc + 1];
      var dropped, slow, v := MergeClosed(target, lc);
      numItems := numItems - dropped;
      checkpointList := checkpointList[lc..];
      CollapsedRep(pc, taps, persistenceCursor, tapCursors, model, list, views, lc, v, slow, mutationCounter, nc0, nodeCounter, dropped);
      assert checkpointList == [target, open] && open.View() == views[lc + 1];
      model := CollapseInto(model, lc);
      views := [target.View()] + views[lc + 1..];
      assert views == [target.View(), open.View()];
    }

    /** Is memory tight, every cursor in the newest checkpoint and that checkpoint worth closing? */
    method IsCheckpointCreationForHighMemUsage(env: Env) returns (force: bool)
      requires Valid()
      ensures |model.chks| >= 1 && force == HighMemCreation(model, env)
    {
      hide Inv, ListsRep, CursorAt, NumKeyed;
      NewestFacts();
      var back := checkpointList[|checkpointList| - 1];
      var allInOpen := 1 + |tapCursors| == |back.cursors|;
      AllInOpen(persistenceCursor, tapCursors, model, checkpointList, views);
      force := env.memAboveHighWat && allInOpen
               && (back.numItems >= MIN_CHECKPOINT_ITEMS || back.numItems == env.hashTableItems);
    }

    /** Move a cursor that read the whole of the checkpoint with an id to the next one. */
    method StepOverOne(n: string, oldId: nat)
      requires Represents() && n in model.cursors
      modifies this`persistenceCursor, this`tapCursors, this`model, this`views, checkpointList
      ensures Represents()
      ensures model == SetCursor(old(model), n, SteppedOver(old(model).chks, old(model).cursors[n], oldId))
    {
      hide ListInv, CursorsInv, TotalWeight, ListsRep, NamesRep, CursorsRep, RefIndex, IndexOf, NumKeyed;
      CursorPlace(n);
      ghost var m := model.cursors[n];
      ChkFacts(m.chk);
      ListParts(model.chks, m.chk);
      var cursor := CursorNamed(n);
      var chk := cursor.currentCheckpoint;
      assert model.cursors[n := m] == model.cursors;
      if chk.id == oldId && IndexOf(chk.toWrite, cursor.currentPos) + 1 == |chk.toWrite| {
        var moved := MoveCursorToNextCheckpoint(n);
      }
    }

    method StepOverAll(oldId: nat)
      requires Valid()
      modifies this`persistenceCursor, this`tapCursors, this`model, this`views, checkpointList
      ensures Valid() && model == StepOver(old(model), oldId)
    {
      hide Inv, ListsRep, NamesRep, CursorsRep, SteppedOver, SetCursor;
      CursorKeys(persistenceCursor, tapCursors, model.cursors, checkpointList, views, PERSISTENCE);
      ghost var m0 := model;
      SteppedStart(m0, oldId);
      var todo := tapCursors.Keys + {PERSISTENCE};
      KeysOf(persistenceCursor, tapCursors, model.cursors, checkpointList, views);
      while todo != {}
        invariant Represents() && todo <= m0.cursors.Keys
        invariant model == SteppedSome(m0, oldId, todo)
        decreases todo
      {
        var n :| n in todo;
        SteppedNext(m0, oldId, todo, n);
        StepOverOne(n, oldId);
        todo := todo - {n};
      }
      SteppedEnd(m0, oldId);
    }

    /** Names in a checkpoint that belong to no cursor standing there are taken off; there never are any. */
    method RemoveInvalidCursorsOnCheckpoint(chk: Checkpoint, ghost i: nat)
      requires Represents() && i < |checkpointList| && checkpointList[i] == chk
      modifies chk`cursors
      ensures Represents() && chk.cursors == old(chk.cursors)
    {
      hide Inv, ListsRep, NamesRep, CursorsRep;
      var invalid: set<string> := {};
      var todo := chk.cursors;
      while todo != {}
        invariant todo <= chk.cursors && invalid == {} && chk.View() == views[i]
        decreases todo
      {
        var n :| n in todo;
        RegisteredStands(persistenceCursor, tapCursors, model.cursors, checkpointList, views, i, n);
        if n == PERSISTENCE {
          if chk != persistenceCursor.currentCheckpoint {
            invalid := invalid + {n};
          }
        } else if n !in tapCursors || chk != tapCursors[n].currentCheckpoint {
          invalid := invalid + {n};
        }
        todo := todo - {n};
      }
      var valid := chk.cursors - invalid;
      assert valid == chk.cursors;
      chk.cursors := valid;
      assert chk.View() == views[i];
    }

    /** Count the entries of the leading checkpoints that no cursor stands in. */
    method CountUnref(keepClosed: bool) returns (it: nat, numUnrefItems: nat)
      requires Valid()
      modifies checkpointList
      ensures Valid() && |model.chks| == |checkpointList|
      ensures it == Unref(model, keepClosed) < |checkpointList|
      ensures numUnrefItems == TotalWeight(model.chks[..it])
    {
      hide Inv, ListsRep, NamesRep, CursorsRep, TotalWeight, LeadingUnref, Unreferenced, NumKeyed, SameItems;
      ListsLength(views, model.chks, mutationCounter, nodeCounter);
      UnrefBound(model);
      it, numUnrefItems := 0, 0;
      EmptyWeight(model.chks);
      while it < |checkpointList|
        invariant it <= LeadingUnref(model, 0) && Valid() && (keepClosed ==> it == 0)
        invariant numUnrefItems == TotalWeight(model.chks[..it])
      {
        RemoveInvalidCursorsOnCheckpoint(checkpointList[it], it);
        ChkFacts(it);
        NoNames(views, model, it);
        UnrefNext(model, it);
        if |checkpointList[it].cursors| > 0 {
          break;
        }
        ClosedWeight(model, it);
        numUnrefItems := numUnrefItems + checkpointList[it].numItems + 2;
        it := it + 1;
        if keepClosed {
          break;
        }
      }
    }

    method DropFirst(it: nat, d: nat)
      requires Valid() && 0 < it < |checkpointList| && |model.chks| == |checkpointList|
      requires it <= LeadingUnref(model, 0) && d == TotalWeight(model.chks[..it])
      modifies this
      ensures Valid() && model == DropFront(old(model), it) && checkpointList == old(checkpointList)[it..]
    {
      hide Inv, ListsRep, NamesRep, CursorsRep, TotalWeight, DropFront, LeadingUnref, Lowered, Distinct;
      ghost var pc, taps, list := persistenceCursor, tapCursors, checkpointList;
      KeysOf(persistenceCursor, tapCursors, model.cursors, checkpointList, views);
      numItems := numItems - d;
      LowerOffsets(tapCursors.Keys + {PERSISTENCE}, d);
      DistinctSuffix(checkpointList, it);
      checkpointList := checkpointList[it..];
      DroppedRep(pc, taps, persistenceCursor, tapCursors, model, list, views, it, mutationCounter, nodeCounter);
      model := DropFront(model, it);
      views := views[it..];
    }

    /** Drop the leading checkpoints that no cursor stands in. */
    method DropUnref(keepClosed: bool) returns (numUnrefItems: nat)
      requires Valid()
      modifies this, checkpointList
      ensures Unref(old(model), keepClosed) < |old(model).chks|
      ensures Valid() && model == DropFront(old(model), Unref(old(model), keepClosed))
      ensures numUnrefItems == TotalWeight(old(model).chks[..Unref(old(model), keepClosed)])
      ensures forall i :: 0 <= i < |checkpointList| ==> checkpointList[i] in old(checkpointList)
    {
      hide Inv, ListsRep, NamesRep, CursorsRep, TotalWeight, DropFront, LeadingUnref, Distinct;
      var it;
      it, numUnrefItems := CountUnref(keepClosed);
      PositiveWeight(model.chks, it);
      DropNothing(model);
      if numUnrefItems > 0 {
        DropFirst(it, numUnrefItems);
      }
    }

    /** Open a new checkpoint if one is due; cursors done with the previous one move into it. */
    method OpenNewIfDue(env: Env) returns (oldId: nat)
      requires Valid()
      modifies this, checkpointList
      ensures |old(model).chks| >= 1
      ensures Valid() && (model, oldId) == OpenIfDue(old(model), env)
      ensures |checkpointList| >= |old(checkpointList)| && checkpointList[..|old(checkpointList)|] == old(checkpointList)
      ensures forall i :: |old(checkpointList)| <= i < |checkpointList| ==> fresh(checkpointList[i])
    {
      hide Inv, ListsRep, NamesRep, CursorsRep, CheckOpen, StepOver, HighMemCreation, CanCreate;
      NewestFacts();
      oldId := 0;
      var can := CanCreateNew(env);
      if env.vbState == Active && !env.inconsistentSlave && can {
        var force := IsCheckpointCreationForHighMemUsage(env);
        oldId := CheckOpenCheckpoint(force, env);
      }
      if oldId > 0 {
        StepOverAll(oldId);
      }
    }

    /** The periodic clean-up. */
    method RemoveClosedUnrefCheckpoints(env: Env) returns (numUnrefItems: nat, newOpenCheckpointCreated: bool)
      requires Valid()
      modifies this, checkpointList
      ensures |old(model).chks| >= 1
      ensures Valid() && (model, numUnrefItems, newOpenCheckpointCreated) == RemoveClosedUnref(old(model), env)
      ensures forall i :: 0 <= i < |checkpointList| ==> checkpointList[i] in old(checkpointList) || fresh(checkpointList[i])
    {
      hide Inv, ListsRep, NamesRep, CursorsRep, TotalWeight, DropFront, LeadingUnref, OpenIfDue, CollapseClosed;
      NewestFacts();
      var oldId := OpenNewIfDue(env);
      NewestFacts();
      newOpenCheckpointCreated := oldId > 0;
      numUnrefItems := 0;
      if env.keepClosed && env.memBelowHighWat && |checkpointList| <= env.maxCheckpoints {
        return;
      }
      numUnrefItems := DropUnref(env.keepClosed);
      NewestFacts();
      if !env.keepClosed && (env.vbState == Replica || (env.vbState == Active && env.inconsistentSlave)) {
        CollapseClosedCheckpoints();
      }
    }

    /** Put every cursor at the beginning of the only checkpoint left; the lists already represent the new model. */
    method ResetCursors(c: Checkpoint, ghost m0: State, ghost list0: seq<Checkpoint>, ghost views0: seq<ChkView>, ghost m: State)
      requires checkpointList == [c] && numItems == m.numItems && Inv(m) && m.cursors == CheckpointLog.ResetCursors(m0).cursors
      requires CursorsRep(persistenceCursor, tapCursors, m0.cursors, list0, views0)
      requires ListsRep([c.View()], m.chks, mutationCounter, nodeCounter) && |c.toWrite| >= 1 && c.cursors <= m0.cursors.Keys
      modifies this`persistenceCursor, this`tapCursors, this`model, this`views, c`cursors
      ensures Valid() && model == m
    {
      hide Inv, ListsRep, NamesRep, CursorsRep, Repositioned, CheckpointLog.ResetCursors;
      ghost var pc, taps, v := persistenceCursor, tapCursors, c.View();
      KeysOf(pc, taps, m0.cursors, list0, views0);
      RepositionCursors(tapCursors.Keys + {PERSISTENCE}, c);
      ghost var w := c.View();
      assert w.cursors == m0.cursors.Keys;
      ResetRep(pc, taps, persistenceCursor, tapCursors, m0, list0, views0, c, v, w, m.chks, mutationCounter, nodeCounter);
      model := m;
      views := [w];
    }

    /** Forget everything and start again from an empty checkpoint. */
    method Clear(vbState: VBState)
      requires Valid()
      modifies this
      ensures Valid() && model == CheckpointLog.Clear(old(model), vbState)
      ensures |checkpointList| == 1 && fresh(checkpointList[0])
    {
      hide Inv, ListsRep, NamesRep, CursorsRep, CheckpointLog.Clear;
      ghost var list0, views0, m0, nc := checkpointList, views, model, nodeCounter;
      checkpointList := [];
      numItems := 0;
      mutationCounter := 0;
      var id := if vbState == Active then 1 else 0;
      var c := new Checkpoint(id);
      c.QueueStart(this);
      numItems := numItems + 1;
      checkpointList := [c];
      ClearParts(m0, vbState, nc);
      ResetCursors(c, m0, list0, views0, CheckpointLog.Clear(m0, vbState));
    }

    /** Collapse everything into the newest checkpoint, reopen and relabel it, and put every cursor at its beginning. */
    method RollbackTo(id: nat)
      requires Valid()
      modifies this, checkpointList
      ensures |old(model).chks| >= 1
      ensures Valid() && model == Rollback(old(model), id)
      ensures |checkpointList| == 1 && checkpointList[0] in old(checkpointList)
    {
      hide Inv, ListsRep, NamesRep, CursorsRep, Rollback, MergedDown, RolledView;
      NewestFacts();
      var last := |checkpointList| - 1;
      var back := checkpointList[last];
      ghost var list0, views0, m0, nc := checkpointList, views, model, nodeCounter;
      var dropped := MergeOlder(back, last);
      ghost var v := back.View();
      RollbackRep(views, v, model, id, mutationCounter, nc, nodeCounter, dropped);
      numItems := numItems - dropped;
      checkpointList := [back];
      ReopenAndRelabel(back, id);
      ResetCursors(back, m0, list0, views0, Rollback(m0, id));
    }

    method ReopenAndRelabel(back: Checkpoint, id: nat)
      requires |Popped(back.View()).toWrite| >= 2
      modifies this`numItems, back
      ensures back.View() == RolledView(old(back.View()), id)
      ensures numItems == old(numItems) - if old(back.isOpen) then 0 else 1
    {
      if !back.isOpen {
        back.PopBackCheckpointEndItem();
        numItems := numItems - 1;
        back.isOpen := true;
      }
      back.id := id;
      back.toWrite := back.toWrite[1 := back.toWrite[1].(item := StartItem(id))];
    }

    /** Is every checkpoint id smaller than the given one? */
    method AllOlder(id: nat) returns (all: bool)
      requires Represents()
      ensures all <==> forall i | 0 <= i < |model.chks| :: model.chks[i].id < id
    {
      hide Inv, ListsRep, NamesRep, CursorsRep, SameItems, NumKeyed;
      ListsLength(views, model.chks, mutationCounter, nodeCounter);
      var i := 0;
      while i < |checkpointList|
        invariant i <= |checkpointList|
        invariant forall k :: 0 <= k < i ==> model.chks[k].id < id
      {
        ChkFacts(i);
        if id <= checkpointList[i].id {
          assert !(model.chks[i].id < id);
          return false;
        }
        i := i + 1;
      }
      return true;
    }

    /** A checkpoint-start message from the active vbucket. */
    method CheckAndAddNewCheckpoint(id: nat) returns (pCursorRepositioned: bool)
      requires Valid()
      modifies this, checkpointList
      ensures Inv(old(model))
      ensures Valid() && (model, pCursorRepositioned) == CheckAndAdd(old(model), id)
      ensures forall i :: 0 <= i < |checkpointList| ==> checkpointList[i] in old(checkpointList) || fresh(checkpointList[i])
    {
      hide ListInv, CursorsInv, TotalWeight, ListsRep, NamesRep, CursorsRep, NumKeyed, AddNew, SetOpenId, Rollback;
      NewestFacts();
      if id == 0 {
        return false;
      }
      if checkpointList[|checkpointList| - 1].id == 0 {
        OnlyBackfill(model);
        SetOpenCheckpointId(id);
        return true;
      }
      var all := AllOlder(id);
      if all {
        AddNewCheckpoint(id);
        assert forall i :: 0 <= i < |old(checkpointList)| ==> checkpointList[i] == checkpointList[..|old(checkpointList)|][i];
        return false;
      }
      RollbackTo(id);
      return true;
    }
  }
}
