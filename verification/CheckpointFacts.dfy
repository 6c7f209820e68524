/** What each operation of the checkpoint log keeps: the structural invariant, step by step. */
module CheckpointFacts {
  import opened QueuedItems
  import opened CheckpointLog

  // ---------------------------------------------------------------- lists of checkpoints

  lemma {:induction false} FlatConcat(a: seq<Chk>, b: seq<Chk>)
    ensures Flat(a + b) == Flat(a) + Flat(b)
  {
    if a == [] {
      assert a + b == b;
    } else {
      assert (a + b)[1..] == a[1..] + b;
      FlatConcat(a[1..], b);
    }
  }

  lemma {:induction false} TotalWeightConcat(a: seq<Chk>, b: seq<Chk>)
    ensures TotalWeight(a + b) == TotalWeight(a) + TotalWeight(b)
  {
    if a == [] {
      assert a + b == b;
    } else {
      assert (a + b)[1..] == a[1..] + b;
      TotalWeightConcat(a[1..], b);
    }
  }

  lemma {:induction false} SplitAt(chks: seq<Chk>, i: nat)
    requires i <= |chks|
    ensures Flat(chks) == Flat(chks[..i]) + Flat(chks[i..])
    ensures TotalWeight(chks) == TotalWeight(chks[..i]) + TotalWeight(chks[i..])
  {
    assert chks == chks[..i] + chks[i..];
    FlatConcat(chks[..i], chks[i..]);
    TotalWeightConcat(chks[..i], chks[i..]);
  }

  lemma {:induction false} Single(c: Chk)
    ensures Flat([c]) == Tail(c)
    ensures TotalWeight([c]) == Weight(c)
  {
    assert [c][1..] == [];
    assert Flat([]) == [];
  }

  lemma {:induction false} SplitBack(s: State)
    requires |s.chks| >= 1
    ensures Flat(s.chks) == Flat(s.chks[..|s.chks| - 1]) + Tail(Back(s))
    ensures TotalWeight(s.chks) == TotalWeight(s.chks[..|s.chks| - 1]) + Weight(Back(s))
  {
    var l := |s.chks| - 1;
    SplitAt(s.chks, l);
    assert s.chks[l..] == [Back(s)];
    Single(Back(s));
  }

  /** Replacing the newest checkpoint. */
  lemma {:induction false} WeightSetBack(s: State, c: Chk)
    requires |s.chks| >= 1
    ensures TotalWeight(SetBack(s, c).chks) == TotalWeight(s.chks) - Weight(Back(s)) + Weight(c)
    ensures Flat(SetBack(s, c).chks) == Flat(s.chks[..|s.chks| - 1]) + Tail(c)
  {
    var l := |s.chks| - 1;
    SplitBack(s);
    SplitBack(SetBack(s, c));
    assert SetBack(s, c).chks[..l] == s.chks[..l];
  }

  // ---------------------------------------------------------------- one entry list

  lemma {:induction false} NumKeyedWithout(items: seq<Item>, i: nat)
    requires i < |items|
    ensures NumKeyed(items) == NumKeyed(Without(items, i)) + if Keyed(items[i]) then 1 else 0
  {
    assert items == items[..i] + [items[i]] + items[i + 1..];
    NumKeyedConcat(items[..i] + [items[i]], items[i + 1..]);
    NumKeyedConcat(items[..i], [items[i]]);
    NumKeyedConcat(items[..i], items[i + 1..]);
    assert [items[i]][..0] == [];
  }

  lemma {:induction false} NumKeyedSnoc(items: seq<Item>, it: Item)
    ensures NumKeyed(items + [it]) == NumKeyed(items) + if Keyed(it) then 1 else 0
  {
    assert (items + [it])[..|items|] == items;
  }

  lemma {:induction false} NumKeyedRequeue(items: seq<Item>, it: Item)
    requires Keyed(it)
    ensures NumKeyed(Requeue(items, it)) == NumKeyed(items) + if FindKey(items, it.key) < |items| then 0 else 1
  {
    var at := FindKey(items, it.key);
    if at < |items| {
      NumKeyedWithout(items, at);
      NumKeyedSnoc(Without(items, at), it.(queuedTime := items[at].queuedTime));
    } else {
      NumKeyedSnoc(items, it);
    }
  }

  lemma {:induction false} RequeueAt(items: seq<Item>, it: Item, i: nat)
    requires i < |Requeue(items, it)|
    ensures var at := FindKey(items, it.key);
            if i == |Requeue(items, it)| - 1 then
              Requeue(items, it)[i].key == it.key && ChangeOf(Requeue(items, it)[i]) == ChangeOf(it)
            else if i < at then i < |items| && Requeue(items, it)[i] == items[i]
            else i + 1 < |items| && Requeue(items, it)[i] == items[i + 1]
  {
  }

  lemma {:induction false} RequeueDistinct(items: seq<Item>, it: Item)
    requires DistinctKeys(items) && Keyed(it)
    ensures DistinctKeys(Requeue(items, it))
  {
    var r := Requeue(items, it);
    forall i, j | 0 <= i < j < |r| && Keyed(r[i]) ensures r[i].key != r[j].key {
      RequeueAt(items, it, i);
      RequeueAt(items, it, j);
    }
  }

  lemma {:induction false} RequeueKeepsChk(c: Chk, it: Item)
    requires ChkInv(c) && c.open && Mutates(it)
    ensures ChkInv(c.(items := Requeue(c.items, it)))
  {
    hide NumKeyed, DistinctKeys, Requeue, FindKey, FirstKeyed;
    var r := Requeue(c.items, it);
    var at := FindKey(c.items, it.key);
    NumKeyedRequeue(c.items, it);
    RequeueDistinct(c.items, it);
    RequeueAt(c.items, it, 0);
    RequeueAt(c.items, it, 1);
    forall i | 2 <= i < |r| ensures Mutates(r[i]) || IsEnd(r[i]) {
      RequeueAt(c.items, it, i);
    }
    forall i | FirstKeyed(r) <= i < |r| - 1 ensures Keyed(r[i]) {
      RequeueAt(c.items, it, i);
      RequeueAt(c.items, it, FirstKeyed(r));
    }
    RequeueAt(c.items, it, |r| - 1);
  }

  // ---------------------------------------------------------------- merging

  lemma {:induction false} MissingFacts(prev: seq<Item>, cur: seq<Item>)
    ensures forall i :: 0 <= i < |Missing(prev, cur)| ==>
              Keyed(Missing(prev, cur)[i]) && !HasKey(cur, Missing(prev, cur)[i].key)
    ensures |Missing(prev, cur)| <= NumKeyed(prev)
    ensures NumKeyed(Missing(prev, cur)) == |Missing(prev, cur)|
  {
    if prev != [] {
      MissingFacts(prev[1..], cur);
      assert prev == [prev[0]] + prev[1..];
      NumKeyedConcat([prev[0]], prev[1..]);
      assert [prev[0]][..0] == [];
      if Keyed(prev[0]) && FindKey(cur, prev[0].key) == |cur| {
        NumKeyedConcat([prev[0]], Missing(prev[1..], cur));
      }
    }
  }

  /** Mutations never carry the end operation. */
  ghost predicate MutationsOnly(items: seq<Item>) {
    forall i :: 0 <= i < |items| && Keyed(items[i]) ==> Mutates(items[i])
  }

  lemma {:induction false} MissingMutations(prev: seq<Item>, cur: seq<Item>)
    requires MutationsOnly(prev)
    ensures MutationsOnly(Missing(prev, cur))
  {
    if prev != [] {
      MissingMutations(prev[1..], cur);
    }
  }

  lemma {:induction false} MissingFromPrev(prev: seq<Item>, cur: seq<Item>, k: Key)
    ensures HasKey(Missing(prev, cur), k) ==> HasKey(prev, k)
  {
    if prev != [] {
      MissingFromPrev(prev[1..], cur, k);
      var m := Missing(prev[1..], cur);
      if HasKey(Missing(prev, cur), k) {
        var i :| 0 <= i < |Missing(prev, cur)| && Missing(prev, cur)[i].key == k;
        if Keyed(prev[0]) && FindKey(cur, prev[0].key) == |cur| {
          if i == 0 {
            assert prev[0].key == k;
          } else {
            assert m[i - 1].key == k;
          }
        }
        if HasKey(m, k) {
          var j :| 0 <= j < |prev[1..]| && prev[1..][j].key == k;
          assert prev[j + 1].key == k;
        }
      }
    }
  }

  lemma {:induction false} MissingDistinct(prev: seq<Item>, cur: seq<Item>)
    requires DistinctKeys(prev)
    ensures DistinctKeys(Missing(prev, cur))
  {
    if prev != [] {
      MissingDistinct(prev[1..], cur);
      var m := Missing(prev[1..], cur);
      if Keyed(prev[0]) && FindKey(cur, prev[0].key) == |cur| {
        MissingFromPrev(prev[1..], cur, prev[0].key);
        assert !HasKey(prev[1..], prev[0].key);
      }
    }
  }

  lemma {:induction false} MergeAt(prev: seq<Item>, cur: seq<Item>, i: nat)
    requires i < |Merge(prev, cur)|
    ensures var f, m := FirstKeyed(cur), Missing(prev, cur);
            Merge(prev, cur)[i] == if i < f then cur[i] else if i < f + |m| then m[i - f] else cur[i - |m|]
  {
  }

  lemma {:induction false} MergeDistinct(prev: seq<Item>, cur: seq<Item>)
    requires DistinctKeys(prev) && DistinctKeys(cur)
    ensures DistinctKeys(Merge(prev, cur))
  {
    var r := Merge(prev, cur);
    MissingFacts(prev, cur);
    MissingDistinct(prev, cur);
    forall i, j | 0 <= i < j < |r| && Keyed(r[i]) ensures r[i].key != r[j].key {
      MergeAt(prev, cur, i);
      MergeAt(prev, cur, j);
    }
  }

  lemma {:induction false} MergeSize(prev: seq<Item>, cur: seq<Item>)
    ensures |Merge(prev, cur)| == |cur| + |Missing(prev, cur)|
    ensures NumKeyed(Merge(prev, cur)) == NumKeyed(cur) + |Missing(prev, cur)|
  {
    var f, m := FirstKeyed(cur), Missing(prev, cur);
    MissingFacts(prev, cur);
    assert cur == cur[..f] + cur[f..];
    NumKeyedConcat(cur[..f], cur[f..]);
    NumKeyedConcat(cur[..f] + m, cur[f..]);
    NumKeyedConcat(cur[..f], m);
  }

  lemma {:induction false} MergeKeepsFirst(prev: seq<Item>, cur: seq<Item>)
    ensures FirstKeyed(Merge(prev, cur)) == FirstKeyed(cur)
  {
    var f, m, r := FirstKeyed(cur), Missing(prev, cur), Merge(prev, cur);
    MissingFacts(prev, cur);
    forall i | 0 <= i < |r| && i < f ensures !Keyed(r[i]) {
      MergeAt(prev, cur, i);
    }
    if f < |r| {
      MergeAt(prev, cur, f);
    }
  }

  /** A merge of two entry lists is again an entry list. */
  lemma {:induction false} MergeKeepsChk(prev: seq<Item>, c: Chk)
    requires ChkInv(c) && DistinctKeys(prev) && MutationsOnly(prev)
    ensures ChkInv(c.(items := Merge(prev, c.items)))
  {
    var r := Merge(prev, c.items);
    var f, m := FirstKeyed(c.items), Missing(prev, c.items);
    MissingFacts(prev, c.items);
    MergeSize(prev, c.items);
    MergeDistinct(prev, c.items);
    MissingMutations(prev, c.items);
    MergeAt(prev, c.items, 0);
    MergeAt(prev, c.items, 1);
    forall i | 2 <= i < |r| ensures Mutates(r[i]) || IsEnd(r[i]) {
      MergeAt(prev, c.items, i);
    }
    forall i | FirstKeyed(r) <= i < |r| - 1 ensures Keyed(r[i]) {
      MergeAt(prev, c.items, i);
      MergeAt(prev, c.items, FirstKeyed(r));
    }
    MergeAt(prev, c.items, |r| - 1);
  }

  lemma {:induction false} Mergeable(c: Chk)
    requires ChkInv(c)
    ensures DistinctKeys(c.items) && MutationsOnly(c.items)
  {
    hide DistinctKeys, FirstKeyed, NumKeyed;
  }

  lemma {:induction false} NothingWeighs()
    ensures TotalWeight([]) == 0
  {
  }

  lemma {:induction false} MergeAllKeepsChk(chks: seq<Chk>, c: Chk)
    requires ChkInv(c)
    requires forall i :: 0 <= i < |chks| ==> ChkInv(chks[i]) && !chks[i].open
    ensures ChkInv(c.(items := MergeAll(chks, c.items)))
    ensures |c.items| <= |MergeAll(chks, c.items)|
    ensures |MergeAll(chks, c.items)| - |c.items| <= TotalWeight(chks)
    ensures NumKeyed(MergeAll(chks, c.items)) - NumKeyed(c.items) == |MergeAll(chks, c.items)| - |c.items|
    decreases |chks|
  {
    hide NumKeyed, DistinctKeys, FirstKeyed, Merge, Missing, ChkInv, TotalWeight, MutationsOnly;
    if chks == [] {
      NothingWeighs();
    } else {
      var l := |chks| - 1;
      var c' := c.(items := Merge(chks[l].items, c.items));
      Mergeable(chks[l]);
      MergeKeepsChk(chks[l].items, c);
      MergeSize(chks[l].items, c.items);
      MissingFacts(chks[l].items, c.items);
      MergeAllKeepsChk(chks[..l], c');
      assert chks[..l] + [chks[l]] == chks;
      TotalWeightConcat(chks[..l], [chks[l]]);
      Single(chks[l]);
    }
  }

  // ---------------------------------------------------------------- the operations keep the invariant

  lemma {:induction false} SetBackKeepsList(s: State, c: Chk)
    requires ListInv(s.chks) && ChkInv(c) && ClosedAtEnd(c)
    requires c.id == Back(s).id || |s.chks| == 1 || s.chks[|s.chks| - 2].id < c.id
    ensures ListInv(SetBack(s, c).chks)
  {
    hide ChkInv, ClosedAtEnd;
    var r := SetBack(s, c).chks;
    var l := |r| - 1;
    forall i, j | 0 <= i < j < |r| ensures r[i].id < r[j].id {
      assert j == l && i < l - 1 ==> s.chks[i].id < s.chks[l - 1].id;
    }
  }

  lemma {:induction false} EnqueueKeepsCursors(s: State, it: Item)
    requires Inv(s)
    ensures CursorsInv(Enqueue(s, it).chks, Enqueue(s, it).cursors)
  {
    hide ListInv, TotalWeight, Requeue, FindKey, Decr, CursorOk;
    ListNonEmpty(s.chks);
    var s' := Enqueue(s, it);
    forall n | n in s'.cursors ensures CursorOk(s'.chks, s'.cursors[n]) {
      assert CursorOk(s.chks, s.cursors[n]);
      EnqueueKeepsCursor(s, it, n);
    }
  }

  lemma {:induction false} EnqueueKeepsCursor(s: State, it: Item, n: string)
    requires |s.chks| >= 1 && n in s.cursors && CursorOk(s.chks, s.cursors[n])
    ensures n in Enqueue(s, it).cursors && CursorOk(Enqueue(s, it).chks, Enqueue(s, it).cursors[n])
  {
    hide Requeue, FindKey, Decr;
  }

  lemma {:induction false} EnqueueKeepsInv(s: State, it: Item)
    requires Inv(s) && Back(s).open && Mutates(it)
    ensures Inv(Enqueue(s, it))
    ensures |Enqueue(s, it).chks| == |s.chks|
  {
    var c := Back(s).(items := Requeue(Back(s).items, it));
    assert Enqueue(s, it).chks == SetBack(s, c).chks;
    assert ListInv(SetBack(s, c).chks) by {
      RequeueKeepsChk(Back(s), it);
      SetBackKeepsList(s, c);
    }
    assert TotalWeight(SetBack(s, c).chks) == Enqueue(s, it).numItems by {
      NumKeyedRequeue(Back(s).items, it);
      WeightSetBack(s, c);
    }
    EnqueueKeepsCursors(s, it);
  }

  lemma {:induction false} ClosedChk(c: Chk)
    requires ChkInv(c) && c.open
    ensures ChkInv(c.(open := false, items := c.items + [EndItem(c.id)]))
    ensures NumKeyed(c.items + [EndItem(c.id)]) == NumKeyed(c.items)
  {
    NumKeyedSnoc(c.items, EndItem(c.id));
  }

  /** Cursors stay valid while lists only grow. */
  lemma {:induction false} GrowKeepsCursors(chks: seq<Chk>, chks': seq<Chk>, cursors: map<string, Cursor>)
    requires CursorsInv(chks, cursors)
    requires |chks| <= |chks'|
    requires forall i :: 0 <= i < |chks| ==> |chks[i].items| <= |chks'[i].items|
    ensures CursorsInv(chks', cursors)
  {
    forall n | n in cursors ensures CursorOk(chks', cursors[n]) {
      assert CursorOk(chks, cursors[n]);
    }
  }

  lemma {:induction false} CloseKeepsInv(s: State, id: nat)
    requires Inv(s)
    ensures Inv(CloseOpen(s, id))
    ensures id == Back(s).id ==> !Back(CloseOpen(s, id)).open
    ensures |CloseOpen(s, id).chks| == |s.chks| && Back(CloseOpen(s, id)).id == Back(s).id
  {
    hide ChkInv, CursorsInv, TotalWeight, NumKeyed;
    var b := Back(s);
    if id == b.id && b.open {
      var c := b.(open := false, items := b.items + [EndItem(id)]);
      ClosedChk(b);
      assert ListInv(SetBack(s, c).chks) by { SetBackKeepsList(s, c); }
      assert TotalWeight(SetBack(s, c).chks) == s.numItems + 1 by { WeightSetBack(s, c); }
      GrowKeepsCursors(s.chks, SetBack(s, c).chks, s.cursors);
    }
  }

  lemma {:induction false} AppendKeepsList(chks: seq<Chk>, c: Chk)
    requires ListInv(chks) && ChkInv(c) && ClosedAtEnd(c)
    requires !chks[|chks| - 1].open && chks[|chks| - 1].id < c.id
    ensures ListInv(chks + [c])
  {
    var r := chks + [c];
    forall i, j | 0 <= i < j < |r| ensures r[i].id < r[j].id {
      assert i < |chks| - 1 ==> chks[i].id < chks[|chks| - 1].id;
    }
  }

  lemma {:induction false} AddNewKeepsInv(s: State, id: nat)
    requires Inv(s) && Back(s).id < id
    ensures Inv(AddNew(s, id))
    ensures |AddNew(s, id).chks| == |s.chks| + 1
  {
    hide ChkInv, CursorsInv, TotalWeight, NumKeyed;
    var s1 := CloseOpen(s, Back(s).id);
    var r := s1.chks + [NewChk(id)];
    CloseKeepsInv(s, Back(s).id);
    assert ListInv(r) by {
      NewChkKeyless(id);
      AppendKeepsList(s1.chks, NewChk(id));
    }
    assert TotalWeight(r) == TotalWeight(s1.chks) + 1 by {
      NewChkKeyless(id);
      TotalWeightConcat(s1.chks, [NewChk(id)]);
      Single(NewChk(id));
    }
    GrowKeepsCursors(s1.chks, r, s1.cursors);
  }

  lemma {:induction false} NewChkKeyless(id: nat)
    ensures NumKeyed(NewChk(id).items) == 0
    ensures ChkInv(NewChk(id))
  {
    NumKeyedSnoc([], DummyItem());
    NumKeyedSnoc([DummyItem()], StartItem(id));
    assert [] + [DummyItem()] == [DummyItem()];
    assert [DummyItem()] + [StartItem(id)] == NewChk(id).items;
  }

  lemma {:induction false} RelabelledChk(c: Chk, id: nat)
    requires ChkInv(c)
    ensures ChkInv(c.(id := id, items := c.items[1 := StartItem(id)]))
    ensures NumKeyed(c.items[1 := StartItem(id)]) == NumKeyed(c.items)
  {
    var r := c.items[1 := StartItem(id)];
    assert NumKeyed(r) == NumKeyed(c.items) by {
      NumKeyedWithout(c.items, 1);
      NumKeyedWithout(r, 1);
      assert Without(r, 1) == Without(c.items, 1);
    }
    assert FirstKeyed(r) == FirstKeyed(c.items);
  }

  lemma {:induction false} SetOpenIdKeepsInv(s: State, id: nat)
    requires Inv(s)
    requires |s.chks| > 1 ==> s.chks[|s.chks| - 2].id < id
    ensures Inv(SetOpenId(s, id))
  {
    hide CursorsInv, TotalWeight, NumKeyed, DistinctKeys, FirstKeyed;
    var c := Back(s).(id := id, items := Back(s).items[1 := StartItem(id)]);
    RelabelledChk(Back(s), id);
    assert ListInv(SetBack(s, c).chks) by { SetBackKeepsList(s, c); }
    assert TotalWeight(SetBack(s, c).chks) == s.numItems by { WeightSetBack(s, c); }
    GrowKeepsCursors(s.chks, SetBack(s, c).chks, s.cursors);
  }

  lemma {:induction false} CheckOpenKeepsInv(s: State, force: bool, env: Env)
    requires Inv(s)
    ensures Inv(CheckOpen(s, force, env).0)
  {
    hide ChkInv, CursorsInv, TotalWeight, ClosedAtEnd, NumKeyed;
    var b := Back(s);
    var s1 := CloseOpen(s, b.id);
    CloseKeepsInv(s, b.id);
    AddNewKeepsInv(s1, b.id + 1);
  }

  lemma {:induction false} QueueDirtyKeepsInv(s: State, it: Item, env: Env)
    requires Inv(s) && Mutates(it)
    requires env.vbState == Active ==> Back(s).open
    ensures Inv(QueueDirty(s, it, env).0)
  {
    if Accepts(s, env) {
      EnqueueKeepsInv(s, it);
      CheckOpenKeepsInv(Enqueue(s, it), false, env);
    }
  }

  lemma {:induction false} NextKeepsInv(s: State, n: string)
    requires Inv(s)
    ensures Inv(Next(s, n).0)
  {
    if n in s.cursors {
      NextMovesCursor(s, n);
    }
  }

  lemma {:induction false} NextMovesCursor(s: State, n: string)
    requires Inv(s) && n in s.cursors
    ensures Next(s, n).0.chks == s.chks && Next(s, n).0.numItems == s.numItems
    ensures n in Next(s, n).0.cursors && CursorOk(s.chks, Next(s, n).0.cursors[n])
    ensures Next(s, n).0.cursors == s.cursors[n := Next(s, n).0.cursors[n]]
  {
    hide TotalWeight, ListInv, LastMutationAt;
    AllLong(s.chks);
    assert CursorOk(s.chks, s.cursors[n]);
  }

  lemma {:induction false} AllLong(chks: seq<Chk>)
    requires ListInv(chks)
    ensures |chks| >= 1 && forall i :: 0 <= i < |chks| ==> |chks[i].items| >= 2
  {
    hide DistinctKeys, NumKeyed, FirstKeyed, ClosedAtEnd;
  }

  lemma {:induction false} RegisterKeepsInv(s: State, n: string, id: nat, closedOnly: bool, fromBeginning: bool)
    requires Inv(s)
    ensures Inv(Register(s, n, id, closedOnly, fromBeginning).0)
  {
    hide TotalWeight, ListInv, NumKeyed, FindChk;
    AllLong(s.chks);
  }

  lemma {:induction false} ClearKeepsInv(s: State, vbState: VBState)
    requires PERSISTENCE in s.cursors
    ensures Inv(Clear(s, vbState))
  {
    var id := if vbState == Active then 1 else 0;
    NewChkKeyless(id);
    Single(NewChk(id));
  }

  lemma {:induction false} InitInv(id: nat)
    ensures Inv(Init(id))
  {
    NewChkKeyless(id);
    Single(NewChk(id));
  }

  /** A persistence cursor always exists, so clean-up stops before the checkpoint it stands in. */
  lemma {:induction false} LeadingUnrefBeforeCursors(s: State, n: string)
    requires Inv(s) && n in s.cursors
    ensures LeadingUnref(s, 0) <= s.cursors[n].chk
  {
    assert s.cursors[n].chk < LeadingUnref(s, 0) ==> Unreferenced(s, s.cursors[n].chk);
  }

  lemma {:induction false} DropFrontKeepsInv(s: State, r: nat)
    requires Inv(s)
    requires r <= LeadingUnref(s, 0)
    ensures r < |s.chks|
    ensures forall i :: 0 <= i < r ==> !s.chks[i].open
    ensures Inv(DropFront(s, r))
  {
    hide ListInv, CursorOk, TotalWeight, LeadingUnref, Decr;
    LeadingUnrefBeforeCursors(s, PERSISTENCE);
    var s' := DropFront(s, r);
    assert r < |s.chks| by {
      assert CursorOk(s.chks, s.cursors[PERSISTENCE]);
      CursorInside(s.chks, s.cursors[PERSISTENCE]);
    }
    forall n | n in s'.cursors ensures CursorOk(s'.chks, s'.cursors[n]) {
      LeadingUnrefBeforeCursors(s, n);
      assert CursorOk(s.chks, s.cursors[n]);
      DropFrontKeepsCursor(s, r, n);
    }
    SuffixKeepsList(s.chks, r);
    FrontClosed(s.chks, r);
    SplitAt(s.chks, r);
  }

  lemma {:induction false} CursorInside(chks: seq<Chk>, c: Cursor)
    requires CursorOk(chks, c)
    ensures c.chk < |chks|
  {
  }

  lemma {:induction false} FrontClosed(chks: seq<Chk>, r: nat)
    requires ListInv(chks) && r < |chks|
    ensures forall i :: 0 <= i < r ==> !chks[i].open
  {
    hide ChkInv;
  }

  lemma {:induction false} DropFrontKeepsCursor(s: State, r: nat, n: string)
    requires r <= |s.chks| && n in s.cursors && CursorOk(s.chks, s.cursors[n]) && r <= s.cursors[n].chk
    ensures n in DropFront(s, r).cursors && CursorOk(DropFront(s, r).chks, DropFront(s, r).cursors[n])
  {
    hide TotalWeight, Decr;
  }

  lemma {:induction false} SuffixKeepsList(chks: seq<Chk>, r: nat)
    requires ListInv(chks) && r < |chks|
    ensures ListInv(chks[r..])
  {
  }

  lemma {:induction false} MergedKeepsList(chks: seq<Chk>, lc: nat, c: Chk)
    requires ListInv(chks) && lc < |chks|
    requires ChkInv(c) && c.id == chks[lc].id && c.open == chks[lc].open
    requires lc == |chks| - 1 ==> ClosedAtEnd(c)
    ensures ListInv([c] + chks[lc + 1..])
  {
    var r := [c] + chks[lc + 1..];
    assert forall i :: 0 <= i < |r| ==> r[i] == if i == 0 then c else chks[lc + i];
  }

  lemma {:induction false} CollapseIntoWeights(s: State, lc: nat)
    requires ListInv(s.chks) && lc < |s.chks|
    ensures var items := s.chks[lc].items;
            var merged := MergeAll(s.chks[..lc], items);
            && |items| <= |merged| && |merged| - |items| <= TotalWeight(s.chks[..lc])
            && ChkInv(s.chks[lc].(items := merged))
            && TotalWeight(CollapseInto(s, lc).chks)
               == TotalWeight(s.chks) - (TotalWeight(s.chks[..lc]) - (|merged| - |items|))
  {
    hide ChkInv, ClosedAtEnd, MergeAll, NumKeyed, TotalWeight, FirstKeyed;
    var c := s.chks[lc];
    MergeAllKeepsChk(s.chks[..lc], c);
    var c' := c.(items := MergeAll(s.chks[..lc], c.items));
    SplitAt(s.chks, lc);
    assert s.chks[lc..] == [c] + s.chks[lc + 1..];
    TotalWeightConcat([c], s.chks[lc + 1..]);
    TotalWeightConcat([c'], s.chks[lc + 1..]);
    Single(c);
    Single(c');
  }

  lemma {:induction false} LongEnough(chks: seq<Chk>, i: nat)
    requires ListInv(chks) && i < |chks|
    ensures |chks[i].items| >= 2
  {
    assert ChkInv(chks[i]);
  }

  lemma {:induction false} CollapseIntoKeepsCursors(s: State, lc: nat)
    requires Inv(s) && lc < |s.chks|
    ensures CursorsInv(CollapseInto(s, lc).chks, CollapseInto(s, lc).cursors)
  {
    hide ListInv, ChkInv, NumKeyed, TotalWeight, MergeAll, FirstKeyed;
    CollapseIntoWeights(s, lc);
    LongEnough(s.chks, lc);
    var s' := CollapseInto(s, lc);
    forall n | n in s'.cursors ensures CursorOk(s'.chks, s'.cursors[n]) {
      assert CursorOk(s.chks, s.cursors[n]);
    }
  }

  lemma {:induction false} CollapseIntoKeepsInv(s: State, lc: nat)
    requires Inv(s) && lc < |s.chks| - 1
    ensures Inv(CollapseInto(s, lc))
    ensures |CollapseInto(s, lc).chks| == |s.chks| - lc
  {
    CollapseIntoWeights(s, lc);
    var c' := s.chks[lc].(items := MergeAll(s.chks[..lc], s.chks[lc].items));
    MergedKeepsList(s.chks, lc, c');
    CollapseIntoKeepsCursors(s, lc);
  }

  lemma {:induction false} CollapseClosedKeepsInv(s: State)
    requires Inv(s)
    ensures Inv(CollapseClosed(s))
  {
    if |s.chks| > 2 {
      CollapseIntoKeepsInv(s, |s.chks| - 2);
    }
  }

  lemma {:induction false} SteppedOverOk(chks: seq<Chk>, c: Cursor, oldId: nat)
    requires CursorOk(chks, c) && forall i :: 0 <= i < |chks| ==> |chks[i].items| >= 1
    ensures CursorOk(chks, SteppedOver(chks, c, oldId))
  {
  }

  lemma {:induction false} StepOverKeepsInv(s: State, oldId: nat)
    requires Inv(s)
    ensures Inv(StepOver(s, oldId)) && StepOver(s, oldId).cursors.Keys == s.cursors.Keys
  {
    hide TotalWeight, NumKeyed, DistinctKeys, FirstKeyed, ClosedAtEnd, SteppedOver;
    forall i | 0 <= i < |s.chks| ensures |s.chks[i].items| >= 1 {
      assert ChkInv(s.chks[i]);
    }
    forall n | n in s.cursors ensures CursorOk(s.chks, SteppedOver(s.chks, s.cursors[n], oldId)) {
      SteppedOverOk(s.chks, s.cursors[n], oldId);
    }
  }

  lemma {:induction false} OpenIfDueKeepsInv(s: State, env: Env)
    requires Inv(s)
    ensures Inv(OpenIfDue(s, env).0)
  {
    hide ListInv, CursorsInv, TotalWeight, CheckOpen, HighMemCreation, CreatesCheckpoints, StepOver;
    assert |s.chks| >= 1 by { ListNonEmpty(s.chks); }
    var force := HighMemCreation(s, env);
    CheckOpenKeepsInv(s, force, env);
    StepOverKeepsInv(CheckOpen(s, force, env).0, CheckOpen(s, force, env).1);
  }

  lemma {:induction false} ListNonEmpty(chks: seq<Chk>)
    requires ListInv(chks)
    ensures |chks| >= 1
  {
  }

  lemma {:induction false} RemoveClosedUnrefKeepsInv(s: State, env: Env)
    requires Inv(s)
    ensures Inv(RemoveClosedUnref(s, env).0)
  {
    hide ChkInv, CursorsInv, TotalWeight, ClosedAtEnd, NumKeyed, OpenIfDue, CollapseClosed, LeadingUnref, Decr;
    var s1 := OpenIfDue(s, env).0;
    OpenIfDueKeepsInv(s, env);
    var r := if env.keepClosed && LeadingUnref(s1, 0) > 1 then 1 else LeadingUnref(s1, 0);
    DropFrontKeepsInv(s1, r);
    CollapseClosedKeepsInv(DropFront(s1, r));
  }

  /** A reopened checkpoint is well formed: at worst a stray end entry stays in front of the mutations. */
  lemma {:induction false} ReopenKeepsChk(c: Chk)
    requires ChkInv(c)
    ensures ChkInv(Reopen(c)) && Reopen(c).open
    ensures NumKeyed(Reopen(c).items) == NumKeyed(c.items)
    ensures |Reopen(c).items| == |c.items| - if !c.open && c.items[|c.items| - 1].op == OpCheckpointEnd then 1 else 0
  {
    hide NumKeyed, FirstKeyed, DistinctKeys;
    var l := |c.items| - 1;
    if !c.open && c.items[l].op == OpCheckpointEnd {
      assert c.items == c.items[..l] + [c.items[l]];
      NumKeyedSnoc(c.items[..l], c.items[l]);
      PrefixFacts(c.items, l);
    }
  }

  lemma {:induction false} PrefixFacts(items: seq<Item>, l: nat)
    requires l <= |items| && DistinctKeys(items)
    ensures FirstKeyed(items[..l]) == if FirstKeyed(items) > l then l else FirstKeyed(items)
    ensures DistinctKeys(items[..l])
  {
    hide FirstKeyed;
    assert forall i :: 0 <= i < l ==> items[..l][i] == items[i];
    var g := FirstKeyed(items[..l]);
    assert g < l ==> Keyed(items[g]);
  }

  lemma {:induction false} RollbackKeepsInv(s: State, id: nat)
    requires Inv(s)
    ensures Inv(Rollback(s, id))
    ensures |Rollback(s, id).chks| == 1
  {
    RollbackChk(s, id);
  }

  /** The single checkpoint a rollback leaves. */
  function RolledBack(s: State, id: nat): Chk
    requires |s.chks| >= 1
  {
    var last := |s.chks| - 1;
    var c := Reopen(s.chks[last].(items := MergeAll(s.chks[..last], s.chks[last].items)));
    if |c.items| >= 2 then c.(id := id, items := c.items[1 := StartItem(id)]) else c
  }

  lemma {:induction false} RollbackChk(s: State, id: nat)
    requires Inv(s)
    ensures Rollback(s, id).chks == [RolledBack(s, id)]
    ensures ChkInv(RolledBack(s, id)) && RolledBack(s, id).open && RolledBack(s, id).id == id
    ensures Rollback(s, id).numItems == Weight(RolledBack(s, id)) == TotalWeight([RolledBack(s, id)])
  {
    hide NumKeyed, DistinctKeys, FirstKeyed, TotalWeight, MergeAll, CursorsInv;
    var last := |s.chks| - 1;
    var m := s.chks[last].(items := MergeAll(s.chks[..last], s.chks[last].items));
    var s1 := CollapseInto(s, last);
    assert s1.chks == [m];
    assert ChkInv(m) && s1.numItems == Weight(m) by {
      CollapseIntoWeights(s, last);
      Single(m);
    }
    var c := Reopen(m);
    assert ChkInv(c) && c.open && Weight(c) == Weight(m) - (if m.open then 0 else 1) by { ReopenKeepsChk(m); }
    RelabelledChk(c, id);
    Single(RolledBack(s, id));
    assert SetOpenId(s1.(chks := [c]), id).chks == [RolledBack(s, id)];
  }

  lemma {:induction false} CheckAndAddKeepsInv(s: State, id: nat)
    requires Inv(s)
    ensures Inv(CheckAndAdd(s, id).0)
  {
    if id == 0 {
    } else if Back(s).id == 0 {
      assert |s.chks| == 1;
      SetOpenIdKeepsInv(s, id);
    } else if forall i | 0 <= i < |s.chks| :: s.chks[i].id < id {
      AddNewKeepsInv(s, id);
    } else {
      RollbackKeepsInv(s, id);
    }
  }
}
