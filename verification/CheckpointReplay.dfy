/** How each operation changes what is ahead of a cursor, and what replaying the log yields. */
module CheckpointReplay {
  import opened Options
  import opened QueuedItems
  import opened CheckpointLog
  import opened CheckpointFacts

  // ---------------------------------------------------------------- replay of one list

  lemma {:induction false} ReplaySnoc(log: seq<Item>, it: Item, k: Key)
    ensures Replay(log + [it], k) == if it.key == k then Some(ChangeOf(it)) else Replay(log, k)
  {
    assert (log + [it])[..|log|] == log;
  }

  lemma {:induction false} ReplayWithout(items: seq<Item>, i: nat, k: Key)
    requires i < |items| && items[i].key != k
    ensures Replay(Without(items, i), k) == Replay(items, k)
  {
    assert items == items[..i] + [items[i]] + items[i + 1..];
    ReplayConcat(items[..i] + [items[i]], items[i + 1..], k);
    ReplaySnoc(items[..i], items[i], k);
    ReplayConcat(items[..i], items[i + 1..], k);
  }

  /** A mutation replaces what its key meant and nothing else. */
  lemma {:induction false} ReplayRequeue(items: seq<Item>, it: Item, k: Key)
    ensures Replay(Requeue(items, it), k) == if it.key == k then Some(ChangeOf(it)) else Replay(items, k)
  {
    var at := FindKey(items, it.key);
    if at < |items| {
      ReplaySnoc(Without(items, at), it.(queuedTime := items[at].queuedTime), k);
      if it.key != k {
        ReplayWithout(items, at, k);
      }
    } else {
      ReplaySnoc(items, it, k);
    }
  }

  lemma {:induction false} ReplayKeyless(items: seq<Item>, k: Key)
    requires k != "" && forall i :: 0 <= i < |items| ==> !Keyed(items[i])
    ensures Replay(items, k) == None
  {
    ReplayDefined(items, k);
  }

  lemma {:induction false} ReplayTail(c: Chk, k: Key)
    requires ChkInv(c) && k != ""
    ensures Replay(Tail(c), k) == Replay(c.items, k)
  {
    assert c.items == [c.items[0]] + Tail(c);
    ReplayConcat([c.items[0]], Tail(c), k);
    ReplayKeyless([c.items[0]], k);
  }

  // ---------------------------------------------------------------- replay of a merge

  lemma {:induction false} ReplayMissing(prev: seq<Item>, cur: seq<Item>, k: Key)
    requires k != ""
    ensures Replay(Missing(prev, cur), k) == if FindKey(cur, k) == |cur| then Replay(prev, k) else None
  {
    if prev != [] {
      var rest := prev[1..];
      ReplayMissing(rest, cur, k);
      assert prev == [prev[0]] + rest;
      ReplayConcat([prev[0]], rest, k);
      ReplaySnoc([], prev[0], k);
      assert [] + [prev[0]] == [prev[0]];
      if Keyed(prev[0]) && FindKey(cur, prev[0].key) == |cur| {
        ReplayConcat([prev[0]], Missing(rest, cur), k);
      }
    }
  }

  /** Merging preserves meaning: the result replays like the older list followed by the newer one. */
  lemma {:induction false} ReplayMerge(prev: seq<Item>, cur: seq<Item>, k: Key)
    requires k != ""
    ensures Replay(Merge(prev, cur), k) == Replay(prev + cur, k)
  {
    var f, m := FirstKeyed(cur), Missing(prev, cur);
    ReplayConcat(prev, cur, k);
    ReplayDefined(cur, k);
    ReplayMissing(prev, cur, k);
    assert cur == cur[..f] + cur[f..];
    ReplayConcat(cur[..f], cur[f..], k);
    ReplayKeyless(cur[..f], k);
    ReplayConcat(cur[..f] + m, cur[f..], k);
    ReplayConcat(cur[..f], m, k);
  }

  lemma {:induction false} ReplayMergeAll(chks: seq<Chk>, c: Chk, k: Key)
    requires k != "" && ChkInv(c)
    requires forall i :: 0 <= i < |chks| ==> ChkInv(chks[i]) && !chks[i].open
    ensures Replay(MergeAll(chks, c.items), k) == Replay(Flat(chks) + c.items, k)
    decreases |chks|
  {
    hide ChkInv, Merge, NumKeyed;
    if chks == [] {
      assert [] + c.items == c.items;
    } else {
      var l := |chks| - 1;
      var p := chks[l];
      var c' := c.(items := Merge(p.items, c.items));
      ChkParts(p);
      MergeKeepsChk(p.items, c);
      ReplayMergeAll(chks[..l], c', k);
      assert Flat(chks) == Flat(chks[..l]) + Tail(p) by {
        assert chks == chks[..l] + [p];
        FlatConcat(chks[..l], [p]);
        Single(p);
      }
      ReplayMerge(p.items, c.items, k);
      ReplayConcat(p.items, c.items, k);
      ReplayTail(p, k);
      ReplayConcat(Flat(chks[..l]), c'.items, k);
      ReplayConcat(Flat(chks), c.items, k);
      ReplayConcat(Flat(chks[..l]), Tail(p), k);
    }
  }

  lemma {:induction false} ChkParts(c: Chk)
    requires ChkInv(c)
    ensures DistinctKeys(c.items) && MutationsOnly(c.items)
  {
  }

  // ---------------------------------------------------------------- what is ahead of a cursor

  /** A cursor's part of the log splits into what lies before the newest checkpoint and what lies in it. */
  function BeforeBack(s: State, n: string): seq<Item>
    requires n in s.cursors && CursorOk(s.chks, s.cursors[n])
  {
    var c, last := s.cursors[n], |s.chks| - 1;
    if c.chk == last then [] else s.chks[c.chk].items[c.pos + 1..] + Flat(s.chks[c.chk + 1..last])
  }

  function PosInBack(s: State, n: string): nat
    requires n in s.cursors && CursorOk(s.chks, s.cursors[n])
  {
    if s.cursors[n].chk == |s.chks| - 1 then s.cursors[n].pos else 0
  }

  lemma {:induction false} RemainingSplit(s: State, n: string)
    requires n in s.cursors && CursorOk(s.chks, s.cursors[n]) && |Back(s).items| >= 1
    ensures Remaining(s, n) == BeforeBack(s, n) + Back(s).items[PosInBack(s, n) + 1..]
  {
    var c, last := s.cursors[n], |s.chks| - 1;
    if c.chk == last {
      assert s.chks[c.chk + 1..] == [];
    } else {
      var rest := s.chks[c.chk + 1..];
      assert rest == s.chks[c.chk + 1..last] + [Back(s)];
      FlatConcat(s.chks[c.chk + 1..last], [Back(s)]);
      Single(Back(s));
    }
  }

  lemma {:induction false} AheadSplit(chks: seq<Chk>, ci: nat, pos: nat)
    requires ci < |chks| && pos < |chks[ci].items|
    ensures Flat(chks) == Flat(chks[..ci]) + chks[ci].items[1..pos + 1] + Ahead(chks, ci, pos)
  {
    var items := chks[ci].items;
    SplitAt(chks, ci);
    FlatHead(chks, ci);
    var before, mid, tail, rest := Flat(chks[..ci]), items[1..pos + 1], items[pos + 1..], Flat(chks[ci + 1..]);
    assert Tail(chks[ci]) == mid + tail;
    hide Flat;
    ConcatAssociative(mid, tail, rest);
    ConcatAssociative(before, mid, tail + rest);
  }

  lemma {:induction false} FlatHead(chks: seq<Chk>, ci: nat)
    requires ci < |chks|
    ensures Flat(chks[ci..]) == Tail(chks[ci]) + Flat(chks[ci + 1..])
  {
    assert chks[ci..][0] == chks[ci];
    assert chks[ci..][1..] == chks[ci + 1..];
  }

  lemma {:induction false} AheadAdvance(chks: seq<Chk>, ci: nat, pos: nat)
    requires ci < |chks| && pos + 1 < |chks[ci].items|
    ensures Ahead(chks, ci, pos) == [chks[ci].items[pos + 1]] + Ahead(chks, ci, pos + 1)
  {
    var items := chks[ci].items;
    assert items[pos + 1..] == [items[pos + 1]] + items[pos + 2..];
  }

  lemma {:induction false} AheadMove(chks: seq<Chk>, ci: nat)
    requires ci + 1 < |chks| && |chks[ci].items| >= 1 && |chks[ci + 1].items| >= 1
    ensures Ahead(chks, ci, |chks[ci].items| - 1) == Ahead(chks, ci + 1, 0)
  {
    var rest := chks[ci + 1..];
    assert rest[0] == chks[ci + 1] && rest[1..] == chks[ci + 2..];
  }

  /** What is ahead of a cursor is a suffix of the log, so it never contradicts it. */
  lemma {:induction false} RemainingIsSuffix(s: State, n: string, k: Key)
    requires Inv(s) && n in s.cursors
    ensures CursorOk(s.chks, s.cursors[n])
    ensures Replay(Remaining(s, n), k).Some? ==> Replay(Flat(s.chks), k) == Replay(Remaining(s, n), k)
  {
    hide ListInv, CursorsInv, TotalWeight, Replay;
    CursorsParts(s.chks, s.cursors, n);
    var c := s.cursors[n];
    AheadSplit(s.chks, c.chk, c.pos);
    ReplayConcat(Flat(s.chks[..c.chk]) + s.chks[c.chk].items[1..c.pos + 1], Remaining(s, n), k);
  }

  /** The entry a cursor is owed for a requeued key: none if it had passed the old entry. */
  function RemainingAfter(s: State, n: string, it: Item): seq<Item>
    requires n in s.cursors && CursorOk(s.chks, s.cursors[n])
    requires |s.chks| >= 1
  {
    var items, p := Back(s).items, PosInBack(s, n);
    var at := FindKey(items, it.key);
    if p < at < |items| then BeforeBack(s, n) + items[p + 1..at] + items[at + 1..] else Remaining(s, n)
  }

  lemma {:induction false} EnqueueInBack(items: seq<Item>, it: Item, p: nat)
    requires p < |items| && FindKey(items, it.key) > 0
    ensures var at := FindKey(items, it.key);
            var it' := if at < |items| then it.(queuedTime := items[at].queuedTime) else it;
            var p' := if at < |items| && at <= p then p - 1 else p;
            Requeue(items, it)[p' + 1..]
            == (if p < at < |items| then items[p + 1..at] + items[at + 1..] else items[p + 1..]) + [it']
  {
    hide FindKey;
    var at := FindKey(items, it.key);
    if at < |items| {
      hide Without;
      DropWithout(items, at, p);
      WithoutSize(items, at);
      DropSnoc(Without(items, at), it.(queuedTime := items[at].queuedTime), if at <= p then p else p + 1);
    } else {
      DropSnoc(items, it, p + 1);
    }
  }

  lemma {:induction false} WithoutSize<T>(s: seq<T>, at: nat)
    requires at < |s|
    ensures |Without(s, at)| == |s| - 1
  {
  }

  /**
   Deduplication is invisible to cursors: what a cursor has ahead loses the old entry for the
   key, if it was still ahead, and gains the new entry at the end.
   */
  lemma {:induction false} EnqueueRemaining(s: State, it: Item, n: string)
    requires Inv(s) && Keyed(it) && n in s.cursors
    ensures CursorOk(s.chks, s.cursors[n])
    ensures CursorOk(Enqueue(s, it).chks, Enqueue(s, it).cursors[n])
    ensures var items := Back(s).items;
            var at := FindKey(items, it.key);
            Remaining(Enqueue(s, it), n)
            == RemainingAfter(s, n, it)
               + [if at < |items| then it.(queuedTime := items[at].queuedTime) else it]
  {
    hide ListInv, TotalWeight, CursorsInv, NumKeyed, Requeue, Flat, FindKey, Enqueue, BeforeBack, PosInBack, Remaining, Inv;
    BackParts(s, it.key, n);
    var s', items := Enqueue(s, it), Back(s).items;
    EnqueueKeepsCursors(s, it);
    EnqueueParts(s, it, n);
    CursorsParts(s'.chks, s'.cursors, n);
    RemainingSplit(s, n);
    RemainingSplit(s', n);
    var p, bb, at := PosInBack(s, n), BeforeBack(s, n), FindKey(items, it.key);
    EnqueueInBack(items, it, p);
    EnqueueBeforeBack(s, it, n);
    var kept := if p < at < |items| then items[p + 1..at] + items[at + 1..] else items[p + 1..];
    var it' := if at < |items| then it.(queuedTime := items[at].queuedTime) else it;
    assert RemainingAfter(s, n, it) == bb + kept by {
      if p < at < |items| {
        ConcatAssociative(bb, items[p + 1..at], items[at + 1..]);
      }
    }
    ConcatAssociative(bb, kept, [it']);
  }

  /** The newest list and a cursor's place in it after queueing. */
  lemma {:induction false} EnqueueParts(s: State, it: Item, n: string)
    requires |s.chks| >= 1 && n in s.cursors && CursorOk(s.chks, s.cursors[n])
    requires |Back(s).items| >= 2 && FindKey(Back(s).items, it.key) >= 2
    ensures var s', items := Enqueue(s, it), Back(s).items;
            var at, p := FindKey(items, it.key), PosInBack(s, n);
            && |s'.chks| == |s.chks| && Back(s').items == Requeue(items, it) && n in s'.cursors
            && p < |items| && PosInBack(s', n) == if at < |items| && at <= p then p - 1 else p
  {
    hide Requeue, FindKey;
  }

  lemma {:induction false} EnqueueBeforeBack(s: State, it: Item, n: string)
    requires |s.chks| >= 1 && n in s.cursors && CursorOk(s.chks, s.cursors[n])
    requires CursorOk(Enqueue(s, it).chks, Enqueue(s, it).cursors[n])
    ensures BeforeBack(Enqueue(s, it), n) == BeforeBack(s, n)
  {
    hide Requeue;
    var s' := Enqueue(s, it);
    var c, last := s.cursors[n], |s.chks| - 1;
    if c.chk != last {
      assert s'.cursors[n] == c;
      assert s'.chks[c.chk + 1..last] == s.chks[c.chk + 1..last];
    }
  }

  lemma {:induction false} CursorsParts(chks: seq<Chk>, cursors: map<string, Cursor>, n: string)
    requires CursorsInv(chks, cursors) && n in cursors
    ensures CursorOk(chks, cursors[n])
  {
  }

  lemma {:induction false} BackParts(s: State, k: Key, n: string)
    requires Inv(s) && k != "" && n in s.cursors
    ensures |s.chks| >= 1 && |Back(s).items| >= 2 && FindKey(Back(s).items, k) >= 2
    ensures CursorOk(s.chks, s.cursors[n])
  {
    assert ChkInv(Back(s));
  }

  /** The next entry, if there is one, lies in the open checkpoint. */
  predicate NextIsOpen(s: State, c: Cursor)
    requires CursorOk(s.chks, c)
  {
    || s.chks[c.chk].open
    || (c.pos + 1 == |s.chks[c.chk].items| && c.chk + 1 < |s.chks| && s.chks[c.chk + 1].open)
  }

  /**
   When a fetch of one entry hands out nothing: nothing is ahead, or the newest checkpoint is that
   of a backfill, or the cursor takes closed checkpoints only and the next entry is in the open one.
   */
  predicate Waits(s: State, n: string)
    requires |s.chks| >= 1 && n in s.cursors && CursorOk(s.chks, s.cursors[n])
  {
    || Remaining(s, n) == []
    || Back(s).id == 0
    || (s.cursors[n].closedOnly && NextIsOpen(s, s.cursors[n]))
  }

  /** A fetch of one entry hands out the first entry ahead exactly when it need not wait. */
  lemma {:induction false} NextRemaining(s: State, n: string)
    requires Inv(s) && n in s.cursors
    ensures CursorOk(s.chks, s.cursors[n]) && n in Next(s, n).0.cursors && |s.chks| >= 1
    ensures CursorOk(Next(s, n).0.chks, Next(s, n).0.cursors[n])
    ensures var (s', it, last) := Next(s, n);
            if Waits(s, n) then it == DummyItem() && !last && Remaining(s, n) == Remaining(s', n)
            else Remaining(s, n) == [it] + Remaining(s', n)
  {
    hide ListInv, CursorsInv, TotalWeight, NumKeyed, LastMutationAt, Ahead;
    AllLong(s.chks);
    NextMovesCursor(s, n);
    CursorsParts(s.chks, s.cursors, n);
    var c := s.cursors[n];
    if c.pos + 1 < |s.chks[c.chk].items| {
      AheadAdvance(s.chks, c.chk, c.pos);
    } else if c.chk + 1 < |s.chks| {
      assert |s.chks[c.chk + 1].items| >= 2 by { ListParts(s.chks, c.chk + 1); }
      AheadMove(s.chks, c.chk);
      AheadAdvance(s.chks, c.chk + 1, 0);
    } else {
      LastAhead(s.chks);
    }
    ListParts(s.chks, c.chk);
  }

  lemma {:induction false} LastAhead(chks: seq<Chk>)
    requires |chks| >= 1 && |chks[|chks| - 1].items| >= 1
    ensures Ahead(chks, |chks| - 1, |chks[|chks| - 1].items| - 1) == []
  {
    assert chks[|chks|..] == [];
  }

  lemma {:induction false} ListParts(chks: seq<Chk>, i: nat)
    requires ListInv(chks) && i < |chks|
    ensures ChkInv(chks[i]) && |chks[i].items| >= 2
    ensures i < |chks| - 1 ==> !chks[i].open
  {
  }

  lemma {:induction false} FetchRemaining(s: State, n: string)
    requires Inv(s) && n in s.cursors
    ensures CursorOk(s.chks, s.cursors[n]) && |Back(s).items| >= 1
    ensures Inv(Fetch(s, n).0)
    ensures Fetch(s, n).1 == Remaining(s, n)
    ensures Remaining(Fetch(s, n).0, n) == []
  {
    hide TotalWeight, ListInv, Flat;
    AllLong(s.chks);
    assert CursorOk(s.chks, s.cursors[n]);
    assert s.chks[|s.chks|..] == [];
    NothingFlat();
  }

  lemma {:induction false} NothingFlat()
    ensures Flat([]) == []
  {
  }
}
