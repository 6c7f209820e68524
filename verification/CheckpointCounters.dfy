/**
 What the fast counters are worth. `numItems` and the cursor offsets are meant to be the
 number of entries in the log and the number of entries a cursor has passed. This module
 proves exactly which operations keep them so.
 */
module CheckpointCounters {
  import opened QueuedItems
  import opened CheckpointLog
  import opened CheckpointFacts
  import opened CheckpointReplay
  import opened CheckpointRuns

  /** Number of entries, dummies excluded, at or before a position. */
  function Passed(chks: seq<Chk>, c: Cursor): nat
    requires c.chk <= |chks|
  {
    |Flat(chks[..c.chk])| + c.pos
  }

  ghost predicate Exact(s: State) {
    && CursorsInv(s.chks, s.cursors)
    && s.numItems == |Flat(s.chks)|
    && forall n :: n in s.cursors ==> ExactCursor(s.chks, s.cursors[n])
  }

  ghost predicate ExactCursor(chks: seq<Chk>, c: Cursor) {
    c.chk <= |chks| && c.offset == Passed(chks, c)
  }

  /** A checkpoint without a stray end entry. */
  predicate Plain(c: Chk) {
    |c.items| == Weight(c) + 1
  }

  // ---------------------------------------------------------------- stray entries

  lemma {:induction false} FlatAtLeastWeight(chks: seq<Chk>)
    requires forall i :: 0 <= i < |chks| ==> ChkInv(chks[i])
    ensures |Flat(chks)| >= TotalWeight(chks)
    ensures |Flat(chks)| == TotalWeight(chks) <==> forall i :: 0 <= i < |chks| ==> Plain(chks[i])
    decreases |chks|
  {
    hide NumKeyed, DistinctKeys, FirstKeyed;
    if chks != [] {
      FlatAtLeastWeight(chks[1..]);
      assert ChkInv(chks[0]);
      assert forall i :: 0 <= i < |chks| - 1 ==> chks[1..][i] == chks[i + 1];
      assert (forall i :: 0 <= i < |chks| ==> Plain(chks[i]))
        <==> Plain(chks[0]) && (forall i :: 0 <= i < |chks| - 1 ==> Plain(chks[1..][i])) by {
        forall i | 0 <= i < |chks| && Plain(chks[0]) && (forall j :: 0 <= j < |chks| - 1 ==> Plain(chks[1..][j]))
          ensures Plain(chks[i])
        {
          assert i > 0 ==> Plain(chks[1..][i - 1]);
        }
        forall i | 0 <= i < |chks| - 1 && (forall j :: 0 <= j < |chks| ==> Plain(chks[j]))
          ensures Plain(chks[1..][i])
        {
          assert Plain(chks[i + 1]);
        }
      }
    }
  }

  /** The total is exact precisely when no checkpoint holds a stray end entry. */
  lemma {:induction false} TotalExact(s: State)
    requires Inv(s)
    ensures s.numItems == |Flat(s.chks)| <==> forall i :: 0 <= i < |s.chks| ==> Plain(s.chks[i])
  {
    hide ChkInv, CursorsInv, TotalWeight, Plain;
    FlatAtLeastWeight(s.chks);
  }

  lemma {:induction false} PrefixExact(s: State, i: nat)
    requires Inv(s) && s.numItems == |Flat(s.chks)| && i <= |s.chks|
    ensures TotalWeight(s.chks[..i]) == |Flat(s.chks[..i])|
    ensures TotalWeight(s.chks[i..]) == |Flat(s.chks[i..])|
  {
    hide ChkInv, CursorsInv, TotalWeight, Plain, Flat;
    SplitAt(s.chks, i);
    FlatAtLeastWeight(s.chks[..i]);
    FlatAtLeastWeight(s.chks[i..]);
  }

  /** With exact counters, the distance to the end is what the cursor still has ahead. */
  lemma {:induction false} ExactRemaining(s: State, n: string)
    requires Inv(s) && Exact(s) && n in s.cursors
    ensures CursorOk(s.chks, s.cursors[n])
    ensures |Remaining(s, n)| == s.numItems - s.cursors[n].offset
  {
    hide ListInv, CursorsInv, TotalWeight, Flat;
    CursorsParts(s.chks, s.cursors, n);
    AheadSplit(s.chks, s.cursors[n].chk, s.cursors[n].pos);
    assert ExactCursor(s.chks, s.cursors[n]);
  }

  /** The advertised backlog is the number of entries the next fetch for persistence returns. */
  lemma {:induction false} BacklogIsNextFetch(s: State)
    requires Inv(s) && Exact(s)
    ensures PERSISTENCE in s.cursors
    ensures Backlog(s) == |Fetch(s, PERSISTENCE).1|
  {
    hide ChkInv, TotalWeight;
    ExactRemaining(s, PERSISTENCE);
  }

  // ---------------------------------------------------------------- operations on the newest checkpoint

  lemma {:induction false} SameBeforeBack(s: State, s': State)
    requires |s.chks| >= 1 && |s'.chks| >= |s.chks|
    requires s'.chks[..|s.chks| - 1] == s.chks[..|s.chks| - 1]
    ensures forall i :: 0 <= i < |s.chks| ==> s'.chks[..i] == s.chks[..i]
  {
    forall i | 0 <= i < |s.chks| ensures s'.chks[..i] == s.chks[..i] {
      assert s'.chks[..i] == s'.chks[..|s.chks| - 1][..i];
      assert s.chks[..i] == s.chks[..|s.chks| - 1][..i];
    }
  }

  lemma {:induction false} EnqueueExact(s: State, it: Item)
    requires Inv(s) && Back(s).open && Mutates(it) && Exact(s)
    ensures Exact(Enqueue(s, it))
  {
    hide ListInv, TotalWeight, NumKeyed, Flat, CursorOk;
    BackParts(s, it.key, PERSISTENCE);
    var s' := Enqueue(s, it);
    EnqueueKeepsCursors(s, it);
    SplitBack(s);
    SplitBack(s');
    assert s'.chks[..|s.chks| - 1] == s.chks[..|s.chks| - 1];
    SameBeforeBack(s, s');
    forall n | n in s'.cursors ensures ExactCursor(s'.chks, s'.cursors[n]) {
      assert ExactCursor(s.chks, s.cursors[n]);
      CursorsParts(s.chks, s.cursors, n);
      assert CursorOk(s.chks, s.cursors[n]) ==> s.cursors[n].chk < |s.chks| by { CursorInside(s.chks, s.cursors[n]); }
    }
  }

  lemma {:induction false} GrowExact(s: State, s': State)
    requires Inv(s) && Inv(s') && Exact(s)
    requires |s'.chks| >= |s.chks| && s'.cursors == s.cursors
    requires s'.chks[..|s.chks| - 1] == s.chks[..|s.chks| - 1]
    requires s'.numItems - s.numItems == |Flat(s'.chks)| - |Flat(s.chks)|
    ensures Exact(s')
  {
    hide ChkInv, TotalWeight, NumKeyed, Flat;
    SameBeforeBack(s, s');
    forall n | n in s'.cursors ensures ExactCursor(s'.chks, s'.cursors[n]) {
      assert ExactCursor(s.chks, s.cursors[n]);
      assert CursorOk(s.chks, s.cursors[n]);
    }
  }

  lemma {:induction false} CloseExact(s: State, id: nat)
    requires Inv(s) && Exact(s)
    ensures Exact(CloseOpen(s, id))
  {
    hide ChkInv, CursorsInv, TotalWeight, NumKeyed, Flat, Exact;
    CloseKeepsInv(s, id);
    var s' := CloseOpen(s, id);
    ListParts(s.chks, |s.chks| - 1);
    SplitBack(s);
    SplitBack(s');
    assert s'.chks[..|s.chks| - 1] == s.chks[..|s.chks| - 1];
    ExactTotal(s);
    GrowExact(s, s');
  }

  lemma {:induction false} ExactTotal(s: State)
    requires Exact(s)
    ensures s.numItems == |Flat(s.chks)|
  {
  }

  lemma {:induction false} AddNewExact(s: State, id: nat)
    requires Inv(s) && Exact(s) && Back(s).id < id
    ensures Exact(AddNew(s, id))
  {
    hide ChkInv, CursorsInv, TotalWeight, NumKeyed, Flat, Exact, CloseOpen;
    AddNewKeepsInv(s, id);
    CloseKeepsInv(s, Back(s).id);
    CloseExact(s, Back(s).id);
    var s1, s' := CloseOpen(s, Back(s).id), AddNew(s, id);
    FlatConcat(s1.chks, [NewChk(id)]);
    Single(NewChk(id));
    assert s'.chks[..|s1.chks| - 1] == s1.chks[..|s1.chks| - 1];
    GrowExact(s1, s');
  }

  lemma {:induction false} RelabelExact(s: State, id: nat)
    requires Inv(s) && Exact(s)
    requires |s.chks| > 1 ==> s.chks[|s.chks| - 2].id < id
    ensures Exact(SetOpenId(s, id))
  {
    hide ChkInv, CursorsInv, TotalWeight, NumKeyed, Flat, Exact;
    ListParts(s.chks, |s.chks| - 1);
    SetOpenIdKeepsInv(s, id);
    var s' := SetOpenId(s, id);
    SplitBack(s);
    SplitBack(s');
    assert s'.chks[..|s.chks| - 1] == s.chks[..|s.chks| - 1];
    GrowExact(s, s');
  }

  lemma {:induction false} CheckOpenExact(s: State, force: bool, env: Env)
    requires Inv(s) && Exact(s)
    ensures Exact(CheckOpen(s, force, env).0)
  {
    hide ChkInv, CursorsInv, TotalWeight, NumKeyed, CloseOpen, AddNew, Exact;
    var b := Back(s);
    CloseKeepsInv(s, b.id);
    CloseExact(s, b.id);
    AddNewExact(CloseOpen(s, b.id), b.id + 1);
  }

  lemma {:induction false} QueueExact(s: State, it: Item, env: Env)
    requires Inv(s) && Exact(s) && Enabled(s, Queue(it, env))
    ensures Exact(QueueDirty(s, it, env).0)
  {
    hide ChkInv, TotalWeight, NumKeyed, Exact, CheckOpen, Enqueue, CreatesCheckpoints;
    if Accepts(s, env) {
      EnqueueKeepsInv(s, it);
      EnqueueExact(s, it);
      CheckOpenExact(Enqueue(s, it), false, env);
    }
  }

  /** With exact counters, queueing reports growth exactly when the persistence cursor has one more entry ahead. */
  lemma {:induction false} QueueReportsGrowth(s: State, it: Item, env: Env)
    requires Inv(s) && Exact(s) && Enabled(s, Queue(it, env)) && Accepts(s, env)
    ensures CursorOk(s.chks, s.cursors[PERSISTENCE])
    ensures CursorOk(Enqueue(s, it).chks, Enqueue(s, it).cursors[PERSISTENCE])
    ensures var d := |Remaining(Enqueue(s, it), PERSISTENCE)| - |Remaining(s, PERSISTENCE)|;
            QueueDirty(s, it, env).1 == (d == 1) && (d == 0 || d == 1)
  {
    hide ListInv, TotalWeight, NumKeyed, CheckOpen, CreatesCheckpoints, Flat;
    EnqueueKeepsInv(s, it);
    EnqueueExact(s, it);
    var s' := Enqueue(s, it);
    ExactRemaining(s, PERSISTENCE);
    ExactRemaining(s', PERSISTENCE);
    BackParts(s, it.key, PERSISTENCE);
    assert 0 <= s.cursors[PERSISTENCE].pos <= s.cursors[PERSISTENCE].offset by {
      assert ExactCursor(s.chks, s.cursors[PERSISTENCE]);
    }
  }

  // ---------------------------------------------------------------- cursors

  lemma {:induction false} FetchExact(s: State, n: string)
    requires Inv(s) && Exact(s)
    ensures Exact(Fetch(s, n).0)
  {
    hide TotalWeight, ListInv, Flat, ExactCursor, CursorsInv;
    if n in s.cursors {
      FetchRemaining(s, n);
      var s' := Fetch(s, n).0;
      FetchedExact(s, n);
      forall m | m in s'.cursors ensures ExactCursor(s'.chks, s'.cursors[m]) {
        assert m != n ==> ExactCursor(s.chks, s.cursors[m]);
      }
    }
  }

  lemma {:induction false} FetchedExact(s: State, n: string)
    requires Inv(s) && n in s.cursors && s.numItems == |Flat(s.chks)|
    ensures ExactCursor(s.chks, Fetch(s, n).0.cursors[n])
  {
    hide TotalWeight, ListInv, Flat, CursorsInv;
    AllLong(s.chks);
    SplitBack(s);
  }

  lemma {:induction false} PassedMove(chks: seq<Chk>, i: nat)
    requires i < |chks| && |chks[i].items| >= 1
    ensures |Flat(chks[..i + 1])| == |Flat(chks[..i])| + |chks[i].items| - 1
  {
    assert chks[..i + 1] == chks[..i] + [chks[i]];
    FlatConcat(chks[..i], [chks[i]]);
    Single(chks[i]);
  }

  lemma {:induction false} NextExactCursor(s: State, n: string)
    requires Inv(s) && Exact(s) && n in s.cursors
    ensures n in Next(s, n).0.cursors && ExactCursor(s.chks, Next(s, n).0.cursors[n])
  {
    hide TotalWeight, NumKeyed, Flat, DistinctKeys, FirstKeyed, ClosedAtEnd, LastMutationAt;
    var c := s.cursors[n];
    assert ExactCursor(s.chks, c);
    assert CursorOk(s.chks, c);
    ListParts(s.chks, c.chk);
    PassedMove(s.chks, c.chk);
  }

  lemma {:induction false} NextExact(s: State, n: string)
    requires Inv(s) && Exact(s)
    ensures Exact(Next(s, n).0)
  {
    hide ChkInv, CursorOk, TotalWeight, NumKeyed, Flat, NextFromClosed, NextFromOpen;
    NextKeepsInv(s, n);
    if n in s.cursors {
      NextMovesCursor(s, n);
      NextExactCursor(s, n);
      var s' := Next(s, n).0;
      forall m | m in s'.cursors ensures ExactCursor(s'.chks, s'.cursors[m]) {
        assert m != n ==> ExactCursor(s.chks, s.cursors[m]);
      }
    }
  }

  lemma {:induction false} StepBackExact(s: State, n: string)
    requires Inv(s) && Exact(s)
    ensures Exact(DecrFromEnd(s, n))
  {
    hide ChkInv, TotalWeight, NumKeyed, Flat;
    StepBackKeepsInv(s, n);
    var s' := DecrFromEnd(s, n);
    forall m | m in s'.cursors ensures ExactCursor(s'.chks, s'.cursors[m]) {
      assert ExactCursor(s.chks, s.cursors[m]);
    }
  }

  lemma {:induction false} RegisteredCursorExact(s: State, n: string, id: nat, closedOnly: bool, fromBeginning: bool)
    requires Inv(s) && Exact(s)
    ensures var s' := Register(s, n, id, closedOnly, fromBeginning).0;
            n in s'.cursors
            && (ExactCursor(s.chks, s'.cursors[n]) <==> FindChk(s.chks, id) < |s.chks| || Back(s).open)
  {
    hide ChkInv, TotalWeight, NumKeyed, Flat;
    var i, last := FindChk(s.chks, id), |s.chks| - 1;
    assert n in s.cursors ==> ExactCursor(s.chks, s.cursors[n]);
    if i < |s.chks| {
      PrefixExact(s, i);
    } else {
      PrefixExact(s, last);
      SplitBack(s);
      ListParts(s.chks, last);
    }
  }

  /** Registering at a checkpoint that is gone is exact only while the newest checkpoint is open. */
  lemma {:induction false} RegisterExact(s: State, n: string, id: nat, closedOnly: bool, fromBeginning: bool)
    requires Inv(s) && Exact(s)
    ensures Exact(Register(s, n, id, closedOnly, fromBeginning).0) <==> FindChk(s.chks, id) < |s.chks| || Back(s).open
  {
    hide ChkInv, TotalWeight, NumKeyed, Flat, Passed, CursorOk;
    RegisterKeepsInv(s, n, id, closedOnly, fromBeginning);
    RegisteredCursorExact(s, n, id, closedOnly, fromBeginning);
    var s' := Register(s, n, id, closedOnly, fromBeginning).0;
    forall m | m in s'.cursors && m != n ensures ExactCursor(s'.chks, s'.cursors[m]) {
      assert ExactCursor(s.chks, s.cursors[m]);
    }
  }

  lemma {:induction false} ClearExact(s: State, vbState: VBState)
    requires PERSISTENCE in s.cursors
    ensures Exact(Clear(s, vbState))
  {
    ClearKeepsInv(s, vbState);
    Single(NewChk(if vbState == Active then 1 else 0));
  }

  // ---------------------------------------------------------------- dropping and collapsing

  lemma {:induction false} PrefixMonotone(chks: seq<Chk>, i: nat, j: nat)
    requires i <= j <= |chks|
    ensures |Flat(chks[..j])| == |Flat(chks[..i])| + |Flat(chks[i..j])|
  {
    assert chks[..j] == chks[..i] + chks[i..j];
    FlatConcat(chks[..i], chks[i..j]);
  }

  lemma {:induction false} DropFrontExact(s: State, r: nat)
    requires Inv(s) && Exact(s) && r <= LeadingUnref(s, 0)
    ensures Exact(DropFront(s, r))
  {
    hide ChkInv, CursorOk, TotalWeight, NumKeyed, Flat, LeadingUnref;
    DropFrontKeepsInv(s, r);
    PrefixExact(s, r);
    SplitAt(s.chks, r);
    var s' := DropFront(s, r);
    forall n | n in s'.cursors ensures ExactCursor(s'.chks, s'.cursors[n]) {
      var c := s.cursors[n];
      assert ExactCursor(s.chks, c);
      LeadingUnrefBeforeCursors(s, n);
      assert CursorOk(s.chks, c);
      CursorInside(s.chks, c);
      PrefixMonotone(s.chks, r, c.chk);
      assert s.chks[r..][..c.chk - r] == s.chks[r..c.chk];
    }
  }

  function Added(s: State, lc: nat): int
    requires lc < |s.chks|
  {
    |MergeAll(s.chks[..lc], s.chks[lc].items)| - |s.chks[lc].items|
  }

  /** A cursor standing in front of the place where merged entries are inserted. */
  predicate BeforeMerged(s: State, lc: nat, n: string)
    requires lc < |s.chks| && n in s.cursors
  {
    s.cursors[n].chk == lc && s.cursors[n].pos < FirstKeyed(s.chks[lc].items)
  }

  lemma {:induction false} CollapsedCursorExact(s: State, lc: nat, n: string)
    requires Inv(s) && Exact(s) && lc < |s.chks| - 1 && n in s.cursors
    ensures Added(s, lc) >= 0
    ensures ExactCursor(CollapseInto(s, lc).chks, CollapseInto(s, lc).cursors[n])
            <==> Added(s, lc) == 0 || !BeforeMerged(s, lc, n)
  {
    hide ListInv, TotalWeight, NumKeyed, Flat, MergeAll, FirstKeyed, CollapseInto, ExactCursor, CursorOk;
    CollapseIntoWeights(s, lc);
    PrefixExact(s, lc);
    assert ExactCursor(s.chks, s.cursors[n]);
    assert CursorOk(s.chks, s.cursors[n]);
    if s.cursors[n].chk <= lc {
      EarlyCursorExact(s, lc, n);
    } else {
      ListParts(s.chks, lc);
      LateCursorExact(s, lc, n);
    }
  }

  /** A cursor at or before the checkpoint merged into. */
  lemma {:induction false} EarlyCursorExact(s: State, lc: nat, n: string)
    requires lc < |s.chks| - 1 && n in s.cursors && s.cursors[n].chk <= lc
    requires CursorOk(s.chks, s.cursors[n]) && ExactCursor(s.chks, s.cursors[n]) && Added(s, lc) >= 0
    requires TotalWeight(s.chks[..lc]) == |Flat(s.chks[..lc])| >= Added(s, lc)
    ensures ExactCursor(CollapseInto(s, lc).chks, CollapseInto(s, lc).cursors[n])
            <==> Added(s, lc) == 0 || !BeforeMerged(s, lc, n)
  {
    hide TotalWeight, NumKeyed, Flat, MergeAll, FirstKeyed;
    assert CollapseInto(s, lc).chks[..0] == [];
    NothingFlat();
  }

  /** A cursor after it. */
  lemma {:induction false} LateCursorExact(s: State, lc: nat, n: string)
    requires lc < |s.chks| - 1 && n in s.cursors && s.cursors[n].chk > lc && |s.chks[lc].items| >= 1
    requires CursorOk(s.chks, s.cursors[n]) && ExactCursor(s.chks, s.cursors[n]) && Added(s, lc) >= 0
    requires TotalWeight(s.chks[..lc]) == |Flat(s.chks[..lc])| >= Added(s, lc)
    ensures ExactCursor(CollapseInto(s, lc).chks, CollapseInto(s, lc).cursors[n])
    ensures !BeforeMerged(s, lc, n)
  {
    hide TotalWeight, NumKeyed, Flat, MergeAll, FirstKeyed;
    var c, s' := s.cursors[n], CollapseInto(s, lc);
    var m := s'.chks[0];
    PrefixMonotone(s.chks, lc, c.chk);
    assert |Flat(s.chks[lc..c.chk])| - |Flat(s'.chks[..c.chk - lc])| == |s.chks[lc].items| - |m.items| by {
      TailsAgree(s.chks, lc, c.chk, m);
      MergedPrefix(s.chks[lc..c.chk], s'.chks[..c.chk - lc]);
    }
  }

  lemma {:induction false} TailsAgree(chks: seq<Chk>, lc: nat, j: nat, m: Chk)
    requires lc < j <= |chks|
    ensures chks[lc..j][1..] == ([m] + chks[lc + 1..])[..j - lc][1..]
  {
  }

  lemma {:induction false} MergedPrefix(a: seq<Chk>, b: seq<Chk>)
    requires |a| == |b| >= 1 && a[1..] == b[1..] && |a[0].items| >= 1 && |b[0].items| >= 1
    ensures |Flat(a)| - |Flat(b)| == |a[0].items| - |b[0].items|
  {
    assert a == [a[0]] + a[1..] && b == [b[0]] + b[1..];
    FlatConcat([a[0]], a[1..]);
    FlatConcat([b[0]], b[1..]);
    Single(a[0]);
    Single(b[0]);
  }

  lemma {:induction false} CollapsedTotalExact(s: State, lc: nat)
    requires Inv(s) && s.numItems == |Flat(s.chks)| && lc < |s.chks|
    ensures CollapseInto(s, lc).numItems == |Flat(CollapseInto(s, lc).chks)|
  {
    hide ChkInv, TotalWeight, NumKeyed, Flat, MergeAll, CursorsInv;
    CollapseIntoWeights(s, lc);
    ListParts(s.chks, lc);
    PrefixExact(s, lc);
    SplitAt(s.chks, lc);
    var s' := CollapseInto(s, lc);
    assert s.chks[lc..][1..] == s'.chks[1..];
    MergedPrefix(s.chks[lc..], s'.chks);
  }

  /** Every mutation of a list has its key in another one. */
  ghost predicate AllKnown(prev: seq<Item>, cur: seq<Item>) {
    forall j :: 0 <= j < |prev| && Keyed(prev[j]) ==> FindKey(cur, prev[j].key) < |cur|
  }

  lemma {:induction false} MissingNone(prev: seq<Item>, cur: seq<Item>)
    ensures Missing(prev, cur) == [] <==> AllKnown(prev, cur)
  {
    hide FindKey;
    if prev != [] {
      MissingNone(prev[1..], cur);
      if AllKnown(prev[1..], cur) && (Keyed(prev[0]) ==> FindKey(cur, prev[0].key) < |cur|) {
        forall j | 0 <= j < |prev| && Keyed(prev[j]) ensures FindKey(cur, prev[j].key) < |cur| {
          assert j > 0 ==> prev[j] == prev[1..][j - 1];
        }
      }
      if AllKnown(prev, cur) {
        forall j | 0 <= j < |prev[1..]| && Keyed(prev[1..][j]) ensures FindKey(cur, prev[1..][j].key) < |cur| {
          assert prev[1..][j] == prev[j + 1];
        }
      }
    }
  }

  /** The checkpoint at `lc` has every key of those from `from` on before it. */
  ghost predicate NothingNew(chks: seq<Chk>, from: nat, lc: nat)
    requires lc < |chks|
  {
    forall i :: from <= i < lc ==> AllKnown(chks[i].items, chks[lc].items)
  }

  /** A merge adds nothing exactly when every key is already there. */
  lemma {:induction false} AddsNothing(chks: seq<Chk>, cur: seq<Item>)
    ensures |MergeAll(chks, cur)| == |cur| <==> forall i :: 0 <= i < |chks| ==> AllKnown(chks[i].items, cur)
    decreases |chks|
  {
    hide AllKnown, Missing, FirstKeyed;
    if chks != [] {
      var l := |chks| - 1;
      var mid := Merge(chks[l].items, cur);
      MergeLength(chks[l].items, cur);
      MissingNone(chks[l].items, cur);
      MergeAllShape(chks[..l], mid);
      if AllKnown(chks[l].items, cur) {
        assert mid == cur;
        AddsNothing(chks[..l], cur);
        assert forall i :: 0 <= i < l ==> chks[..l][i] == chks[i];
      }
    }
  }

  lemma {:induction false} MergeLength(prev: seq<Item>, cur: seq<Item>)
    ensures |Merge(prev, cur)| == |cur| + |Missing(prev, cur)|
    ensures Missing(prev, cur) == [] ==> Merge(prev, cur) == cur
  {
    hide Missing, FirstKeyed;
  }

  lemma {:induction false} AddedNothing(s: State, lc: nat)
    requires lc < |s.chks|
    ensures Added(s, lc) == 0 <==> NothingNew(s.chks, 0, lc)
  {
    hide AllKnown, MergeAll;
    AddsNothing(s.chks[..lc], s.chks[lc].items);
    assert forall i :: 0 <= i < lc ==> s.chks[..lc][i] == s.chks[i];
  }

  /**
   When collapsing the closed checkpoints from `from` on keeps the counters exact: the newest of
   them has every key of the others, or no cursor stands in front of its first mutation.
   */
  ghost predicate PreciseCollapse(s: State, from: nat) {
    |s.chks| - from > 2 ==>
      var lc := |s.chks| - 2;
      NothingNew(s.chks, from, lc) || forall n :: n in s.cursors ==> !BeforeMerged(s, lc, n)
  }

  lemma {:induction false} CollapseClosedExact(s: State)
    requires Inv(s) && Exact(s)
    ensures Exact(CollapseClosed(s)) <==> PreciseCollapse(s, 0)
  {
    hide ChkInv, CursorsInv, CursorOk, TotalWeight, NumKeyed, Flat, MergeAll, FirstKeyed, BeforeMerged, Added, Passed, ExactCursor, NothingNew;
    if |s.chks| > 2 {
      var lc := |s.chks| - 2;
      var s' := CollapseInto(s, lc);
      CollapseIntoKeepsInv(s, lc);
      CollapsedTotalExact(s, lc);
      AddedNothing(s, lc);
      forall n | n in s.cursors
        ensures ExactCursor(s'.chks, s'.cursors[n]) <==> Added(s, lc) == 0 || !BeforeMerged(s, lc, n)
      {
        CollapsedCursorExact(s, lc, n);
      }
      assert s'.cursors.Keys == s.cursors.Keys;
    }
  }

  /** Dropping checkpoints in front of all cursors changes none of this. */
  lemma {:induction false} PreciseAfterDrop(s: State, r: nat)
    requires r < |s.chks| && forall n :: n in s.cursors ==> r <= s.cursors[n].chk
    ensures PreciseCollapse(DropFront(s, r), 0) <==> PreciseCollapse(s, r)
  {
    hide TotalWeight, Decr, AllKnown, FirstKeyed;
    var s' := DropFront(s, r);
    assert s'.chks == s.chks[r..];
    if |s.chks| - r > 2 {
      var lc := |s.chks| - 2;
      assert s'.chks[lc - r] == s.chks[lc];
      assert NothingNew(s'.chks, 0, lc - r) <==> NothingNew(s.chks, r, lc) by {
        assert forall i :: 0 <= i < lc - r ==> s'.chks[i] == s.chks[i + r];
        assert forall i :: r <= i < lc ==> s.chks[i] == s'.chks[i - r];
      }
      assert forall n :: n in s.cursors ==> (BeforeMerged(s', lc - r, n) <==> BeforeMerged(s, lc, n));
    }
  }

  // ---------------------------------------------------------------- rollback

  lemma {:induction false} NumKeyedOne(it: Item)
    ensures NumKeyed([it]) == if Keyed(it) then 1 else 0
  {
    assert [it][..0] == [];
  }

  lemma {:induction false} NothingKeyed(items: seq<Item>)
    ensures NumKeyed(items) == 0 <==> FirstKeyed(items) == |items|
  {
    hide NumKeyed, FirstKeyed;
    var f := FirstKeyed(items);
    assert items == items[..f] + items[f..];
    NumKeyedConcat(items[..f], items[f..]);
    KeylessCount(items[..f]);
    if f < |items| {
      assert items[f..] == [items[f]] + items[f + 1..];
      NumKeyedConcat([items[f]], items[f + 1..]);
      NumKeyedOne(items[f]);
    } else {
      assert items[f..] == [];
      assert items[..f] == items;
    }
  }

  lemma {:induction false} KeylessCount(items: seq<Item>)
    requires forall i :: 0 <= i < |items| ==> !Keyed(items[i])
    ensures NumKeyed(items) == 0
  {
    if items != [] {
      KeylessCount(items[..|items| - 1]);
    }
  }

  lemma {:induction false} MissingFromKeyless(prev: seq<Item>, cur: seq<Item>)
    requires NumKeyed(cur) == 0
    ensures |Missing(prev, cur)| == NumKeyed(prev)
  {
    if prev != [] {
      MissingFromKeyless(prev[1..], cur);
      assert prev == [prev[0]] + prev[1..];
      NumKeyedConcat([prev[0]], prev[1..]);
      assert [prev[0]][..0] == [];
      NothingKeyed(cur);
    }
  }

  ghost predicate AllKeyless(chks: seq<Chk>) {
    forall i :: 0 <= i < |chks| ==> NumKeyed(chks[i].items) == 0
  }

  lemma {:induction false} AllKeylessSnoc(chks: seq<Chk>, l: nat)
    requires |chks| == l + 1
    ensures AllKeyless(chks) <==> AllKeyless(chks[..l]) && NumKeyed(chks[l].items) == 0
  {
    hide NumKeyed;
    if AllKeyless(chks[..l]) && NumKeyed(chks[l].items) == 0 {
      forall i | 0 <= i < |chks| ensures NumKeyed(chks[i].items) == 0 {
        assert i < l ==> NumKeyed(chks[..l][i].items) == 0;
      }
    }
    if AllKeyless(chks) {
      forall i | 0 <= i < l ensures NumKeyed(chks[..l][i].items) == 0 {
        assert NumKeyed(chks[i].items) == 0;
      }
    }
  }

  lemma {:induction false} AddedToKeyless(chks: seq<Chk>, c: Chk)
    requires ChkInv(c) && NumKeyed(c.items) == 0
    requires forall i :: 0 <= i < |chks| ==> ChkInv(chks[i]) && !chks[i].open
    ensures |MergeAll(chks, c.items)| == |c.items| <==> AllKeyless(chks)
    decreases |chks|
  {
    hide ChkInv, FirstKeyed, NumKeyed, Merge, AllKeyless;
    if chks == [] {
      assert AllKeyless(chks) by { EmptyKeyless(); }
    } else {
      var l := |chks| - 1;
      var c' := c.(items := Merge(chks[l].items, c.items));
      ChkParts(chks[l]);
      MissingFromKeyless(chks[l].items, c.items);
      MergeSize(chks[l].items, c.items);
      MergeKeepsChk(chks[l].items, c);
      MergeAllKeepsChk(chks[..l], c');
      AllKeylessSnoc(chks, l);
      if NumKeyed(chks[l].items) == 0 {
        AddedToKeyless(chks[..l], c');
      }
    }
  }

  lemma {:induction false} EmptyKeyless()
    ensures AllKeyless([])
  {
  }

  /** When a rollback keeps the counters exact: no end entry gets buried under merged mutations. */
  ghost predicate PreciseRollback(s: State)
    requires |s.chks| >= 1
  {
    || Back(s).open
    || NumKeyed(Back(s).items) > 0
    || AllKeyless(s.chks[..|s.chks| - 1])
  }

  lemma {:induction false} EndsWithEnd(chks: seq<Chk>, c: Chk)
    requires ChkInv(c) && !c.open && c.items[|c.items| - 1].op == OpCheckpointEnd
    requires forall i :: 0 <= i < |chks| ==> ChkInv(chks[i]) && !chks[i].open
    ensures var r := MergeAll(chks, c.items);
            r != [] && (r[|r| - 1].op == OpCheckpointEnd <==>
              NumKeyed(c.items) > 0 || AllKeyless(chks))
  {
    hide NumKeyed, DistinctKeys, AllKeyless, ChkInv, MergeAll, FirstKeyed;
    var r, f, l := MergeAll(chks, c.items), FirstKeyed(c.items), |c.items| - 1;
    MergeAllShape(chks, c.items);
    MergeAllKeepsChk(chks, c);
    NothingKeyed(c.items);
    ChkSize(c);
    if NumKeyed(c.items) > 0 {
      assert r[|r| - 1] == r[f + |r| - |c.items|..][l - f] == c.items[f..][l - f] == c.items[l];
    } else {
      AddedToKeyless(chks, c);
      if |r| == |c.items| {
        assert r[l] == r[..f][l] == c.items[..f][l] == c.items[l];
      } else {
        assert ChkInv(c.(items := r));
        MergedLastKeyed(chks, c);
      }
    }
  }

  lemma {:induction false} MergedLastKeyed(chks: seq<Chk>, c: Chk)
    requires ChkInv(c) && NumKeyed(c.items) == 0 && |MergeAll(chks, c.items)| > |c.items|
    requires forall i :: 0 <= i < |chks| ==> ChkInv(chks[i]) && !chks[i].open
    ensures var r := MergeAll(chks, c.items); r[|r| - 1].op != OpCheckpointEnd
  {
    hide MergeAll, DistinctKeys, NumKeyed, FirstKeyed, ChkInv;
    var r := MergeAll(chks, c.items);
    MergeAllKeepsChk(chks, c);
    NothingKeyed(c.items);
    MergeAllShape(chks, c.items);
    assert forall i :: 0 <= i < |c.items| ==> r[i] == r[..|c.items|][i] == c.items[i];
    NumKeyedBound(r, |c.items|);
    KeyedNotEnd(c.(items := r));
  }

  lemma {:induction false} KeyedNotEnd(c: Chk)
    requires ChkInv(c)
    ensures Keyed(c.items[|c.items| - 1]) ==> c.items[|c.items| - 1].op != OpCheckpointEnd
  {
    hide DistinctKeys, NumKeyed, FirstKeyed;
  }

  lemma {:induction false} NumKeyedBound(items: seq<Item>, m: nat)
    requires m <= |items| && NumKeyed(items) == |items| - m
    requires m < |items| && forall i :: 0 <= i < m ==> !Keyed(items[i])
    ensures Keyed(items[|items| - 1])
  {
    var l := |items| - 1;
    assert items[..l] == items[..m] + items[m..l];
    NumKeyedConcat(items[..m], items[m..l]);
    KeylessCount(items[..m]);
    NumKeyedAtMost(items[m..l]);
  }

  lemma {:induction false} NumKeyedAtMost(items: seq<Item>)
    ensures NumKeyed(items) <= |items|
  {
    if items != [] {
      NumKeyedAtMost(items[..|items| - 1]);
    }
  }

  lemma {:induction false} ReopenedPlain(c: Chk, m: Chk, id: nat)
    requires ChkInv(c) && ChkInv(m) && Plain(c) && m.open == c.open
    requires NumKeyed(m.items) - NumKeyed(c.items) == |m.items| - |c.items|
    ensures Plain(Reopen(m).(items := Reopen(m).items[1 := StartItem(id)]))
            <==> m.open || m.items[|m.items| - 1].op == OpCheckpointEnd
  {
    hide ChkInv, NumKeyed;
    ReopenKeepsChk(m);
    assert |m.items| >= 2 && |Reopen(m).items| >= 2 by { ChkSize(m); ChkSize(Reopen(m)); }
    RelabelledChk(Reopen(m), id);
  }

  lemma {:induction false} ChkSize(c: Chk)
    requires ChkInv(c)
    ensures |c.items| >= 2
  {
  }

  lemma {:induction false} RollbackTotalExact(s: State, id: nat)
    requires Inv(s) && Exact(s)
    ensures Plain(RolledBack(s, id)) <==> PreciseRollback(s)
  {
    hide ChkInv, CursorsInv, NumKeyed, MergeAll, Plain, Reopen, AllKeyless, TotalWeight;
    var last := |s.chks| - 1;
    var c := s.chks[last];
    var m := c.(items := MergeAll(s.chks[..last], c.items));
    ListParts(s.chks, last);
    PrefixClosed(s.chks, last);
    TotalExact(s);
    MergeAllKeepsChk(s.chks[..last], c);
    ReopenedPlain(c, m, id);
    ReopenKeepsChk(m);
    ChkSize(Reopen(m));
    if !c.open {
      EndsWithEnd(s.chks[..last], c);
    }
    PlainRelabel(Reopen(m), id);
  }

  lemma {:induction false} PlainRelabel(c: Chk, id: nat)
    requires |c.items| >= 2
    ensures Plain(c.(id := id, items := c.items[1 := StartItem(id)]))
            <==> Plain(c.(items := c.items[1 := StartItem(id)]))
  {
  }

  lemma {:induction false} RollbackExact(s: State, id: nat)
    requires Inv(s) && Exact(s)
    ensures Exact(Rollback(s, id)) <==> PreciseRollback(s)
  {
    hide ChkInv, CursorOk, NumKeyed, Flat, Rollback, RolledBack, ExactCursor, TotalWeight;
    RollbackChk(s, id);
    RollbackKeepsInv(s, id);
    RollbackCursors(s, id);
    RollbackTotalExact(s, id);
    TotalExact(Rollback(s, id));
  }

  lemma {:induction false} RollbackCursors(s: State, id: nat)
    requires Inv(s)
    ensures forall n :: n in Rollback(s, id).cursors ==> ExactCursor(Rollback(s, id).chks, Rollback(s, id).cursors[n])
  {
    hide ChkInv, CursorOk, TotalWeight, NumKeyed, MergeAll;
    RollbackKeepsInv(s, id);
    var s' := Rollback(s, id);
    forall n | n in s'.cursors ensures ExactCursor(s'.chks, s'.cursors[n]) {
      assert s'.chks[..0] == [];
      NothingFlat();
    }
  }

  // ---------------------------------------------------------------- the main theorems

  /** A clean-up that collapses, which is never one that opens a checkpoint, does so behind the leading unused checkpoints. */
  ghost predicate PreciseCleanUp(s: State, env: Env) {
    !env.keepClosed && (env.vbState == Replica || (env.vbState == Active && env.inconsistentSlave)) ==>
      PreciseCollapse(s, LeadingUnref(s, 0))
  }

  /** When an operation keeps the counters exact; a caller can tell before the call. */
  ghost predicate Precise(s: State, op: Op)
    requires Inv(s)
  {
    match op
    case CleanUp(env) => PreciseCleanUp(s, env)
    case Start(id) => RollsBack(s, id) ==> PreciseRollback(s)
    case RegisterCursor(n, id, _, _) => FindChk(s.chks, id) < |s.chks| || Back(s).open
    case _ => true
  }

  lemma {:induction false} SteppedOverExact(chks: seq<Chk>, c: Cursor, oldId: nat)
    requires CursorOk(chks, c) && ExactCursor(chks, c)
    ensures ExactCursor(chks, SteppedOver(chks, c, oldId))
  {
    hide Flat;
    if SteppedOver(chks, c, oldId) != c {
      assert chks[..c.chk + 1] == chks[..c.chk] + [chks[c.chk]];
      FlatConcat(chks[..c.chk], [chks[c.chk]]);
      Single(chks[c.chk]);
    }
  }

  lemma {:induction false} StepOverExact(s: State, oldId: nat)
    requires Inv(s) && Exact(s)
    ensures Exact(StepOver(s, oldId))
  {
    hide ListInv, CursorsInv, TotalWeight, ExactCursor, Flat, SteppedOver;
    StepOverKeepsInv(s, oldId);
    forall n | n in s.cursors ensures ExactCursor(s.chks, SteppedOver(s.chks, s.cursors[n], oldId)) {
      CursorsParts(s.chks, s.cursors, n);
      SteppedOverExact(s.chks, s.cursors[n], oldId);
    }
  }

  lemma {:induction false} OpenIfDueExact(s: State, env: Env)
    requires Inv(s) && Exact(s)
    ensures Exact(OpenIfDue(s, env).0)
  {
    hide ListInv, CursorsInv, TotalWeight, CheckOpen, HighMemCreation, CreatesCheckpoints, StepOver, Exact;
    ListNonEmpty(s.chks);
    var force := HighMemCreation(s, env);
    CheckOpenKeepsInv(s, force, env);
    CheckOpenExact(s, force, env);
    StepOverExact(CheckOpen(s, force, env).0, CheckOpen(s, force, env).1);
  }

  lemma {:induction false} CleanUpExact(s: State, env: Env)
    requires Inv(s) && Exact(s)
    ensures Exact(RemoveClosedUnref(s, env).0) <==> PreciseCleanUp(s, env)
  {
    hide ChkInv, CursorsInv, TotalWeight, ClosedAtEnd, NumKeyed, OpenIfDue, CollapseClosed,
         LeadingUnref, DropFront, Exact, PreciseCollapse;
    var s1 := OpenIfDue(s, env).0;
    OpenIfDueKeepsInv(s, env);
    OpenIfDueExact(s, env);
    var r := if env.keepClosed && LeadingUnref(s1, 0) > 1 then 1 else LeadingUnref(s1, 0);
    DropFrontKeepsInv(s1, r);
    DropFrontExact(s1, r);
    CollapseClosedExact(DropFront(s1, r));
    if !env.keepClosed && (env.vbState == Replica || (env.vbState == Active && env.inconsistentSlave)) {
      assert s1 == s by { NothingDue(s, env); }
      forall n | n in s.cursors ensures r <= s.cursors[n].chk {
        LeadingUnrefBeforeCursors(s, n);
      }
      PreciseAfterDrop(s, r);
    }
  }

  /** Only an active vbucket that makes its own checkpoints opens one during the clean-up. */
  lemma {:induction false} NothingDue(s: State, env: Env)
    requires |s.chks| >= 1 && (env.vbState == Replica || env.inconsistentSlave)
    ensures OpenIfDue(s, env).0 == s
  {
    hide CheckOpen, HighMemCreation;
  }

  lemma {:induction false} StartExact(s: State, id: nat)
    requires Inv(s) && Exact(s)
    ensures Exact(CheckAndAdd(s, id).0) <==> (RollsBack(s, id) ==> PreciseRollback(s))
  {
    hide ChkInv, CursorsInv, TotalWeight, NumKeyed, Exact, AddNew, SetOpenId, Rollback, PreciseRollback;
    if id == 0 {
    } else if Back(s).id == 0 {
      var first := s.chks[0];
      assert |s.chks| == 1;
      RelabelExact(s, id);
    } else if forall i | 0 <= i < |s.chks| :: s.chks[i].id < id {
      AddNewExact(s, id);
    } else {
      assert RollsBack(s, id);
      RollbackExact(s, id);
    }
  }

  lemma {:induction false} RemoveExact(s: State, n: string)
    requires Inv(s) && Exact(s) && n != PERSISTENCE
    ensures Exact(RemoveTap(s, n).0)
  {
    hide ListInv, Flat, TotalWeight;
  }

  /** From exact counters, an operation leads to exact counters if and only if it is precise. */
  lemma {:induction false} StepExact(s: State, op: Op)
    requires Inv(s) && Exact(s) && Enabled(s, op)
    ensures Exact(Step(s, op)) <==> Precise(s, op)
  {
    hide ChkInv, CursorsInv, TotalWeight, NumKeyed, Exact, CheckOpen, CheckAndAdd, RemoveClosedUnref, QueueDirty,
         Next, Fetch, CloseOpen, SetOpenId, Register, RemoveTap, DecrFromEnd, Clear, PreciseCleanUp, PreciseRollback, RollsBack;
    match op
    case Queue(it, env) => QueueExact(s, it, env);
    case Close(id) => CloseExact(s, id);
    case Check(force, env) => CheckOpenExact(s, force, env);
    case CleanUp(env) => CleanUpExact(s, env);
    case Start(id) => StartExact(s, id);
    case Relabel(id) => RelabelExact(s, id);
    case RegisterCursor(n, id, closedOnly, fromBeginning) => RegisterExact(s, n, id, closedOnly, fromBeginning);
    case RemoveCursor(n) => RemoveExact(s, n);
    case FetchAll(n) => FetchExact(s, n);
    case FetchNext(n) => NextExact(s, n);
    case StepBack(n) => StepBackExact(s, n);
    case ClearAll(vbState) => assert PERSISTENCE in s.cursors by { InvCursor(s); } ClearExact(s, vbState);
  }

  lemma {:induction false} InvCursor(s: State)
    requires Inv(s)
    ensures PERSISTENCE in s.cursors
  {
  }

  /** A run of enabled, precise operations. */
  ghost predicate PreciseRun(s: State, ops: seq<Op>)
    requires Inv(s)
    decreases |ops|
  {
    ops == [] ||
    (Enabled(s, ops[0]) && Precise(s, ops[0])
     && (StepKeepsInv(s, ops[0]); PreciseRun(Step(s, ops[0]), ops[1..])))
  }

  ghost function StateAfter(s: State, ops: seq<Op>): State
    requires Inv(s) && PreciseRun(s, ops)
    decreases |ops|
  {
    if ops == [] then s else StepKeepsInv(s, ops[0]); StateAfter(Step(s, ops[0]), ops[1..])
  }

  /** On every precise run the counters are what they are meant to be. */
  lemma {:induction false} CountersExactOnRuns(s: State, ops: seq<Op>)
    requires Inv(s) && Exact(s) && PreciseRun(s, ops)
    ensures Inv(StateAfter(s, ops)) && Exact(StateAfter(s, ops))
    ensures PERSISTENCE in StateAfter(s, ops).cursors
    ensures Backlog(StateAfter(s, ops)) == |Fetch(StateAfter(s, ops), PERSISTENCE).1|
    decreases |ops|
  {
    hide ListInv, CursorsInv, TotalWeight, Exact, Precise, Step, Fetch, Backlog;
    if ops == [] {
      BacklogIsNextFetch(s);
    } else {
      StepKeepsInv(s, ops[0]);
      StepExact(s, ops[0]);
      CountersExactOnRuns(Step(s, ops[0]), ops[1..]);
    }
  }

  lemma {:induction false} InitExact(id: nat)
    ensures Inv(Init(id)) && Exact(Init(id))
  {
    InitInv(id);
    Single(NewChk(id));
    assert Init(id).chks[..0] == [];
  }

  // ---------------------------------------------------------------- the counters do drift

  const REPLICA := Env(Replica, 2, 500, false, false, false, false, false, 0)

  ghost predicate Drifts(s: State, op: Op) {
    Inv(s) && Exact(s) && Enabled(s, op) && !Exact(Step(s, op))
  }

  /** The newest checkpoint is closed and the wanted one is gone: the new cursor is one entry off. */
  lemma {:induction false} RegistrationDrifts()
    ensures Drifts(CloseOpen(Init(1), 1), RegisterCursor("t", 9, false, true))
  {
    hide Exact, ChkInv;
    var s := CloseOpen(Init(1), 1);
    InitInv(1);
    InitExact(1);
    StepKeepsInv(Init(1), Close(1));
    StepExact(Init(1), Close(1));
    StepExact(s, RegisterCursor("t", 9, false, true));
  }

  function Mutation(k: Key): Item {
    Item(k, OpSet, 0, 0)
  }

  /** One checkpoint with a mutation, then an empty one that is closed too. */
  ghost function EmptyNewest(): State {
    CloseOpen(CheckOpen(Enqueue(Init(1), Mutation("a")), true, REPLICA).0, 2)
  }

  lemma {:induction false} EmptyNewestFacts()
    ensures Inv(EmptyNewest()) && Exact(EmptyNewest())
    ensures EmptyNewest().chks == [
      Chk(1, false, [DummyItem(), StartItem(1), Mutation("a"), EndItem(1)]),
      Chk(2, false, [DummyItem(), StartItem(2), EndItem(2)])]
  {
    hide Exact, ChkInv, Flat, TotalWeight, CheckOpen, Requeue;
    var s0 := Init(1);
    InitInv(1);
    InitExact(1);
    OneMutation(s0, "a");
    var s2 := CheckOpen(Enqueue(s0, Mutation("a")), true, REPLICA).0;
    assert NewChk(2).items + [EndItem(2)] == [DummyItem(), StartItem(2), EndItem(2)];
    CloseKeepsInv(s2, 2);
    CloseExact(s2, 2);
  }

  /** Rolling back to an empty closed checkpoint buries its end entry under the merged mutations. */
  lemma {:induction false} RollbackDrifts()
    ensures Drifts(EmptyNewest(), Start(2))
  {
    hide Exact, Inv, EmptyNewest, CheckAndAdd;
    var s := EmptyNewest();
    EmptyNewestFacts();
    assert NumKeyed(Back(s).items) == 0 by { KeylessCount(Back(s).items); }
    assert !AllKeyless(s.chks[..1]) by {
      assert s.chks[..1][0] == s.chks[0];
      KeyedItem(s.chks[0].items, 2);
    }
    assert s.chks[1].id >= 2;
    StepExact(s, Start(2));
  }

  /** Two closed checkpoints with a mutation each, the persistence cursor in the first and a fresh cursor in the second. */
  ghost function SlowAndFresh(): State {
    var s1 := CheckOpen(Enqueue(Init(1), Mutation("a")), true, REPLICA).0;
    var s2 := CheckOpen(Enqueue(s1, Mutation("b")), true, REPLICA).0;
    Register(s2, "t", 2, false, true).0
  }

  lemma {:induction false} OneMutation(s: State, k: Key)
    requires Inv(s) && Exact(s) && Back(s) == NewChk(Back(s).id) && k != ""
    ensures var s' := CheckOpen(Enqueue(s, Mutation(k)), true, REPLICA).0;
            && Inv(s') && Exact(s') && s'.cursors == s.cursors
            && s'.chks == s.chks[..|s.chks| - 1] + [
                 Chk(Back(s).id, false, [DummyItem(), StartItem(Back(s).id), Mutation(k), EndItem(Back(s).id)]),
                 NewChk(Back(s).id + 1)]
  {
    hide Exact, ChkInv, Flat, TotalWeight;
    var id, items := Back(s).id, Back(s).items;
    var s1 := Enqueue(s, Mutation(k));
    assert items[0].key == "" && items[1].key == "";
    assert FindKey(items, k) == 2;
    var added := items + [Mutation(k)];
    assert added == [DummyItem(), StartItem(id), Mutation(k)];
    assert added + [EndItem(id)] == [DummyItem(), StartItem(id), Mutation(k), EndItem(id)];
    EnqueueKeepsInv(s, Mutation(k));
    EnqueueExact(s, Mutation(k));
    CheckOpenKeepsInv(s1, true, REPLICA);
    CheckOpenExact(s1, true, REPLICA);
  }

  lemma {:induction false} InitBack()
    ensures Init(1).chks == [NewChk(1)] && Init(1).cursors.Keys == {PERSISTENCE} && Init(1).cursors[PERSISTENCE].chk == 0
  {
  }

  lemma {:induction false} RegisteredSecond(s: State)
    requires |s.chks| == 3 && s.chks[0].id == 1 && s.chks[1].id == 2 && s.cursors.Keys == {PERSISTENCE}
    ensures FindChk(s.chks, 2) == 1
    ensures var r := Register(s, "t", 2, false, true).0;
            && r.chks == s.chks && PERSISTENCE in r.cursors && r.cursors[PERSISTENCE] == s.cursors[PERSISTENCE]
            && "t" in r.cursors && r.cursors["t"].chk == 1 && r.cursors["t"].pos == 0
  {
    assert FindChk(s.chks, 2) == 1;
  }

  lemma {:induction false} SlowAndFreshFacts()
    ensures Inv(SlowAndFresh()) && Exact(SlowAndFresh())
    ensures PERSISTENCE in SlowAndFresh().cursors && SlowAndFresh().cursors[PERSISTENCE].chk == 0
    ensures "t" in SlowAndFresh().cursors && SlowAndFresh().cursors["t"].chk == 1 && SlowAndFresh().cursors["t"].pos == 0
    ensures SlowAndFresh().chks == [
      Chk(1, false, [DummyItem(), StartItem(1), Mutation("a"), EndItem(1)]),
      Chk(2, false, [DummyItem(), StartItem(2), Mutation("b"), EndItem(2)]),
      NewChk(3)]
  {
    hide Exact, Inv, Flat, TotalWeight, CheckOpen, Requeue, FindKey, Register;
    InitInv(1);
    InitExact(1);
    InitBack();
    OneMutation(Init(1), "a");
    var s1 := CheckOpen(Enqueue(Init(1), Mutation("a")), true, REPLICA).0;
    OneMutation(s1, "b");
    var s2 := CheckOpen(Enqueue(s1, Mutation("b")), true, REPLICA).0;
    StepKeepsInv(s2, RegisterCursor("t", 2, false, true));
    StepExact(s2, RegisterCursor("t", 2, false, true));
    RegisteredSecond(s2);
  }

  /** A cursor in front of the first mutation of the checkpoint others are merged into ends up too high. */
  lemma {:induction false} CollapseDrifts()
    ensures Drifts(SlowAndFresh(), CleanUp(REPLICA))
  {
    hide Exact, Inv, SlowAndFresh, RemoveClosedUnref, LeadingUnref, MergeAll;
    var s := SlowAndFresh();
    SlowAndFreshFacts();
    assert OpenIfDue(s, REPLICA).0 == s;
    assert !Unreferenced(s, 0) by { assert s.cursors[PERSISTENCE].chk == 0; }
    assert LeadingUnref(s, 0) == 0;
    assert !NothingNew(s.chks, 0, 1) by {
      assert s.chks[0].items[2].key == "a" && s.chks[1].items[0].key == "" && s.chks[1].items[1].key == ""
             && s.chks[1].items[2].key == "b" && s.chks[1].items[3].key == "";
      assert !AllKnown(s.chks[0].items, s.chks[1].items);
    }
    assert BeforeMerged(s, 1, "t");
    StepExact(s, CleanUp(REPLICA));
  }

  lemma {:induction false} KeyedItem(items: seq<Item>, i: nat)
    requires i < |items| && Keyed(items[i])
    ensures NumKeyed(items) > 0
  {
    if i < |items| - 1 {
      KeyedItem(items[..|items| - 1], i);
    }
  }
}
