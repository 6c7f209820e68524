/** When checkpoints are opened, freed and collapsed, and what the flags and numbers returned mean. */
module CheckpointUpkeep {
  import opened QueuedItems
  import opened CheckpointLog
  import opened CheckpointFacts
  import opened CheckpointReplay
  import opened CheckpointRuns

  // ---------------------------------------------------------------- opening

  /**
   After the check the newest checkpoint is not full, and it is empty if the old one was too old or
   a new one was forced; one that is neither full nor old stays, and so does an empty one.
   */
  lemma {:induction false} CheckOpenMeaning(s: State, force: bool, env: Env)
    requires |s.chks| >= 1
    ensures var s' := CheckOpen(s, force, env).0;
            && |s'.chks| >= 1 && (env.maxItems > 0 ==> NumKeyed(Back(s').items) < env.maxItems)
            && (force || env.timeUp ==> NumKeyed(Back(s').items) == 0)
            && s'.cursors == s.cursors
    ensures !force && NumKeyed(Back(s).items) < env.maxItems && (env.timeUp ==> NumKeyed(Back(s).items) == 0) ==>
              CheckOpen(s, force, env) == (s, 0)
    ensures var (s', closed) := CheckOpen(s, force, env);
            s' != s ==>
              && closed == Back(s).id && |s'.chks| == |s.chks| + 1 && Back(s') == NewChk(Back(s).id + 1)
              && s'.chks[..|s.chks| - 1] == s.chks[..|s.chks| - 1] && !s'.chks[|s.chks| - 1].open
              && s'.chks[|s.chks| - 1].id == Back(s).id && Back(s).items <= s'.chks[|s.chks| - 1].items
  {
    NewChkKeyless(Back(s).id + 1);
  }

  /** A vbucket that decides about its own checkpoints, with room for one more or one that is about to be freed. */
  ghost predicate MayOpen(s: State, env: Env) {
    && env.vbState == Active && !env.inconsistentSlave
    && (|s.chks| < env.maxCheckpoints || (|s.chks| == env.maxCheckpoints && !SomeoneAt(s, 0)))
  }

  ghost predicate SomeoneAt(s: State, i: nat) {
    exists n :: n in s.cursors && s.cursors[n].chk == i
  }

  lemma {:induction false} ReferencedMeans(s: State, i: nat)
    ensures Unreferenced(s, i) <==> !SomeoneAt(s, i)
  {
  }

  /** Memory is short, every cursor is in the newest checkpoint, and that has many mutations or all there are. */
  ghost predicate Crowded(s: State, env: Env)
    requires |s.chks| >= 1
  {
    && env.memAboveHighWat && (forall n :: n in s.cursors ==> s.cursors[n].chk == |s.chks| - 1)
    && (NumKeyed(Back(s).items) >= 100 || NumKeyed(Back(s).items) == env.hashTableItems)
  }

  /** The newest checkpoint is full, or old and not empty, or has to give way to free memory. */
  ghost predicate Due(s: State, env: Env)
    requires |s.chks| >= 1
  {
    NumKeyed(Back(s).items) >= env.maxItems || (env.timeUp && NumKeyed(Back(s).items) > 0) || Crowded(s, env)
  }

  lemma {:induction false} CrowdedMeans(s: State, env: Env)
    requires |s.chks| >= 1
    ensures HighMemCreation(s, env) <==> Crowded(s, env)
  {
    hide NumKeyed;
  }

  /** The first part of a clean-up opens a checkpoint exactly where it may and one is due; the last flag says so. */
  lemma {:induction false} OpenIfDueMeaning(s: State, env: Env)
    requires Inv(s)
    ensures |s.chks| >= 1
    ensures var s1 := OpenIfDue(s, env).0;
            && |s1.chks| == |s.chks| + (if MayOpen(s, env) && Due(s, env) then 1 else 0)
            && (|s1.chks| == |s.chks| ==> s1 == s)
            && (|s1.chks| > |s.chks| ==> Back(s1) == NewChk(Back(s).id + 1))
            && (RemoveClosedUnref(s, env).2 <==> |s1.chks| > |s.chks| && Back(s).id > 0)
  {
    hide ListInv, CursorsInv, TotalWeight, NumKeyed, CheckOpen, HighMemCreation, CollapseClosed, DropFront, LeadingUnref, SteppedOver,
         SomeoneAt, Crowded;
    ListNonEmpty(s.chks);
    ReferencedMeans(s, 0);
    CrowdedMeans(s, env);
    CheckOpenMeaning(s, HighMemCreation(s, env), env);
    CheckOpenSame(s, HighMemCreation(s, env), env);
  }

  lemma {:induction false} CheckOpenSame(s: State, force: bool, env: Env)
    requires |s.chks| >= 1
    ensures CheckOpen(s, force, env).0 == s ==> CheckOpen(s, force, env).1 == 0
    ensures CheckOpen(s, force, env).0 != s <==>
              force || NumKeyed(Back(s).items) >= env.maxItems || (env.timeUp && NumKeyed(Back(s).items) > 0)
  {
    hide NumKeyed;
  }

  // ---------------------------------------------------------------- freeing

  predicate Collapses(env: Env) {
    !env.keepClosed && (env.vbState == Replica || (env.vbState == Active && env.inconsistentSlave))
  }

  /** Closed checkpoints are kept while there is memory and room for them. */
  predicate KeepsAll(s: State, env: Env) {
    env.keepClosed && env.memBelowHighWat && |s.chks| <= env.maxCheckpoints
  }

  lemma {:induction false} KeyedOfClosed(chks: seq<Chk>)
    requires forall i :: 0 <= i < |chks| ==> ChkInv(chks[i]) && !chks[i].open
    ensures TotalWeight(chks) == NumKeyed(Flat(chks)) + 2 * |chks|
    decreases |chks|
  {
    hide ChkInv, NumKeyed;
    if chks == [] {
      assert NumKeyed([]) == 0 by { NoneKeyed(); }
    } else {
      KeyedOfClosed(chks[1..]);
      KeyedTail(chks[0]);
      NumKeyedConcat(Tail(chks[0]), Flat(chks[1..]));
    }
  }

  lemma {:induction false} NoneKeyed()
    ensures NumKeyed([]) == 0 && Flat([]) == [] && TotalWeight([]) == 0
  {
  }

  lemma {:induction false} KeyedTail(c: Chk)
    requires ChkInv(c)
    ensures NumKeyed(Tail(c)) == NumKeyed(c.items)
  {
    hide DistinctKeys, FirstKeyed;
    NumKeyedWithout(c.items, 0);
    assert Without(c.items, 0) == c.items[1..];
  }

  lemma {:induction false} ClosedFront(s: State, r: nat)
    requires Inv(s) && r < |s.chks|
    ensures forall i :: 0 <= i < |s.chks[..r]| ==> ChkInv(s.chks[..r][i]) && !s.chks[..r][i].open
  {
    hide ChkInv, TotalWeight;
  }

  lemma {:induction false} SomeoneStays(s: State, r: nat)
    requires r <= |s.chks| && SomeoneAt(s, r)
    ensures SomeoneAt(DropFront(s, r), 0)
  {
    hide TotalWeight, Decr;
    var n :| n in s.cursors && s.cursors[n].chk == r;
    assert n in DropFront(s, r).cursors && DropFront(s, r).cursors[n].chk == 0;
  }

  lemma {:induction false} SomeoneCollapsed(s: State)
    requires |s.chks| >= 1 && SomeoneAt(s, 0)
    ensures SomeoneAt(CollapseClosed(s), 0) && |CollapseClosed(s).chks| <= 2
  {
    hide TotalWeight, Decr, MergeAll, FirstKeyed;
    var n :| n in s.cursors && s.cursors[n].chk == 0;
    assert n in CollapseClosed(s).cursors && CollapseClosed(s).cursors[n].chk == 0;
  }

  /**
   What a clean-up frees: the checkpoints before every cursor, all of them or, where closed
   checkpoints are kept, one at a time; then a cursor stands in the front one. The number returned
   is that of their mutations, with a start and an end entry for each. Where closed checkpoints are
   collapsed, at most two are left.
   */
  lemma {:induction false} CleanUpMeaning(s: State, env: Env) returns (r: nat)
    requires Inv(s)
    ensures |s.chks| >= 1
    ensures var s1 := OpenIfDue(s, env).0;
            var (s', freed, _) := RemoveClosedUnref(s, env);
            && r < |s1.chks| && (forall n :: n in s1.cursors ==> r <= s1.cursors[n].chk)
            && freed == NumKeyed(Flat(s1.chks[..r])) + 2 * r
            && (KeepsAll(s1, env) ==> r == 0)
            && (env.keepClosed && !KeepsAll(s1, env) ==> r == if SomeoneAt(s1, 0) then 0 else 1)
            && (!env.keepClosed ==> SomeoneAt(s1, r) && SomeoneAt(s', 0))
            && (if Collapses(env) then |s'.chks| <= 2 else s'.chks == s1.chks[r..] && s'.numItems == s1.numItems - freed)
  {
    hide ChkInv, ListInv, CursorsInv, TotalWeight, NumKeyed, OpenIfDue, CollapseClosed, DropFront, Flat, SomeoneAt;
    ListNonEmpty(s.chks);
    OpenIfDueKeepsInv(s, env);
    var s1 := OpenIfDue(s, env).0;
    ListNonEmpty(s1.chks);
    var lead := LeadingUnref(s1, 0);
    r := if KeepsAll(s1, env) then 0 else if env.keepClosed && lead > 1 then 1 else lead;
    forall n | n in s1.cursors ensures lead <= s1.cursors[n].chk {
      LeadingUnrefBeforeCursors(s1, n);
    }
    BeforePersistence(s1, lead);
    ReferencedMeans(s1, 0);
    ReferencedMeans(s1, lead);
    NoneKeyed();
    ClosedFront(s1, r);
    KeyedOfClosed(s1.chks[..r]);
    DroppedParts(s1, r);
    if !env.keepClosed {
      SomeoneStays(s1, r);
      SomeoneCollapsed(DropFront(s1, r));
    }
  }

  lemma {:induction false} BeforePersistence(s: State, r: nat)
    requires Inv(s) && r <= |s.chks| && forall n :: n in s.cursors ==> r <= s.cursors[n].chk
    ensures r < |s.chks|
  {
    hide ListInv, TotalWeight;
    assert r <= s.cursors[PERSISTENCE].chk;
  }

  lemma {:induction false} DroppedParts(s: State, r: nat)
    requires r < |s.chks|
    ensures DropFront(s, r).chks == s.chks[r..] && DropFront(s, r).numItems == s.numItems - TotalWeight(s.chks[..r])
  {
    hide Decr;
  }

  // ---------------------------------------------------------------- checkpoint messages and cursors at an end entry

  /**
   A checkpoint-start message: the newest checkpoint carries the id afterwards, on top of what was there
   if the id is above all others, and as the only one after a rollback. The flag says that the
   persistence cursor may have been repositioned.
   */
  lemma {:induction false} StartMeaning(s: State, id: nat)
    requires Inv(s)
    ensures |s.chks| >= 1
    ensures var (s', moved) := CheckAndAdd(s, id);
            && |s'.chks| >= 1 && (if id == 0 then s' == s else Back(s').id == id)
            && (moved <==> id != 0 && (Back(s).id == 0 || exists i | 0 <= i < |s.chks| :: s.chks[i].id >= id))
            && (!moved ==> s'.cursors == s.cursors)
            && (moved ==> |s'.chks| == if Back(s).id == 0 then |s.chks| else 1)
            && (id != 0 && !moved ==> |s'.chks| == |s.chks| + 1 && Back(s') == NewChk(id) && !s'.chks[|s.chks| - 1].open
                                       && s'.chks[..|s.chks| - 1] == s.chks[..|s.chks| - 1])
  {
    hide ListInv, CursorsInv, TotalWeight, Rollback;
    ListNonEmpty(s.chks);
    AllLong(s.chks);
    RollbackMeaning(s, id, "k");
  }

  /** A TAP cursor on an end entry gets that entry ahead of it again; any other cursor stays. */
  lemma {:induction false} StepBackMeaning(s: State, n: string)
    requires Inv(s) && n in s.cursors
    ensures CursorOk(s.chks, s.cursors[n])
    ensures var s' := DecrFromEnd(s, n);
            var at := s.chks[s.cursors[n].chk].items[s.cursors[n].pos];
            && s'.chks == s.chks && n in s'.cursors && CursorOk(s'.chks, s'.cursors[n])
            && (forall m :: m in s.cursors && m != n ==> m in s'.cursors && s'.cursors[m] == s.cursors[m])
            && Remaining(s', n) == (if at.op == OpCheckpointEnd then [at] else []) + Remaining(s, n)
  {
    hide ChkInv, TotalWeight, Flat, Ahead;
    var c := s.cursors[n];
    assert CursorOk(s.chks, c);
    FirstIsDummy(s.chks[c.chk]) by { assert ChkInv(s.chks[c.chk]); }
    if s.chks[c.chk].items[c.pos].op == OpCheckpointEnd {
      AheadAdvance(s.chks, c.chk, c.pos - 1);
    } else {
      assert [] + Remaining(s, n) == Remaining(s, n);
    }
  }

  lemma {:induction false} FirstIsDummy(c: Chk)
    requires ChkInv(c)
    ensures |c.items| >= 2 && c.items[0].op != OpCheckpointEnd
  {
    hide DistinctKeys, NumKeyed, FirstKeyed;
  }

  // ---------------------------------------------------------------- the last mutation of a checkpoint

  /** No mutation comes after a position. */
  predicate NoneAfter(items: seq<Item>, pos: nat) {
    forall j :: pos < j < |items| ==> !Keyed(items[j])
  }

  /** An end entry stays in front of the mutations, as a rollback can leave it, and comes next. */
  predicate BuriedEndNext(items: seq<Item>, pos: nat) {
    pos + 1 < FirstKeyed(items) < |items|
  }

  /** The test for the last mutation is right exactly if no buried end entry comes next. */
  lemma {:induction false} LastMutationExact(c: Chk, pos: nat)
    requires ChkInv(c) && 1 <= pos < |c.items|
    ensures (LastMutationAt(c.items, pos) <==> NoneAfter(c.items, pos)) <==> !BuriedEndNext(c.items, pos)
  {
    hide DistinctKeys, NumKeyed;
    var f := FirstKeyed(c.items);
    if pos + 1 < |c.items| {
      assert Mutates(c.items[pos + 1]) || IsEnd(c.items[pos + 1]);
      if f < |c.items| && pos + 1 < f {
        assert Keyed(c.items[f]);
      }
    }
  }

  /** A checkpoint as a rollback can leave it: the start entry is taken for the last mutation although one follows. */
  lemma {:induction false} LastMutationCanBeWrong() returns (c: Chk)
    ensures ChkInv(c) && c.open && c.items == [DummyItem(), StartItem(1), EndItem(1), Item("a", OpSet, 0, 0)]
    ensures LastMutationAt(c.items, 1) && !NoneAfter(c.items, 1) && BuriedEndNext(c.items, 1)
  {
    var a := Item("a", OpSet, 0, 0);
    c := Chk(1, true, [DummyItem(), StartItem(1), EndItem(1), a]);
    assert Keyed(c.items[3]) && !Keyed(c.items[0]) && !Keyed(c.items[1]) && !Keyed(c.items[2]);
    assert FirstKeyed(c.items) == 3;
    assert c.items == [DummyItem(), StartItem(1), EndItem(1)] + [a];
    NumKeyedSnoc([DummyItem(), StartItem(1), EndItem(1)], a);
    assert [DummyItem(), StartItem(1), EndItem(1)] == [DummyItem(), StartItem(1)] + [EndItem(1)];
    NumKeyedSnoc([DummyItem(), StartItem(1)], EndItem(1));
    assert NewChk(1).items == [DummyItem(), StartItem(1)];
    NewChkKeyless(1);
  }

  lemma {:induction false} NeverDummy(c: Chk, pos: nat)
    requires ChkInv(c) && 1 <= pos < |c.items|
    ensures c.items[pos] != DummyItem()
  {
    hide DistinctKeys, NumKeyed, FirstKeyed;
    assert pos >= 2 ==> Mutates(c.items[pos]) || IsEnd(c.items[pos]);
  }

  /** The flag that comes with an entry: no mutation of its checkpoint is left, unless a buried end entry comes next. */
  lemma {:induction false} NextFlagMeaning(s: State, n: string)
    requires Inv(s) && n in s.cursors
    ensures var (s', it, last) := Next(s, n);
            && n in s'.cursors && CursorOk(s.chks, s'.cursors[n])
            && (it == DummyItem() ==> !last)
            && (it != DummyItem() ==>
                  var items, pos := s.chks[s'.cursors[n].chk].items, s'.cursors[n].pos;
                  it == items[pos] && ((last <==> NoneAfter(items, pos)) <==> !BuriedEndNext(items, pos)))
  {
    hide TotalWeight, NumKeyed, ChkInv, NoneAfter, BuriedEndNext, FirstKeyed;
    AllLong(s.chks);
    var (s', it, last) := Next(s, n);
    assert CursorOk(s.chks, s.cursors[n]);
    assert CursorOk(s.chks, s'.cursors[n]);
    if s'.cursors[n].pos >= 1 {
      assert ChkInv(s.chks[s'.cursors[n].chk]);
      LastMutationExact(s.chks[s'.cursors[n].chk], s'.cursors[n].pos);
      NeverDummy(s.chks[s'.cursors[n].chk], s'.cursors[n].pos);
    }
  }
}
