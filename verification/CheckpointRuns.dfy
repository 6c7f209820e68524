/**
 The operations of the checkpoint manager as steps of a run: each keeps the structural invariant,
 and each that only rearranges checkpoints keeps what they mean and what every cursor has ahead.
 */
module CheckpointRuns {
  import opened Options
  import opened QueuedItems
  import opened CheckpointLog
  import opened CheckpointFacts
  import opened CheckpointReplay

  datatype Op =
    | Queue(it: Item, env: Env)
    | Close(id: nat)
    | Check(force: bool, env: Env)
    | CleanUp(env: Env)
    | Start(id: nat)
    | Relabel(id: nat)
    | RegisterCursor(n: string, id: nat, closedOnly: bool, fromBeginning: bool)
    | RemoveCursor(n: string)
    | FetchAll(n: string)
    | FetchNext(n: string)
    | StepBack(n: string)
    | ClearAll(vbState: VBState)

  /** What the source demands of a caller. */
  predicate Enabled(s: State, op: Op)
    requires |s.chks| >= 1
  {
    match op
    case Queue(it, env) => Mutates(it) && (env.vbState == Active ==> Back(s).open)
    case Relabel(id) => |s.chks| > 1 ==> s.chks[|s.chks| - 2].id < id
    case RegisterCursor(n, _, _, _) => n != PERSISTENCE && n != ONLINE_UPDATE
    case RemoveCursor(n) => n != PERSISTENCE && n != ONLINE_UPDATE
    case _ => true
  }

  /** A checkpoint-start message rolls back when its id is not above the newest. */
  predicate RollsBack(s: State, id: nat)
    requires |s.chks| >= 1
  {
    id != 0 && Back(s).id != 0 && exists i | 0 <= i < |s.chks| :: s.chks[i].id >= id
  }

  function Step(s: State, op: Op): State
    requires Inv(s)
  {
    match op
    case Queue(it, env) => QueueDirty(s, it, env).0
    case Close(id) => CloseOpen(s, id)
    case Check(force, env) => CheckOpen(s, force, env).0
    case CleanUp(env) => RemoveClosedUnref(s, env).0
    case Start(id) => CheckAndAdd(s, id).0
    case Relabel(id) => SetOpenId(s, id)
    case RegisterCursor(n, id, closedOnly, fromBeginning) => Register(s, n, id, closedOnly, fromBeginning).0
    case RemoveCursor(n) => RemoveTap(s, n).0
    case FetchAll(n) => Fetch(s, n).0
    case FetchNext(n) => Next(s, n).0
    case StepBack(n) => DecrFromEnd(s, n)
    case ClearAll(vbState) => Clear(s, vbState)
  }

  /** Structural invariant of every run. */
  lemma {:induction false} StepKeepsInv(s: State, op: Op)
    requires Inv(s) && Enabled(s, op)
    ensures Inv(Step(s, op))
  {
    hide ChkInv, NumKeyed, TotalWeight, CheckOpen, CheckAndAdd, RemoveClosedUnref, QueueDirty, Next, CloseOpen, SetOpenId, Register;
    match op
    case Queue(it, env) => QueueDirtyKeepsInv(s, it, env);
    case Close(id) => CloseKeepsInv(s, id);
    case Check(force, env) => CheckOpenKeepsInv(s, force, env);
    case CleanUp(env) => RemoveClosedUnrefKeepsInv(s, env);
    case Start(id) => CheckAndAddKeepsInv(s, id);
    case Relabel(id) => SetOpenIdKeepsInv(s, id);
    case RegisterCursor(n, id, closedOnly, fromBeginning) => RegisterKeepsInv(s, n, id, closedOnly, fromBeginning);
    case RemoveCursor(n) =>
    case FetchAll(n) => if n in s.cursors { FetchRemaining(s, n); }
    case FetchNext(n) => NextKeepsInv(s, n);
    case StepBack(n) => StepBackKeepsInv(s, n);
    case ClearAll(vbState) => ClearKeepsInv(s, vbState);
  }

  lemma {:induction false} StepBackKeepsInv(s: State, n: string)
    requires Inv(s)
    ensures Inv(DecrFromEnd(s, n))
  {
    hide ListInv, TotalWeight;
    var s' := DecrFromEnd(s, n);
    forall k | k in s'.cursors ensures CursorOk(s'.chks, s'.cursors[k]) {
      CursorsParts(s.chks, s.cursors, k);
    }
  }

  // ---------------------------------------------------------------- registering a cursor

  predicate HasChk(chks: seq<Chk>, id: nat) {
    exists i | 0 <= i < |chks| :: chks[i].id == id
  }

  /** A registration goes on where a cursor of the name stands, if that is in the checkpoint asked for. */
  predicate Continues(s: State, n: string, id: nat, fromBeginning: bool) {
    !fromBeginning && n in s.cursors && s.cursors[n].chk < |s.chks| && s.chks[s.cursors[n].chk].id == id
  }

  /** The entries from the beginning of the checkpoint with an id, or of the newest one if none has it. */
  function FlatFrom(chks: seq<Chk>, id: nat): seq<Item> {
    if |chks| <= 1 || chks[0].id == id then Flat(chks) else FlatFrom(chks[1..], id)
  }

  lemma {:induction false} FlatFromAt(chks: seq<Chk>, id: nat)
    requires |chks| >= 1
    ensures var i := FindChk(chks, id); FlatFrom(chks, id) == Flat(chks[if i < |chks| then i else |chks| - 1..])
    decreases |chks|
  {
    hide Flat;
    if |chks| > 1 && chks[0].id != id {
      FlatFromAt(chks[1..], id);
    }
  }

  lemma {:induction false} FoundChk(chks: seq<Chk>, id: nat)
    ensures FindChk(chks, id) < |chks| <==> HasChk(chks, id)
  {
  }

  lemma {:induction false} AheadFromBeginning(chks: seq<Chk>, i: nat)
    requires i < |chks| && chks[i].items != []
    ensures Ahead(chks, i, 0) == Flat(chks[i..])
  {
    assert chks[i..][1..] == chks[i + 1..];
  }

  lemma {:induction false} FoundContinues(s: State, n: string, id: nat, fromBeginning: bool)
    requires ListInv(s.chks) && (n in s.cursors ==> CursorOk(s.chks, s.cursors[n]))
    ensures Continues(s, n, id, fromBeginning) <==>
              FindChk(s.chks, id) < |s.chks| && !fromBeginning && n in s.cursors && s.cursors[n].chk == FindChk(s.chks, id)
  {
    hide ChkInv;
    var i := FindChk(s.chks, id);
    if Continues(s, n, id, fromBeginning) {
      FoundChk(s.chks, id);
      assert s.chks[i].id == s.chks[s.cursors[n].chk].id;
    }
  }

  /**
   After a registration the cursor has everything ahead from the beginning of the checkpoint asked
   for, or from where it stands there; the result says whether there is such a checkpoint.
   */
  lemma {:induction false} RegisterMeaning(s: State, n: string, id: nat, closedOnly: bool, fromBeginning: bool)
    requires Inv(s)
    ensures |s.chks| >= 1 && (Register(s, n, id, closedOnly, fromBeginning).1 <==> HasChk(s.chks, id))
    ensures var s' := Register(s, n, id, closedOnly, fromBeginning).0;
            && s'.chks == s.chks && s'.numItems == s.numItems
            && n in s'.cursors && s'.cursors == s.cursors[n := s'.cursors[n]] && CursorOk(s'.chks, s'.cursors[n]) && s'.cursors[n].closedOnly == closedOnly
            && (n in s.cursors ==> CursorOk(s.chks, s.cursors[n]))
            && Remaining(s', n) == if Continues(s, n, id, fromBeginning) then Remaining(s, n) else FlatFrom(s.chks, id)
  {
    hide ListInv, TotalWeight, Flat, FlatFrom, Continues, Ahead, NumKeyed;
    ListNonEmpty(s.chks);
    AllLong(s.chks);
    if n in s.cursors {
      CursorsParts(s.chks, s.cursors, n);
    }
    var i := FindChk(s.chks, id);
    FoundChk(s.chks, id);
    FoundContinues(s, n, id, fromBeginning);
    FlatFromAt(s.chks, id);
    AheadFromBeginning(s.chks, if i < |s.chks| then i else |s.chks| - 1);
  }

  // ---------------------------------------------------------------- steps that accept and hand out nothing

  /** The new log says nothing the old one did not, and no cursor loses a key it still had ahead. */
  ghost predicate KeepsAhead(s: State, s': State, k: Key) {
    && Inv(s) && Inv(s')
    && (Replay(Flat(s'.chks), k).Some? ==> Replay(Flat(s'.chks), k) == Replay(Flat(s.chks), k))
    && (forall n :: n in s.cursors && n in s'.cursors ==> KeepsCursorAhead(s, s', n, k))
  }

  ghost predicate KeepsCursorAhead(s: State, s': State, n: string, k: Key) {
    && n in s.cursors && n in s'.cursors
    && CursorOk(s.chks, s.cursors[n]) && CursorOk(s'.chks, s'.cursors[n])
    && (Replay(Remaining(s, n), k).Some? ==> Replay(Remaining(s', n), k).Some?)
  }

  lemma {:induction false} KeepsAheadTransitive(s: State, s1: State, s2: State, k: Key)
    requires KeepsAhead(s, s1, k) && KeepsAhead(s1, s2, k)
    requires s.cursors.Keys == s1.cursors.Keys
    ensures KeepsAhead(s, s2, k)
  {
    hide Inv, Remaining, CursorOk, Replay, Flat;
    forall n | n in s.cursors && n in s2.cursors ensures KeepsCursorAhead(s, s2, n, k) {
      assert KeepsCursorAhead(s, s1, n, k);
      assert KeepsCursorAhead(s1, s2, n, k);
    }
  }

  /** Only the newest checkpoint changed, and from every old position on it replays as before. */
  ghost predicate SameFrom(items: seq<Item>, items': seq<Item>, k: Key) {
    && 1 <= |items| <= |items'|
    && forall p :: 1 <= p <= |items| ==> Replay(items'[p..], k) == Replay(items[p..], k)
  }

  lemma {:induction false} BackKeepsCursorAhead(s: State, s': State, n: string, k: Key)
    requires |s.chks| >= 1 && |s'.chks| == |s.chks|
    requires s'.cursors == s.cursors && s'.chks[..|s.chks| - 1] == s.chks[..|s.chks| - 1]
    requires n in s.cursors && CursorOk(s.chks, s.cursors[n]) && CursorOk(s'.chks, s'.cursors[n])
    requires SameFrom(Back(s).items, Back(s').items, k)
    ensures KeepsCursorAhead(s, s', n, k)
  {
    hide Replay, Flat;
    var last := |s.chks| - 1;
    RemainingSplit(s, n);
    RemainingSplit(s', n);
    var p := PosInBack(s, n);
    assert BeforeBack(s', n) == BeforeBack(s, n) by {
      var c := s.cursors[n];
      if c.chk != last {
        assert s'.chks[c.chk] == s'.chks[..last][c.chk] == s.chks[c.chk];
        assert s'.chks[c.chk + 1..last] == s'.chks[..last][c.chk + 1..] == s.chks[c.chk + 1..last];
      }
    }
    ReplayConcat(BeforeBack(s, n), Back(s).items[p + 1..], k);
    ReplayConcat(BeforeBack(s, n), Back(s').items[p + 1..], k);
  }

  lemma {:induction false} BackKeepsAhead(s: State, s': State, k: Key)
    requires Inv(s) && Inv(s') && |s'.chks| == |s.chks|
    requires s'.cursors == s.cursors && s'.chks[..|s.chks| - 1] == s.chks[..|s.chks| - 1]
    requires SameFrom(Back(s).items, Back(s').items, k)
    ensures KeepsAhead(s, s', k)
  {
    hide ChkInv, CursorsInv, TotalWeight, Replay, Flat, KeepsCursorAhead;
    SplitBack(s);
    SplitBack(s');
    ReplayConcat(Flat(s.chks[..|s.chks| - 1]), Tail(Back(s)), k);
    ReplayConcat(Flat(s.chks[..|s.chks| - 1]), Tail(Back(s')), k);
    assert Replay(Back(s').items[1..], k) == Replay(Back(s).items[1..], k);
    forall n | n in s.cursors ensures KeepsCursorAhead(s, s', n, k) {
      CursorsParts(s.chks, s.cursors, n);
      CursorsParts(s'.chks, s'.cursors, n);
      BackKeepsCursorAhead(s, s', n, k);
    }
  }

  lemma {:induction false} CloseKeepsAhead(s: State, id: nat, k: Key)
    requires Inv(s) && k != ""
    ensures KeepsAhead(s, CloseOpen(s, id), k)
    ensures CloseOpen(s, id).cursors == s.cursors
  {
    hide ChkInv, CursorsInv, TotalWeight, NumKeyed, Replay;
    CloseKeepsInv(s, id);
    var s' := CloseOpen(s, id);
    ListParts(s.chks, |s.chks| - 1);
    var items, items' := Back(s).items, Back(s').items;
    forall p | 1 <= p <= |items| ensures Replay(items'[p..], k) == Replay(items[p..], k) {
      if s' != s {
        assert items'[p..] == items[p..] + [EndItem(id)];
        ReplaySnoc(items[p..], EndItem(id), k);
      }
    }
    BackKeepsAhead(s, s', k);
  }

  lemma {:induction false} RelabelKeepsAhead(s: State, id: nat, k: Key)
    requires Inv(s) && k != ""
    requires |s.chks| > 1 ==> s.chks[|s.chks| - 2].id < id
    ensures KeepsAhead(s, SetOpenId(s, id), k)
    ensures SetOpenId(s, id).cursors == s.cursors
  {
    hide CursorsInv, TotalWeight, NumKeyed, Replay, DistinctKeys, FirstKeyed;
    SetOpenIdKeepsInv(s, id);
    var s' := SetOpenId(s, id);
    ListParts(s.chks, |s.chks| - 1);
    var items, items' := Back(s).items, Back(s').items;
    forall p | 1 <= p <= |items| ensures Replay(items'[p..], k) == Replay(items[p..], k) {
      if p == 1 {
        assert items[1..] == [items[1]] + items[2..];
        assert items'[1..] == [items'[1]] + items[2..];
        ReplayConcat([items[1]], items[2..], k);
        ReplayConcat([items'[1]], items[2..], k);
        ReplayKeyless([items[1]], k);
        ReplayKeyless([items'[1]], k);
      } else {
        assert items'[p..] == items[p..];
      }
    }
    BackKeepsAhead(s, s', k);
  }

  lemma {:induction false} AppendKeepsCursorAhead(s: State, id: nat, n: string, k: Key)
    requires |s.chks| >= 1 && k != "" && n in s.cursors && CursorOk(s.chks, s.cursors[n])
    ensures KeepsCursorAhead(s, s.(chks := s.chks + [NewChk(id)]), n, k)
  {
    hide Replay;
    var s' := s.(chks := s.chks + [NewChk(id)]);
    var c := s.cursors[n];
    assert s'.chks[c.chk + 1..] == s.chks[c.chk + 1..] + [NewChk(id)];
    FlatConcat(s.chks[c.chk + 1..], [NewChk(id)]);
    Single(NewChk(id));
    hide Flat;
    assert Tail(NewChk(id)) == [StartItem(id)];
    ConcatAssociative(s.chks[c.chk].items[c.pos + 1..], Flat(s.chks[c.chk + 1..]), [StartItem(id)]);
    assert Remaining(s', n) == Remaining(s, n) + [StartItem(id)];
    ReplaySnoc(Remaining(s, n), StartItem(id), k);
  }

  lemma {:induction false} AddNewKeepsAhead(s: State, id: nat, k: Key)
    requires Inv(s) && Back(s).id < id && k != ""
    ensures KeepsAhead(s, AddNew(s, id), k)
    ensures AddNew(s, id).cursors == s.cursors
  {
    hide ChkInv, CursorsInv, TotalWeight, NumKeyed, Replay, Flat, KeepsCursorAhead, CloseOpen;
    AddNewKeepsInv(s, id);
    var s1, s' := CloseOpen(s, Back(s).id), AddNew(s, id);
    CloseKeepsAhead(s, Back(s).id, k);
    FlatConcat(s1.chks, [NewChk(id)]);
    Single(NewChk(id));
    assert Tail(NewChk(id)) == [StartItem(id)];
    ReplaySnoc(Flat(s1.chks), StartItem(id), k);
    forall n | n in s1.cursors ensures KeepsCursorAhead(s1, s', n, k) {
      CursorsParts(s1.chks, s1.cursors, n);
      AppendKeepsCursorAhead(s1, id, n, k);
      SameListsKeepAhead(s1, s1.(chks := s'.chks), s', n, k);
    }
    KeepsAheadTransitive(s, s1, s', k);
  }

  lemma {:induction false} SameListsKeepAhead(s: State, s1: State, s2: State, n: string, k: Key)
    requires KeepsCursorAhead(s, s1, n, k)
    requires s2.chks == s1.chks && s2.cursors == s1.cursors
    ensures KeepsCursorAhead(s, s2, n, k)
  {
  }

  lemma {:induction false} CheckOpenKeepsAhead(s: State, force: bool, env: Env, k: Key)
    requires Inv(s) && k != ""
    ensures KeepsAhead(s, CheckOpen(s, force, env).0, k)
    ensures CheckOpen(s, force, env).0.cursors == s.cursors
  {
    hide ChkInv, CursorsInv, TotalWeight, NumKeyed, Replay, Flat, KeepsCursorAhead, CloseOpen, AddNew;
    var b := Back(s);
    var s1 := CloseOpen(s, b.id);
    CloseKeepsInv(s, b.id);
    CloseKeepsAhead(s, b.id, k);
    AddNewKeepsAhead(s1, b.id + 1, k);
    KeepsAheadTransitive(s, s1, AddNew(s1, b.id + 1), k);
    KeepsAheadReflexive(s, k);
  }

  lemma {:induction false} KeepsAheadReflexive(s: State, k: Key)
    requires Inv(s)
    ensures KeepsAhead(s, s, k)
  {
    hide ListInv, TotalWeight, Replay, Flat, CursorOk, Remaining;
  }

  // ---------------------------------------------------------------- dropping and collapsing

  lemma {:induction false} DropFrontKeepsAhead(s: State, r: nat, k: Key)
    requires Inv(s) && r <= LeadingUnref(s, 0)
    ensures KeepsAhead(s, DropFront(s, r), k)
    ensures DropFront(s, r).cursors.Keys == s.cursors.Keys
  {
    hide ChkInv, CursorsInv, TotalWeight, NumKeyed, Replay, Flat, KeepsCursorAhead, LeadingUnref;
    DropFrontKeepsInv(s, r);
    var s' := DropFront(s, r);
    SplitAt(s.chks, r);
    ReplayConcat(Flat(s.chks[..r]), Flat(s'.chks), k);
    forall n | n in s.cursors ensures KeepsCursorAhead(s, s', n, k) {
      LeadingUnrefBeforeCursors(s, n);
      CursorsParts(s.chks, s.cursors, n);
      DropFrontKeepsCursorAhead(s, r, n, k);
    }
  }

  lemma {:induction false} DropFrontKeepsCursorAhead(s: State, r: nat, n: string, k: Key)
    requires n in s.cursors && CursorOk(s.chks, s.cursors[n]) && r <= s.cursors[n].chk
    ensures KeepsCursorAhead(s, DropFront(s, r), n, k)
  {
    var c := s.cursors[n];
    assert s.chks[r..][c.chk - r + 1..] == s.chks[c.chk + 1..];
  }

  /** Merged entries sit between the bookkeeping entries and the checkpoint's own mutations. */
  lemma {:induction false} MergeAllShape(chks: seq<Chk>, cur: seq<Item>)
    ensures var f, r := FirstKeyed(cur), MergeAll(chks, cur);
            && |cur| <= |r| && r[..f] == cur[..f] && r[f + |r| - |cur|..] == cur[f..]
    decreases |chks|
  {
    if chks != [] {
      var l := |chks| - 1;
      var mid := Merge(chks[l].items, cur);
      MergeKeepsFirst(chks[l].items, cur);
      MergeAllShape(chks[..l], mid);
      var f, r, m := FirstKeyed(cur), MergeAll(chks, cur), Missing(chks[l].items, cur);
      assert r == MergeAll(chks[..l], mid);
      hide MergeAll, Missing, FirstKeyed;
      assert mid[..f] == cur[..f];
      assert mid[f..] == m + cur[f..];
      assert r[f + |r| - |cur|..] == r[f + |r| - |mid|..][|m|..];
    }
  }

  lemma {:induction false} CollapseList(s: State, lc: nat)
    requires lc < |s.chks| && MergeAll(s.chks[..lc], s.chks[lc].items) != []
    ensures Flat(CollapseInto(s, lc).chks) == MergeAll(s.chks[..lc], s.chks[lc].items)[1..] + Flat(s.chks[lc + 1..])
  {
    hide MergeAll, TotalWeight;
    var m := s.chks[lc].(items := MergeAll(s.chks[..lc], s.chks[lc].items));
    FlatConcat([m], s.chks[lc + 1..]);
    Single(m);
  }

  lemma {:induction false} PrefixClosed(chks: seq<Chk>, lc: nat)
    requires ListInv(chks) && lc < |chks|
    ensures forall i :: 0 <= i < lc ==> ChkInv(chks[..lc][i]) && !chks[..lc][i].open
  {
    hide ChkInv;
  }

  lemma {:induction false} CollapseFlat(s: State, lc: nat, k: Key)
    requires Inv(s) && lc < |s.chks| && k != ""
    ensures Replay(Flat(CollapseInto(s, lc).chks), k) == Replay(Flat(s.chks), k)
    ensures |MergeAll(s.chks[..lc], s.chks[lc].items)| >= 1
    ensures Flat(CollapseInto(s, lc).chks) == MergeAll(s.chks[..lc], s.chks[lc].items)[1..] + Flat(s.chks[lc + 1..])
  {
    hide ListInv, CursorsInv, TotalWeight, NumKeyed, Replay, ChkInv, MergeAll, CollapseInto, Flat;
    var c := s.chks[lc];
    var m := c.(items := MergeAll(s.chks[..lc], c.items));
    ListParts(s.chks, lc);
    PrefixClosed(s.chks, lc);
    MergeAllKeepsChk(s.chks[..lc], c);
    ReplayMergeAll(s.chks[..lc], c, k);
    CollapseList(s, lc);
    SplitAt(s.chks, lc);
    FlatHead(s.chks, lc);
    ReplayTail(c, k);
    ReplayTail(m, k);
    CollapseParts(Flat(s.chks[..lc]), c.items, Tail(c), m.items, Tail(m), Flat(s.chks[lc + 1..]), k);
  }

  lemma {:induction false} CollapseParts(
      before: seq<Item>, items: seq<Item>, tail: seq<Item>, merged: seq<Item>, mtail: seq<Item>, after: seq<Item>, k: Key)
    requires Replay(tail, k) == Replay(items, k) && Replay(mtail, k) == Replay(merged, k)
    requires Replay(merged, k) == Replay(before + items, k)
    ensures Replay(mtail + after, k) == Replay(before + (tail + after), k)
  {
    hide Replay;
    ReplayConcat(mtail, after, k);
    ReplayConcat(before, items, k);
    ReplayConcat(before, tail + after, k);
    ReplayConcat(tail, after, k);
  }

  lemma {:induction false} CollapsedPart(chks: seq<Chk>, cur: seq<Item>, p: nat, k: Key)
    requires p < |cur|
    ensures var f, r := FirstKeyed(cur), MergeAll(chks, cur);
            && |cur| <= |r|
            && var p' := if p >= f then p + |r| - |cur| else p;
               Replay(cur[p + 1..], k).Some? ==> Replay(r[p' + 1..], k).Some?
  {
    hide MergeAll, FirstKeyed, Replay;
    MergeAllShape(chks, cur);
    var f, r := FirstKeyed(cur), MergeAll(chks, cur);
    var added := |r| - |cur|;
    if p >= f {
      assert r[p + added + 1..] == r[f + added..][p + 1 - f..] == cur[f..][p + 1 - f..] == cur[p + 1..];
    } else {
      PutBetween(cur, r, p + 1, f, added, k);
    }
  }

  lemma {:induction false} PutBetween(cur: seq<Item>, r: seq<Item>, p: nat, f: nat, added: nat, k: Key)
    requires p <= f <= |cur| && |r| == |cur| + added && r[..f] == cur[..f] && r[f + added..] == cur[f..]
    ensures Replay(cur[p..], k).Some? ==> Replay(r[p..], k).Some?
  {
    hide Replay;
    var a, m, b := cur[p..f], r[f..f + added], cur[f..];
    assert cur[p..] == a + b;
    assert r[p..f] == r[..f][p..] == cur[..f][p..] == a;
    assert r[p..] == a + (m + b) by {
      assert r == r[..f] + r[f..f + added] + r[f + added..];
    }
    ReplayConcat(a, b, k);
    ReplayConcat(a, m + b, k);
    ReplayConcat(m, b, k);
  }

  lemma {:induction false} CollapseKeepsCursorAhead(s: State, lc: nat, n: string, k: Key)
    requires Inv(s) && lc < |s.chks| && k != "" && n in s.cursors
    requires CursorOk(s.chks, s.cursors[n])
    requires CursorOk(CollapseInto(s, lc).chks, CollapseInto(s, lc).cursors[n])
    ensures KeepsCursorAhead(s, CollapseInto(s, lc), n, k)
  {
    hide ListInv, CursorsInv, TotalWeight, NumKeyed, Replay, FirstKeyed, MergeAll;
    var s', c, cur := CollapseInto(s, lc), s.cursors[n], s.chks[lc].items;
    var r := MergeAll(s.chks[..lc], cur);
    CollapseIntoWeights(s, lc);
    assert s'.chks[1..] == s.chks[lc + 1..];
    if c.chk < lc {
      CollapseFlat(s, lc, k);
      RemainingIsSuffix(s, n, k);
      assert Remaining(s', n) == Flat(s'.chks);
    } else if c.chk == lc {
      CollapsedPart(s.chks[..lc], cur, c.pos, k);
      var p' := s'.cursors[n].pos;
      ReplayConcat(cur[c.pos + 1..], Flat(s.chks[lc + 1..]), k);
      ReplayConcat(r[p' + 1..], Flat(s.chks[lc + 1..]), k);
    } else {
      assert s'.chks[c.chk - lc + 1..] == s.chks[c.chk + 1..];
    }
  }

  lemma {:induction false} CollapseClosedKeepsAhead(s: State, k: Key)
    requires Inv(s) && k != ""
    ensures KeepsAhead(s, CollapseClosed(s), k)
    ensures CollapseClosed(s).cursors.Keys == s.cursors.Keys
  {
    hide ChkInv, CursorsInv, TotalWeight, NumKeyed, Replay, Flat, KeepsCursorAhead;
    if |s.chks| > 2 {
      var lc := |s.chks| - 2;
      CollapseIntoKeepsInv(s, lc);
      CollapseFlat(s, lc, k);
      forall n | n in s.cursors ensures KeepsCursorAhead(s, CollapseInto(s, lc), n, k) {
        CursorsParts(s.chks, s.cursors, n);
        CursorsParts(CollapseInto(s, lc).chks, CollapseInto(s, lc).cursors, n);
        CollapseKeepsCursorAhead(s, lc, n, k);
      }
    } else {
      KeepsAheadReflexive(s, k);
    }
  }

  lemma {:induction false} SteppedOverAhead(chks: seq<Chk>, c: Cursor, oldId: nat)
    requires CursorOk(chks, c) && forall i :: 0 <= i < |chks| ==> |chks[i].items| >= 1
    ensures CursorOk(chks, SteppedOver(chks, c, oldId))
    ensures Ahead(chks, SteppedOver(chks, c, oldId).chk, SteppedOver(chks, c, oldId).pos) == Ahead(chks, c.chk, c.pos)
  {
    hide Ahead;
    if SteppedOver(chks, c, oldId) != c {
      AheadMove(chks, c.chk);
    }
  }

  lemma {:induction false} StepOverKeepsAhead(s: State, oldId: nat, k: Key)
    requires Inv(s) && k != ""
    ensures KeepsAhead(s, StepOver(s, oldId), k)
    ensures StepOver(s, oldId).cursors.Keys == s.cursors.Keys
  {
    hide ListInv, CursorsInv, TotalWeight, Replay, Flat, SteppedOver;
    StepOverKeepsInv(s, oldId);
    forall i | 0 <= i < |s.chks| ensures |s.chks[i].items| >= 1 {
      ListParts(s.chks, i);
    }
    forall n | n in s.cursors ensures KeepsCursorAhead(s, StepOver(s, oldId), n, k) {
      CursorsParts(s.chks, s.cursors, n);
      SteppedOverAhead(s.chks, s.cursors[n], oldId);
    }
  }

  lemma {:induction false} OpenIfDueKeepsAhead(s: State, env: Env, k: Key)
    requires Inv(s) && k != ""
    ensures KeepsAhead(s, OpenIfDue(s, env).0, k)
    ensures OpenIfDue(s, env).0.cursors.Keys == s.cursors.Keys
  {
    hide ListInv, CursorsInv, TotalWeight, CheckOpen, HighMemCreation, CreatesCheckpoints, StepOver, KeepsAhead;
    ListNonEmpty(s.chks);
    KeepsAheadReflexive(s, k);
    var force := HighMemCreation(s, env);
    var (s1, oldId) := CheckOpen(s, force, env);
    CheckOpenKeepsInv(s, force, env);
    CheckOpenKeepsAhead(s, force, env, k);
    StepOverKeepsAhead(s1, oldId, k);
    KeepsAheadTransitive(s, s1, StepOver(s1, oldId), k);
  }

  lemma {:induction false} CleanUpKeepsAhead(s: State, env: Env, k: Key)
    requires Inv(s) && k != ""
    ensures KeepsAhead(s, RemoveClosedUnref(s, env).0, k)
    ensures RemoveClosedUnref(s, env).0.cursors.Keys == s.cursors.Keys
  {
    hide ChkInv, CursorsInv, TotalWeight, ClosedAtEnd, NumKeyed, OpenIfDue, CollapseClosed,
         LeadingUnref, KeepsAhead, DropFront;
    var s1 := OpenIfDue(s, env).0;
    OpenIfDueKeepsInv(s, env);
    OpenIfDueKeepsAhead(s, env, k);
    var r := if env.keepClosed && LeadingUnref(s1, 0) > 1 then 1 else LeadingUnref(s1, 0);
    DropFrontKeepsInv(s1, r);
    DropFrontKeepsAhead(s1, r, k);
    KeepsAheadTransitive(s, s1, DropFront(s1, r), k);
    CollapseClosedKeepsAhead(DropFront(s1, r), k);
    KeepsAheadTransitive(s, DropFront(s1, r), CollapseClosed(DropFront(s1, r)), k);
  }

  // ---------------------------------------------------------------- rollback

  lemma {:induction false} ReplayReopen(c: Chk, id: nat, k: Key)
    requires ChkInv(c) && k != ""
    ensures |Reopen(c).items| >= 2
    ensures Replay(Reopen(c).items[1 := StartItem(id)], k) == Replay(c.items, k)
  {
    hide NumKeyed, FirstKeyed, DistinctKeys, Replay;
    ReopenKeepsChk(c);
    var items := Reopen(c).items;
    var r := items[1 := StartItem(id)];
    assert Replay(items, k) == Replay(c.items, k) by {
      var l := |c.items| - 1;
      if items != c.items {
        assert c.items == items + [c.items[l]];
        ReplaySnoc(items, c.items[l], k);
      }
    }
    ReplayWithout(items, 1, k);
    ReplayWithout(r, 1, k);
    assert Without(items, 1) == Without(r, 1);
  }

  /** A rollback leaves one open checkpoint that replays like everything before, with every cursor at its start. */
  lemma {:induction false} RollbackMeaning(s: State, id: nat, k: Key)
    requires Inv(s) && k != ""
    ensures Inv(Rollback(s, id)) && |Rollback(s, id).chks| == 1
    ensures Back(Rollback(s, id)).open && Back(Rollback(s, id)).id == id
    ensures Replay(Flat(Rollback(s, id).chks), k) == Replay(Flat(s.chks), k)
    ensures Rollback(s, id).numItems == NumKeyed(Back(Rollback(s, id)).items) + 1
    ensures Rollback(s, id).cursors.Keys == s.cursors.Keys
    ensures forall n :: n in s.cursors ==>
              var c := Rollback(s, id).cursors[n]; c.chk == 0 && c.pos == 0 && c.offset == 0
  {
    hide CursorsInv, TotalWeight, NumKeyed, FirstKeyed, DistinctKeys, Replay, MergeAll, Reopen;
    RollbackKeepsInv(s, id);
    RollbackChk(s, id);
    var last := |s.chks| - 1;
    var m := s.chks[last].(items := MergeAll(s.chks[..last], s.chks[last].items));
    CollapseIntoWeights(s, last);
    ReplayReopen(m, id, k);
    Single(RolledBack(s, id));
    ReplayTail(RolledBack(s, id), k);
    CollapseFlat(s, last, k);
    assert s.chks[last + 1..] == [];
    assert Flat([]) == [];
    assert m.items[1..] + [] == m.items[1..];
    ReplayTail(m, k);
  }

  lemma {:induction false} RollbackKeepsAhead(s: State, id: nat, k: Key)
    requires Inv(s) && k != ""
    ensures KeepsAhead(s, Rollback(s, id), k)
    ensures Rollback(s, id).cursors.Keys == s.cursors.Keys
  {
    hide ChkInv, CursorsInv, TotalWeight, NumKeyed, Replay, Rollback;
    RollbackMeaning(s, id, k);
    var s' := Rollback(s, id);
    forall n | n in s.cursors ensures KeepsCursorAhead(s, s', n, k) {
      CursorsParts(s.chks, s.cursors, n);
      CursorsParts(s'.chks, s'.cursors, n);
      RemainingIsSuffix(s, n, k);
      assert s'.chks[1..] == [];
      assert Remaining(s', n) == Flat(s'.chks);
    }
  }

  lemma {:induction false} StartKeepsAhead(s: State, id: nat, k: Key)
    requires Inv(s) && k != ""
    ensures KeepsAhead(s, CheckAndAdd(s, id).0, k)
    ensures CheckAndAdd(s, id).0.cursors.Keys == s.cursors.Keys
  {
    hide ChkInv, CursorsInv, TotalWeight, NumKeyed, Replay, Rollback, KeepsAhead, AddNew, SetOpenId;
    if id == 0 {
      KeepsAheadReflexive(s, k);
    } else if Back(s).id == 0 {
      var first := s.chks[0];
      assert |s.chks| == 1;
      RelabelKeepsAhead(s, id, k);
    } else if forall i | 0 <= i < |s.chks| :: s.chks[i].id < id {
      AddNewKeepsAhead(s, id, k);
    } else {
      RollbackKeepsAhead(s, id, k);
    }
  }
}
