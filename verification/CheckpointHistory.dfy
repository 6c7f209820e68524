/**
 No mutation is lost: over every run, what a cursor has been handed followed by what it still
 has ahead replays like what its registration asked for and the mutations accepted since.

 A history remembers the raw log of accepted mutations since the last clear and, for every
 cursor, the entries from the checkpoint it was registered for on, followed by the mutations
 accepted since then, and the entries it has been handed.
 */
module CheckpointHistory {
  import opened Options
  import opened QueuedItems
  import opened CheckpointLog
  import opened CheckpointFacts
  import opened CheckpointReplay
  import opened CheckpointRuns

  datatype Hist = Hist(
    s: State,
    log: seq<Item>,                    // accepted since the last clear
    since: map<string, seq<Item>>,     // owed to each cursor: from its checkpoint on, and accepted since
    got: map<string, seq<Item>>)       // handed out through each cursor

  function InitHist(id: nat): Hist {
    Hist(Init(id), [], map[PERSISTENCE := []], map[PERSISTENCE := []])
  }

  /** One operation; an operation its caller may not invoke changes nothing. */
  ghost function HStep(h: Hist, op: Op): Hist {
    if !Inv(h.s) || !Enabled(h.s, op) then h
    else
      var h' := h.(s := Step(h.s, op));
      match op
      case Queue(it, env) =>
        if Accepts(h.s, env)
        then h'.(log := h.log + [it], since := map n | n in h.since :: h.since[n] + [it])
        else h'
      case FetchAll(n) =>
        if n in h.s.cursors && n in h.got then h'.(got := h.got[n := h.got[n] + Fetch(h.s, n).1]) else h'
      case FetchNext(n) =>
        if n in h.s.cursors && n in h.got then h'.(got := h.got[n := h.got[n] + [Next(h.s, n).1]]) else h'
      case RegisterCursor(n, id, _, fromBeginning) =>
        if Continues(h.s, n, id, fromBeginning) then h'
        else h'.(since := h.since[n := FlatFrom(h.s.chks, id)], got := h.got[n := []])
      case RemoveCursor(n) => h'.(since := h.since - {n}, got := h.got - {n})
      case ClearAll(_) => h'.(log := [], since := map n | n in h.since :: [], got := map n | n in h.got :: [])
      case _ => h'
  }

  ghost function Run(h: Hist, ops: seq<Op>): Hist
    decreases |ops|
  {
    if ops == [] then h else Run(HStep(h, ops[0]), ops[1..])
  }

  // ---------------------------------------------------------------- the invariant of a history

  ghost predicate Shaped(h: Hist) {
    && Inv(h.s)
    && h.since.Keys == h.s.cursors.Keys
    && h.got.Keys == h.s.cursors.Keys
    && h.since[PERSISTENCE] == h.log
  }

  /** The list and the cursor tell the truth about a key. */
  ghost predicate CursorHonest(h: Hist, n: string, k: Key)
    requires n in h.since && n in h.got && n in h.s.cursors && CursorOk(h.s.chks, h.s.cursors[n])
  {
    Replay(h.since[n], k).Some? ==>
      && Replay(h.since[n], k) == Replay(h.log, k)
      && (Replay(Remaining(h.s, n), k).Some? || Replay(h.got[n], k) == Replay(h.log, k))
  }

  ghost predicate ListHonest(h: Hist, k: Key) {
    Replay(Flat(h.s.chks), k).Some? ==> Replay(Flat(h.s.chks), k) == Replay(h.log, k)
  }

  ghost predicate HonestAt(h: Hist, k: Key)
    requires Shaped(h)
  {
    && ListHonest(h, k)
    && (forall n :: n in h.s.cursors ==> CursorHonest(h, n, k))
    && (Replay(h.got[PERSISTENCE], k).Some? ==> Replay(h.log, k).Some?)
  }

  ghost predicate HInv(h: Hist) {
    Shaped(h) && forall k :: k != "" ==> HonestAt(h, k)
  }

  lemma {:induction false} ShapedParts(h: Hist, n: string)
    requires Shaped(h) && n in h.s.cursors
    ensures n in h.since && n in h.got && CursorOk(h.s.chks, h.s.cursors[n])
  {
    hide ListInv, TotalWeight;
    CursorsParts(h.s.chks, h.s.cursors, n);
  }

  // ---------------------------------------------------------------- steps

  lemma {:induction false} QuietStep(h: Hist, s': State, k: Key)
    requires Shaped(h) && HonestAt(h, k)
    requires KeepsAhead(h.s, s', k) && s'.cursors.Keys == h.s.cursors.Keys
    ensures Shaped(h.(s := s')) && HonestAt(h.(s := s'), k)
  {
    hide Inv, Replay, Flat, Remaining;
    var h' := h.(s := s');
    forall n | n in s'.cursors ensures CursorHonest(h', n, k) {
      assert KeepsCursorAhead(h.s, s', n, k);
      assert CursorHonest(h, n, k);
    }
  }

  ghost function Accept(h: Hist, it: Item): Hist
    requires |h.s.chks| >= 1
  {
    Hist(Enqueue(h.s, it), h.log + [it], map n | n in h.since :: h.since[n] + [it], h.got)
  }

  lemma {:induction false} EnqueueFlat(s: State, it: Item, k: Key)
    requires Inv(s) && Keyed(it) && k != ""
    ensures Replay(Flat(Enqueue(s, it).chks), k) == if it.key == k then Some(ChangeOf(it)) else Replay(Flat(s.chks), k)
  {
    hide ListInv, TotalWeight, NumKeyed, Replay, Requeue, CursorOk;
    BackParts(s, it.key, PERSISTENCE);
    var items, s' := Back(s).items, Enqueue(s, it);
    var before := Flat(s.chks[..|s.chks| - 1]);
    SplitBack(s);
    SplitBack(s');
    assert s'.chks[..|s.chks| - 1] == s.chks[..|s.chks| - 1];
    hide Flat;
    assert ChkInv(Back(s)) by { ListParts(s.chks, |s.chks| - 1); }
    ReplayTail(Back(s), k);
    assert Replay(Requeue(items, it)[1..], k) == Replay(Requeue(items, it), k) by { RequeueTail(items, it, k); }
    ReplayRequeue(items, it, k);
    ReplayConcat(before, Tail(Back(s)), k);
    ReplayConcat(before, Requeue(items, it)[1..], k);
  }

  lemma {:induction false} RequeueTail(items: seq<Item>, it: Item, k: Key)
    requires |items| >= 1 && !Keyed(items[0]) && k != "" && Keyed(it)
    ensures |Requeue(items, it)| >= 1
    ensures Replay(Requeue(items, it)[1..], k) == Replay(Requeue(items, it), k)
  {
    hide Replay;
    var r := Requeue(items, it);
    RequeueAt(items, it, 0);
    assert r == [r[0]] + r[1..];
    ReplayConcat([r[0]], r[1..], k);
    ReplayKeyless([r[0]], k);
  }

  lemma {:induction false} EnqueueAhead(s: State, it: Item, n: string, k: Key)
    requires Inv(s) && Keyed(it) && n in s.cursors && k != ""
    ensures CursorOk(s.chks, s.cursors[n]) && CursorOk(Enqueue(s, it).chks, Enqueue(s, it).cursors[n])
    ensures Replay(Remaining(Enqueue(s, it), n), k)
            == if it.key == k then Some(ChangeOf(it)) else Replay(Remaining(s, n), k)
  {
    hide ListInv, CursorsInv, TotalWeight, NumKeyed, Replay, Enqueue, Remaining, Flat;
    EnqueueRemaining(s, it, n);
    BackParts(s, it.key, n);
    var items := Back(s).items;
    var at := FindKey(items, it.key);
    ReplaySnoc(RemainingAfter(s, n, it), if at < |items| then it.(queuedTime := items[at].queuedTime) else it, k);
    RemainingAfterReplay(s, n, it, k);
  }

  lemma {:induction false} RemainingAfterReplay(s: State, n: string, it: Item, k: Key)
    requires |s.chks| >= 1 && |Back(s).items| >= 1
    requires n in s.cursors && CursorOk(s.chks, s.cursors[n])
    ensures it.key != k ==> Replay(RemainingAfter(s, n, it), k) == Replay(Remaining(s, n), k)
  {
    hide Replay, Flat;
    var items, p, bb := Back(s).items, PosInBack(s, n), BeforeBack(s, n);
    var at := FindKey(items, it.key);
    RemainingSplit(s, n);
    if p < at < |items| && it.key != k {
      var a, b := items[p + 1..at], items[at + 1..];
      assert items[p + 1..] == a + [items[at]] + b;
      ReplayConcat(bb, a + [items[at]] + b, k);
      ReplayConcat(a + [items[at]], b, k);
      ReplaySnoc(a, items[at], k);
      ReplayConcat(bb + a, b, k);
      ReplayConcat(bb, a, k);
    }
  }

  lemma {:induction false} AcceptStep(h: Hist, it: Item, k: Key)
    requires Shaped(h) && HonestAt(h, k) && k != ""
    requires |h.s.chks| >= 1 && Back(h.s).open && Mutates(it)
    ensures Shaped(Accept(h, it)) && HonestAt(Accept(h, it), k)
  {
    hide ListInv, CursorsInv, TotalWeight, Replay, Flat, Remaining, FindKey, CursorOk;
    EnqueueKeepsInv(h.s, it);
    var h' := Accept(h, it);
    assert h'.s.cursors.Keys == h.s.cursors.Keys;
    ReplaySnoc(h.log, it, k);
    EnqueueFlat(h.s, it, k);
    forall n | n in h.s.cursors
      ensures CursorOk(h'.s.chks, h'.s.cursors[n]) && CursorHonest(h', n, k)
    {
      ShapedParts(h, n);
      assert CursorHonest(h, n, k);
      EnqueueAhead(h.s, it, n, k);
      ReplaySnoc(h.since[n], it, k);
    }
  }

  lemma {:induction false} QueueStep(h: Hist, it: Item, env: Env, k: Key)
    requires Shaped(h) && HonestAt(h, k) && k != ""
    requires Enabled(h.s, Queue(it, env))
    ensures Shaped(HStep(h, Queue(it, env))) && HonestAt(HStep(h, Queue(it, env)), k)
  {
    hide ChkInv, CursorsInv, TotalWeight, NumKeyed, HonestAt, CheckOpen, Enqueue, KeepsAhead, CreatesCheckpoints;
    if Accepts(h.s, env) {
      AcceptStep(h, it, k);
      var h1 := Accept(h, it);
      CheckOpenKeepsAhead(h1.s, false, env, k);
      QuietStep(h1, CheckOpen(h1.s, false, env).0, k);
    }
  }

  /** Handing out entries moves them from ahead of the cursor to what it got. */
  lemma {:induction false} HandOut(h: Hist, n: string, s': State, items: seq<Item>, k: Key)
    requires Shaped(h) && HonestAt(h, k) && k != ""
    requires Inv(s') && n in h.s.cursors && n in h.got
    requires s'.chks == h.s.chks && s'.cursors.Keys == h.s.cursors.Keys
    requires forall m :: m in h.s.cursors && m != n ==> s'.cursors[m] == h.s.cursors[m]
    requires CursorOk(h.s.chks, h.s.cursors[n]) && CursorOk(s'.chks, s'.cursors[n])
    requires Replay(Remaining(h.s, n), k) == Replay(items + Remaining(s', n), k)
    requires Replay(items, k).Some? ==> Replay(Flat(h.s.chks), k).Some?
    ensures var h' := h.(s := s', got := h.got[n := h.got[n] + items]); Shaped(h') && HonestAt(h', k)
  {
    hide ListInv, CursorsInv, TotalWeight, Replay, Flat, Ahead;
    var h' := h.(s := s', got := h.got[n := h.got[n] + items]);
    ReplayConcat(items, Remaining(s', n), k);
    ReplayConcat(h.got[n], items, k);
    RemainingIsSuffix(h.s, n, k);
    forall m | m in s'.cursors ensures CursorOk(s'.chks, s'.cursors[m]) && CursorHonest(h', m, k) {
      ShapedParts(h, m);
      assert CursorHonest(h, m, k);
      CursorsParts(s'.chks, s'.cursors, m);
    }
  }

  lemma {:induction false} FetchStep(h: Hist, n: string, k: Key)
    requires Shaped(h) && HonestAt(h, k) && k != ""
    ensures Shaped(HStep(h, FetchAll(n))) && HonestAt(HStep(h, FetchAll(n)), k)
  {
    hide ChkInv, CursorsInv, TotalWeight, Replay, Flat, HonestAt, Ahead;
    if n in h.s.cursors {
      ShapedParts(h, n);
      FetchRemaining(h.s, n);
      var (s', items, id) := Fetch(h.s, n);
      assert items + Remaining(s', n) == items;
      RemainingIsSuffix(h.s, n, k);
      HandOut(h, n, s', items, k);
    } else {
      assert HStep(h, FetchAll(n)) == h;
    }
  }

  lemma {:induction false} NextStep(h: Hist, n: string, k: Key)
    requires Shaped(h) && HonestAt(h, k) && k != ""
    ensures Shaped(HStep(h, FetchNext(n))) && HonestAt(HStep(h, FetchNext(n)), k)
  {
    hide ChkInv, CursorsInv, TotalWeight, Replay, Flat, HonestAt, Ahead, Next;
    if n in h.s.cursors {
      ShapedParts(h, n);
      NextKeepsInv(h.s, n);
      NextMovesCursor(h.s, n);
      NextRemaining(h.s, n);
      var (s', it, last) := Next(h.s, n);
      NextReplay(h.s, n, k);
      RemainingIsSuffix(h.s, n, k);
      ReplayConcat([it], Remaining(s', n), k);
      HandOut(h, n, s', [it], k);
    } else {
      NextWithoutCursor(h.s, n);
      assert HStep(h, FetchNext(n)) == h;
    }
  }

  lemma {:induction false} NextWithoutCursor(s: State, n: string)
    requires Inv(s) && n !in s.cursors
    ensures Next(s, n) == (s, DummyItem(), false)
  {
  }

  lemma {:induction false} NextReplay(s: State, n: string, k: Key)
    requires Inv(s) && n in s.cursors && k != ""
    ensures CursorOk(s.chks, s.cursors[n]) && n in Next(s, n).0.cursors
    ensures CursorOk(Next(s, n).0.chks, Next(s, n).0.cursors[n])
    ensures var (s', it, last) := Next(s, n);
            Replay(Remaining(s, n), k) == Replay([it] + Remaining(s', n), k)
  {
    hide ListInv, CursorsInv, TotalWeight, Replay, Flat, Ahead, Next;
    NextRemaining(s, n);
    var (s', it, last) := Next(s, n);
    if it == DummyItem() {
      ReplayConcat([it], Remaining(s', n), k);
      ReplayKeyless([it], k);
    }
  }

  lemma {:induction false} RegisterStep(h: Hist, op: Op, k: Key)
    requires Shaped(h) && HonestAt(h, k) && k != ""
    requires op.RegisterCursor? && Enabled(h.s, op)
    ensures Shaped(HStep(h, op)) && HonestAt(HStep(h, op), k)
  {
    hide ListInv, CursorsInv, TotalWeight, Replay, Flat, FlatFrom, Remaining, Register;
    StepKeepsInv(h.s, op);
    RegisterMeaning(h.s, op.n, op.id, op.closedOnly, op.fromBeginning);
    var h' := HStep(h, op);
    assert Replay([], k) == None by { ReplayKeyless([], k); }
    RemainingIsSuffix(h'.s, op.n, k);
    forall m | m in h'.s.cursors ensures CursorOk(h'.s.chks, h'.s.cursors[m]) && CursorHonest(h', m, k) {
      CursorsParts(h'.s.chks, h'.s.cursors, m);
      if m in h.s.cursors {
        ShapedParts(h, m);
        assert CursorHonest(h, m, k);
      }
      if m != op.n {
        SameRemaining(h.s, h'.s, m);
      }
    }
  }

  lemma {:induction false} SameRemaining(s: State, s': State, m: string)
    requires s'.chks == s.chks && m in s.cursors && m in s'.cursors && s'.cursors[m] == s.cursors[m] && CursorOk(s.chks, s.cursors[m])
    ensures Remaining(s', m) == Remaining(s, m)
  {
  }

  lemma {:induction false} RemoveStep(h: Hist, op: Op, k: Key)
    requires Shaped(h) && HonestAt(h, k) && k != ""
    requires op.RemoveCursor? && Enabled(h.s, op)
    ensures Shaped(HStep(h, op)) && HonestAt(HStep(h, op), k)
  {
    hide ListInv, TotalWeight, Replay, Flat, Ahead;
    StepKeepsInv(h.s, op);
    var h' := HStep(h, op);
    forall m | m in h'.s.cursors ensures CursorHonest(h', m, k) {
      assert CursorHonest(h, m, k);
    }
  }

  lemma {:induction false} StepBackKeepsAhead(s: State, n: string, k: Key)
    requires Inv(s) && k != ""
    ensures KeepsAhead(s, DecrFromEnd(s, n), k)
    ensures DecrFromEnd(s, n).cursors.Keys == s.cursors.Keys
  {
    hide ListInv, TotalWeight, Replay, Flat, Ahead;
    StepBackKeepsInv(s, n);
    var s' := DecrFromEnd(s, n);
    forall m | m in s.cursors ensures KeepsCursorAhead(s, s', m, k) {
      CursorsParts(s.chks, s.cursors, m);
      CursorsParts(s'.chks, s'.cursors, m);
      if m == n && s' != s {
        var c := s'.cursors[n];
        AheadAdvance(s.chks, c.chk, c.pos);
        ReplayConcat([s.chks[c.chk].items[c.pos + 1]], Remaining(s, n), k);
      }
    }
  }

  lemma {:induction false} ClearStep(h: Hist, vbState: VBState, k: Key)
    requires Shaped(h) && HonestAt(h, k) && k != ""
    ensures Shaped(HStep(h, ClearAll(vbState))) && HonestAt(HStep(h, ClearAll(vbState)), k)
  {
    hide ListInv, TotalWeight, Replay;
    ClearKeepsInv(h.s, vbState);
    var h' := HStep(h, ClearAll(vbState));
    var c := NewChk(if vbState == Active then 1 else 0);
    assert h'.s.chks == [c];
    Single(c);
    ReplayKeyless(Tail(c), k);
    ReplayKeyless([], k);
  }

  lemma {:induction false} StepHonest(h: Hist, op: Op, k: Key)
    requires Shaped(h) && HonestAt(h, k) && k != ""
    ensures Shaped(HStep(h, op)) && HonestAt(HStep(h, op), k)
  {
    hide ChkInv, CursorsInv, TotalWeight, NumKeyed, HonestAt, CheckOpen, CloseOpen, KeepsAhead, RemoveClosedUnref,
         CheckAndAdd, SetOpenId, DecrFromEnd, Register, RemoveTap, Fetch, Next, Clear, QueueDirty;
    ListParts(h.s.chks, |h.s.chks| - 1);
    if Enabled(h.s, op) {
      match op
      case Queue(it, env) => QueueStep(h, it, env, k);
      case Close(id) => CloseKeepsAhead(h.s, id, k); QuietStep(h, CloseOpen(h.s, id), k);
      case Check(force, env) =>
        CheckOpenKeepsAhead(h.s, force, env, k);
        QuietStep(h, CheckOpen(h.s, force, env).0, k);
      case CleanUp(env) => CleanUpKeepsAhead(h.s, env, k); QuietStep(h, RemoveClosedUnref(h.s, env).0, k);
      case Start(id) => StartKeepsAhead(h.s, id, k); QuietStep(h, CheckAndAdd(h.s, id).0, k);
      case Relabel(id) => RelabelKeepsAhead(h.s, id, k); QuietStep(h, SetOpenId(h.s, id), k);
      case RegisterCursor(n, _, _, _) => RegisterStep(h, op, k);
      case RemoveCursor(n) => RemoveStep(h, op, k);
      case FetchAll(n) => FetchStep(h, n, k);
      case FetchNext(n) => NextStep(h, n, k);
      case StepBack(n) => StepBackKeepsAhead(h.s, n, k); QuietStep(h, DecrFromEnd(h.s, n), k);
      case ClearAll(vbState) => ClearStep(h, vbState, k);
    }
  }

  lemma {:induction false} StepKeepsHInv(h: Hist, op: Op)
    requires HInv(h)
    ensures HInv(HStep(h, op))
  {
    hide HonestAt, Shaped, HStep;
    assert Shaped(HStep(h, op)) by { StepHonest(h, op, "key"); }
    forall k | k != "" ensures HonestAt(HStep(h, op), k) {
      StepHonest(h, op, k);
    }
  }

  lemma {:induction false} RunKeepsHInv(h: Hist, ops: seq<Op>)
    requires HInv(h)
    ensures HInv(Run(h, ops))
    decreases |ops|
  {
    hide HInv, HStep;
    if ops != [] {
      StepKeepsHInv(h, ops[0]);
      RunKeepsHInv(HStep(h, ops[0]), ops[1..]);
    }
  }

  lemma {:induction false} InitHInv(id: nat)
    ensures HInv(InitHist(id))
  {
    hide ListInv, TotalWeight;
    InitInv(id);
    Single(NewChk(id));
    forall k | k != "" ensures HonestAt(InitHist(id), k) {
      ReplayKeyless(Tail(NewChk(id)), k);
      ReplayKeyless([], k);
    }
  }

  // ---------------------------------------------------------------- the main theorems

  /** What a cursor got and still gets replays like what it is owed. */
  lemma {:induction false} NothingLost(h: Hist, n: string, k: Key)
    requires HInv(h) && n in h.s.cursors && k != ""
    ensures n in h.since && n in h.got && CursorOk(h.s.chks, h.s.cursors[n])
    ensures Replay(h.since[n], k).Some? ==> Replay(h.got[n] + Remaining(h.s, n), k) == Replay(h.since[n], k)
    ensures n == PERSISTENCE ==> Replay(h.got[n] + Remaining(h.s, n), k) == Replay(h.log, k)
  {
    hide ListInv, CursorsInv, TotalWeight, Replay, Flat, Ahead;
    ShapedParts(h, n);
    assert HonestAt(h, k);
    assert CursorHonest(h, n, k);
    RemainingIsSuffix(h.s, n, k);
    ReplayConcat(h.got[n], Remaining(h.s, n), k);
  }

  /** Every run, from a fresh manager, of any operations in any order. */
  lemma {:induction false} NoMutationLost(id: nat, ops: seq<Op>, n: string, k: Key)
    requires k != ""
    requires n in Run(InitHist(id), ops).s.cursors
    ensures var h := Run(InitHist(id), ops);
            && n in h.since && n in h.got && CursorOk(h.s.chks, h.s.cursors[n])
            && (Replay(h.since[n], k).Some? ==>
                  Replay(h.got[n] + Remaining(h.s, n), k) == Replay(h.since[n], k))
            && (n == PERSISTENCE ==> Replay(h.got[n] + Remaining(h.s, n), k) == Replay(h.log, k))
  {
    hide HInv, Run, Replay, Remaining;
    InitHInv(id);
    RunKeepsHInv(InitHist(id), ops);
    NothingLost(Run(InitHist(id), ops), n, k);
  }
}
