/** Every step of every thread keeps the invariant of the bucket protocol. */
module BucketSafety {
  import opened Options
  import opened BucketProtocol
  import opened BucketSums
  import opened BucketInvariant
  import opened BucketFrames
  import opened BucketRefs
  import opened BucketTally
  import opened BucketSteps

  // ---------------------------------------------------------------- the running thread

  predicate CanStep(s: State, t: nat) {
    t < |s.threads| && s.threads[t] != [] && Ranged(s.g, s.threads[t][0]) && CanRun(s.g, s.threads[t][0])
  }

  function Head(s: State, t: nat): Instr
    requires CanStep(s, t)
  {
    s.threads[t][0]
  }

  function Rest(s: State, t: nat): seq<Instr>
    requires CanStep(s, t)
  {
    s.threads[t][1..]
  }

  function Step(s: State, t: nat, pick: bool): Effect
    requires CanStep(s, t)
  {
    EffectOf(s.g, Head(s, t), pick)
  }

  function Stepped(s: State, t: nat, pick: bool): State
    requires CanStep(s, t)
  {
    After(s, t, Rest(s, t), Step(s, t, pick))
  }

  lemma {:induction false} SplitTodo(s: State, t: nat)
    requires CanStep(s, t)
    ensures s.threads[t] == [Head(s, t)] + Rest(s, t)
    ensures Pending(s.threads, Head(s, t))
  {
    assert s.threads[t][0] == Head(s, t);
  }

  lemma {:induction false} SumOne(i: Instr, k: Kind)
    ensures Sum([i], k) == Of(k, i)
  {
    hide Of;
    assert [i][1..] == [];
  }

  lemma {:induction false} RunTotal(s: State, t: nat, pick: bool, k: Kind)
    requires CanStep(s, t)
    ensures var e := Step(s, t, pick);
            Total(Stepped(s, t, pick).threads, k)
            == Total(s.threads, k) - Of(k, Head(s, t)) + OfOption(k, e.first) + OfOption(k, e.second) + OfOption(k, e.spawned)
  {
    hide Of, Total, EffectOf, After, CanRun, Ranged;
    SplitTodo(s, t);
    TotalAfter(s, t, [Head(s, t)], Rest(s, t), Step(s, t, pick), k);
    SumOne(Head(s, t), k);
  }

  // ---------------------------------------------------------------- what the invariant says about it

  lemma {:induction false} HandleParts(s: State, h: nat)
    requires Inv(s) && h < |s.g.handles|
    ensures RefsOk(s.g, s.threads, h) && ClientsOk(s.g, s.threads, h) && HandleOk(s.g, s.threads, h) && BareHandleOk(s.g, h)
    ensures s.g.handles[h].refcount >= 0 && s.g.handles[h].clients >= 0
  {
    hide InstrsOk, LocksOk, PcsOk, WaitsOk, HandleOk, BareHandleOk, ConnOk, Total, ConnTotal, InTable;
  }

  lemma {:induction false} PendingOk(s: State, i: Instr)
    requires Inv(s) && Pending(s.threads, i)
    ensures InstrOk(s.g, i) && LocksHeld(s.g, i)
    ensures HandleOf(i).Some? ==> HandleOf(i).value < |s.g.handles| && s.g.handles[HandleOf(i).value].refcount >= 0
  {
    hide GlobalOk, PcsOk, WaitsOk, Total, Pending;
    PendingCounts(s.threads, i, Engines);
    PendingCounts(s.threads, i, Shutdown);
    OkRanged(s.g, i);
    if HandleOf(i).Some? {
      HandleParts(s, HandleOf(i).value);
    }
  }

  /** An access that changes a reference count is backed by a reference. */
  lemma {:induction false} Backed(s: State, i: Instr, h: nat)
    requires Inv(s) && Pending(s.threads, i) && RefTouched(i) == Some(h)
    ensures h < |s.g.handles| && s.g.handles[h].refcount > 0
  {
    hide GlobalOk, PcsOk, WaitsOk, Total, Pending, ConnTotal, LocksOk, Inv;
    PendingOk(s, i);
    HandleParts(s, h);
    PendingCounts(s.threads, i, Refs(h));
    if i.Inside? {
      ConnTotalAtLeast(s.g.conns, i.g.c, h);
    }
  }

  lemma {:induction false} OthersCompatible(s: State, t: nat, j: Instr)
    requires Inv(s) && CanStep(s, t) && Pending(Others(s, t, Rest(s, t)), j)
    ensures Compatible(Head(s, t), j) && Pending(s.threads, j)
  {
    hide GlobalOk, InstrsOk, WaitsOk, Total, Pending, Others, Rest, RefsOk, ClientsOk;
    var i, o := Head(s, t), Others(s, t, Rest(s, t));
    SplitTodo(s, t);
    OthersPending(s, t, [i], Rest(s, t), j);
    OthersLess(s, t, j, Engines);
    OthersLess(s, t, j, Shutdown);
    if ConnOf(i).Some? {
      OthersLess(s, t, j, Pcs(ConnOf(i).value));
      assert Total(s.threads, Pcs(ConnOf(i).value)) <= 1;
    }
    if i.Shutting? || i.Awaiting? {
      OthersLess(s, t, j, Shutters(i.h));
      PendingOk(s, i);
      HandleParts(s, i.h);
    }
  }

  lemma {:induction false} OthersLess(s: State, t: nat, j: Instr, k: Kind)
    requires CanStep(s, t) && Pending(Others(s, t, Rest(s, t)), j)
    ensures Of(k, Head(s, t)) + Of(k, j) <= Total(s.threads, k)
  {
    hide Of, Total, Pending, Others, CanRun, Ranged;
    SplitTodo(s, t);
    OthersTotal(s, t, [Head(s, t)], Rest(s, t), k);
    SumOne(Head(s, t), k);
    PendingCounts(Others(s, t, Rest(s, t)), j, k);
  }

  // ---------------------------------------------------------------- locks and connections

  lemma {:induction false} RunLocks(s: State, t: nat, pick: bool)
    requires Inv(s) && CanStep(s, t)
    ensures LocksOk(Stepped(s, t, pick).g, Stepped(s, t, pick).threads)
  {
    hide GlobalOk, InstrsOk, PcsOk, WaitsOk, Total, EffectOf, HoldsEngines, HoldsShutdown, InBody, After, CanRun;
    var i, e := Head(s, t), Step(s, t, pick);
    SplitTodo(s, t);
    PendingOk(s, i);
    StepLocks(s.g, i, pick);
    RunTotal(s, t, pick, Engines);
    RunTotal(s, t, pick, Shutdown);
    RunTotal(s, t, pick, Bodies);
    assert Stepped(s, t, pick).g == e.g by { SteppedGlobals(s, t, pick); }
  }

  lemma {:induction false} SteppedGlobals(s: State, t: nat, pick: bool)
    requires CanStep(s, t)
    ensures Stepped(s, t, pick).g == Step(s, t, pick).g
  {
    hide EffectOf;
  }

  lemma {:induction false} RunPcs(s: State, t: nat, pick: bool)
    requires Inv(s) && CanStep(s, t)
    ensures PcsOk(Stepped(s, t, pick).threads)
  {
    hide GlobalOk, InstrsOk, LocksOk, WaitsOk, Total, EffectOf, After, CanRun, ConnOf;
    var i, e := Head(s, t), Step(s, t, pick);
    SplitTodo(s, t);
    PendingOk(s, i);
    StepLocks(s.g, i, pick);
    forall c: nat ensures Total(Stepped(s, t, pick).threads, Pcs(c)) <= 1 {
      RunTotal(s, t, pick, Pcs(c));
      assert Total(s.threads, Pcs(c)) <= 1;
    }
  }

  // ---------------------------------------------------------------- pending accesses

  lemma {:induction false} ConnParts(s: State, c: nat)
    requires Inv(s) && c < |s.g.conns|
    ensures ConnOk(s.g, c)
  {
    hide InstrsOk, LocksOk, PcsOk, WaitsOk, RefsOk, ClientsOk, HandleOk, BareHandleOk, ConnOk;
  }

  lemma {:induction false} RunConns(s: State, t: nat, pick: bool)
    requires Inv(s) && CanStep(s, t)
    ensures InstrOk(s.g, Head(s, t)) && ConnsEvolve(s.g, Step(s, t, pick).g, Head(s, t))
  {
    hide Inv, EffectOf, ConnsEvolve, CanRun, ConnOk, InstrOk, Pending;
    var i := Head(s, t);
    SplitTodo(s, t);
    PendingOk(s, i);
    OkRanged(s.g, i);
    if ConnOf(i).Some? {
      ConnParts(s, ConnOf(i).value);
    }
    StepConns(s.g, i, pick);
  }

  /** A reference count of zero stays zero. */
  lemma {:induction false} RunZero(s: State, t: nat, pick: bool, h: nat)
    requires Inv(s) && CanStep(s, t) && h < |s.g.handles|
    ensures Evolves(s.g, Step(s, t, pick).g, Head(s, t), h)
    ensures s.g.handles[h].refcount == 0 ==> Step(s, t, pick).g.handles[h].refcount == 0
  {
    hide Inv, EffectOf, CanRun, InstrOk, Pending, InTable, StateEvolves, RefTouched;
    var i := Head(s, t);
    SplitTodo(s, t);
    PendingOk(s, i);
    StepEvolves(s.g, i, pick, h);
    if RefTouched(i) == Some(h) {
      Backed(s, i, h);
    }
  }

  lemma {:induction false} OthersSee(s: State, t: nat, pick: bool, j: Instr)
    requires Inv(s) && CanStep(s, t) && Pending(Others(s, t, Rest(s, t)), j)
    ensures Seen(s.g, Step(s, t, pick).g, Head(s, t), j)
  {
    hide Inv, EffectOf, CanRun, InstrOk, Pending, InTable, Evolves, Others, Rest, ConnOk;
    OthersCompatible(s, t, j);
    RunConns(s, t, pick);
    if HandleOf(j).Some? && HandleOf(j).value < |s.g.handles| {
      RunZero(s, t, pick, HandleOf(j).value);
    }
  }

  lemma {:induction false} RunInstrs(s: State, t: nat, pick: bool)
    requires Inv(s) && CanStep(s, t)
    ensures InstrsOk(Stepped(s, t, pick).g, Stepped(s, t, pick).threads)
  {
    hide Inv, EffectOf, CanRun, InstrOk, Pending, Others, Rest, After, Seen, Compatible;
    var i, e, s' := Head(s, t), Step(s, t, pick), Stepped(s, t, pick);
    SplitTodo(s, t);
    PendingOk(s, i);
    SteppedGlobals(s, t, pick);
    assert LeavesOk(e) by { RunLeaves(s, t, pick); }
    forall j | Pending(s'.threads, j) ensures InstrOk(s'.g, j) {
      PendingAfter(s, t, [i], Rest(s, t), e, j);
      if Pending(Others(s, t, Rest(s, t)), j) {
        OthersCompatible(s, t, j);
        PendingOk(s, j);
        OthersSee(s, t, pick, j);
        KeepsOk(s.g, e.g, i, j);
      }
    }
  }

  lemma {:induction false} RunLeaves(s: State, t: nat, pick: bool)
    requires Inv(s) && CanStep(s, t)
    ensures LeavesOk(Step(s, t, pick))
  {
    hide GlobalOk, InstrsOk, LocksOk, PcsOk, WaitsOk, EffectOf, CanRun, InstrOk, Pending, LeavesOk;
    SplitTodo(s, t);
    PendingOk(s, Head(s, t));
    StepLeaves(s.g, Head(s, t), pick);
  }

  // ---------------------------------------------------------------- one handle

  /** The references the connections hold follow the change of one connection. */
  lemma {:induction false} ConnsTotal(g: Globals, i: Instr, e: Effect, k: nat)
    requires RefsFollow(g, i, e, k)
    ensures ConnTotal(e.g.conns, k) == ConnTotal(g.conns, k) + ConnDelta(g, i, e, k)
  {
    hide ConnRefs, ConnTotal, InTable, RefsOf, RefsIn;
    if ConnOf(i).Some? && e.g.conns != g.conns {
      ConnTotalUpdate(g.conns, ConnOf(i).value, e.g.conns[ConnOf(i).value], k);
    }
  }

  lemma {:induction false} RunRefs(s: State, t: nat, pick: bool, k: nat)
    requires Inv(s) && CanStep(s, t) && k < |s.g.handles|
    ensures var s' := Stepped(s, t, pick);
            && k < |s'.g.handles| && ClientsFollow(s.g, Head(s, t), Step(s, t, pick), k)
            && RefsOk(s'.g, s'.threads, k) && ClientsOk(s'.g, s'.threads, k)
  {
    hide GlobalOk, InstrsOk, LocksOk, PcsOk, WaitsOk, EffectOf, CanRun, InstrOk, Pending, Total, ConnTotal, InTable, RefsIn, IsBump,
         ConnRefs, After, HandleOk, ConnsFollow, ConnDelta;
    var i, e := Head(s, t), Step(s, t, pick);
    SplitTodo(s, t);
    PendingOk(s, i);
    HandleParts(s, k);
    StepRefs(s.g, i, pick, k);
    ConnsTotal(s.g, i, e, k);
    RunTotal(s, t, pick, Refs(k));
    RunTotal(s, t, pick, Bumps(k));
    SteppedGlobals(s, t, pick);
  }

  function TallyAt(threads: Threads, k: nat): Tally {
    Tally(Total(threads, Shutters(k)), Total(threads, Watchers(k)), Total(threads, Starters(k)), Total(threads, Insiders(k)),
          Total(threads, Writers(k)))
  }

  lemma {:induction false} InsidersBump(threads: Threads, k: nat)
    ensures Total(threads, Insiders(k)) <= Total(threads, Bumps(k))
  {
    TotalMonotone(threads, Insiders(k), Bumps(k));
  }

  lemma {:induction false} StartersSeen(s: State, k: nat)
    requires Inv(s) && k < |s.g.handles|
    ensures Total(s.threads, Starters(k)) > 0 ==> s.g.handles[k].state != Running
  {
    hide Inv, Total, Pending;
    if Total(s.threads, Starters(k)) > 0 {
      var i := TotalPositive(s.threads, Starters(k));
      PendingOk(s, i);
    }
  }

  lemma {:induction false} TallyFits(s: State, t: nat, k: nat)
    requires Inv(s) && CanStep(s, t) && k < |s.g.handles|
    ensures Sound(s.g.handles[k], TallyAt(s.threads, k), Head(s, t), k)
  {
    hide Inv, Total, Pending, IsBump, IsWatcher, IsWriter, IsStarter, InTable, CanRun, Ranged;
    var i := Head(s, t);
    SplitTodo(s, t);
    HandleParts(s, k);
    StartersSeen(s, k);
    InsidersBump(s.threads, k);
    PendingCounts(s.threads, i, Bumps(k));
    TallyCounts(s, i, k);
  }

  lemma {:induction false} TallyCounts(s: State, i: Instr, k: nat)
    requires Pending(s.threads, i)
    ensures var a, b := TallyAt(s.threads, k), TallyOf(i, k);
            && a.shutters >= b.shutters && a.watchers >= b.watchers && a.starters >= b.starters
            && a.insiders >= b.insiders && a.writers >= b.writers
  {
    hide Total, Pending;
    PendingCounts(s.threads, i, Shutters(k));
    PendingCounts(s.threads, i, Watchers(k));
    PendingCounts(s.threads, i, Starters(k));
    PendingCounts(s.threads, i, Insiders(k));
    PendingCounts(s.threads, i, Writers(k));
  }

  lemma {:induction false} OfTally(o: Option<Instr>, k: nat)
    ensures var a := TallyOption(o, k);
            && OfOption(Shutters(k), o) == a.shutters && OfOption(Watchers(k), o) == a.watchers
            && OfOption(Starters(k), o) == a.starters && OfOption(Insiders(k), o) == a.insiders
            && OfOption(Writers(k), o) == a.writers
  {
  }

  /** Counting the accesses of all threads is moving the tally. */
  lemma {:induction false} TallyMoves(s: State, t: nat, pick: bool, k: nat)
    requires CanStep(s, t)
    ensures TallyAt(Stepped(s, t, pick).threads, k) == Moved(TallyAt(s.threads, k), Head(s, t), Step(s, t, pick), k)
  {
    hide Total, EffectOf, CanRun, Ranged, After, Of, TallyOf;
    var i, e := Head(s, t), Step(s, t, pick);
    OfTally(Some(i), k);
    OfTally(e.first, k);
    OfTally(e.second, k);
    OfTally(e.spawned, k);
    RunTotal(s, t, pick, Shutters(k));
    RunTotal(s, t, pick, Watchers(k));
    RunTotal(s, t, pick, Starters(k));
    RunTotal(s, t, pick, Insiders(k));
    RunTotal(s, t, pick, Writers(k));
  }

  lemma {:induction false} RunHandle(s: State, t: nat, pick: bool, k: nat)
    requires Inv(s) && CanStep(s, t) && k < |s.g.handles|
    ensures var s' := Stepped(s, t, pick);
            && k < |s'.g.handles| && RefsOk(s'.g, s'.threads, k) && ClientsOk(s'.g, s'.threads, k) && HandleOk(s'.g, s'.threads, k)
  {
    hide Inv, EffectOf, CanRun, InstrOk, Pending, Total, ConnTotal, InTable, After, Sound, Moved, RefsOk, ClientsOk, ClientsFollow, Evolves,
         Ranged;
    SplitTodo(s, t);
    PendingOk(s, Head(s, t));
    RunRefs(s, t, pick, k);
    RunZero(s, t, pick, k);
    TallyFits(s, t, k);
    StepBalanced(s.g, Head(s, t), pick, k, TallyAt(s.threads, k));
    TallyMoves(s, t, pick, k);
    SteppedGlobals(s, t, pick);
  }

  // ---------------------------------------------------------------- a new handle

  /** Nobody knows a handle that does not exist yet. */
  lemma {:induction false} NoneOfNew(s: State, k: Kind, n: nat)
    requires Inv(s) && n >= |s.g.handles|
    requires k == Refs(n) || k == Bumps(n) || k == Shutters(n) || k == Watchers(n) || k == Starters(n) || k == Insiders(n) || k == Writers(n)
    ensures Total(s.threads, k) == 0
  {
    hide Inv, Total, Pending;
    if Total(s.threads, k) > 0 {
      var i := TotalPositive(s.threads, k);
      PendingOk(s, i);
    }
  }

  lemma {:induction false} NoConnsOfNew(conns: seq<Conn>, n: nat)
    requires forall c :: 0 <= c < |conns| ==> conns[c].peh != Some(n)
    ensures ConnTotal(conns, n) == 0
  {
    if conns != [] {
      assert forall c :: 0 <= c < |conns| - 1 ==> conns[1..][c] == conns[c + 1];
      NoConnsOfNew(conns[1..], n);
    }
  }

  lemma {:induction false} OnlyInsertMakes(g: Globals, i: Instr, pick: bool)
    requires InstrOk(g, i)
    ensures var e := EffectOf(g, i, pick);
            |e.g.handles| == |g.handles| || (i.Making? && i.make == Insert && i.name !in g.table && e.g == WithNewBucket(g, i.name)
                                             && |e.g.handles| == |g.handles| + 1)
  {
    hide EnterEffect, InEffect, ExitEffect, SettleEffect, BindEffect, UnbindEffect, RelEffect, ShutEffect, AwaitEffect, FinishEffect,
         StopEffect, FindEffect, RetainEffect, GuardOk, InOk, AwaitOk, InTable;
    if i.Making? {
    } else if i.Entering? || i.Leaving? {
      CallConns(g, i, pick);
    } else if i.Shutting? || i.Awaiting? {
      ShutConns(g, i, pick);
    } else if i.LockBroadcast? || i.Broadcast? || i.UnlockShutdown? || i.Finishing? || i.StopAll? {
      StopConns(g, i, pick);
    } else {
      OtherSizes(g, i, pick);
    }
  }

  lemma {:induction false} OtherSizes(g: Globals, i: Instr, pick: bool)
    requires Ranged(g, i)
    requires i.Inside? || i.Settling? || i.Finding? || i.Retaining? || i.UnlockEngines? || i.Binding? || i.Unbind? || i.Rel?
    ensures |EffectOf(g, i, pick).g.handles| == |g.handles|
  {
    hide EnterEffect, ExitEffect, MakeEffect, ShutEffect, AwaitEffect, FinishEffect, StopEffect, SetHandle, SetConn, AddRefs;
  }

  lemma {:induction false} RunNewHandle(s: State, t: nat, pick: bool)
    requires Inv(s) && CanStep(s, t) && |Step(s, t, pick).g.handles| > |s.g.handles|
    ensures var s', n := Stepped(s, t, pick), |s.g.handles|;
            && |s'.g.handles| == n + 1
            && RefsOk(s'.g, s'.threads, n) && ClientsOk(s'.g, s'.threads, n) && HandleOk(s'.g, s'.threads, n) && BareHandleOk(s'.g, n)
  {
    hide Inv, Total, Pending, ConnTotal, After, CanRun, Ranged, EnterEffect, InEffect, ExitEffect, SettleEffect, FindEffect, RetainEffect,
         BindEffect, UnbindEffect, RelEffect, ShutEffect, AwaitEffect, FinishEffect, StopEffect, Of, InstrOk;
    var i, e, n := Head(s, t), Step(s, t, pick), |s.g.handles|;
    SplitTodo(s, t);
    PendingOk(s, i);
    OnlyInsertMakes(s.g, i, pick);
    SteppedGlobals(s, t, pick);
    NewCounts(s, t, pick);
    NewTallies(s, t, pick);
    assert ConnTotal(s.g.conns, n) == 0 by {
      forall c | 0 <= c < |s.g.conns| ensures s.g.conns[c].peh != Some(n) {
        ConnParts(s, c);
      }
      NoConnsOfNew(s.g.conns, n);
    }
  }

  lemma {:induction false} InsertLeaves(g: Globals, i: Instr, pick: bool)
    requires Ranged(g, i) && i.Making? && |EffectOf(g, i, pick).g.handles| > |g.handles|
    ensures var e := EffectOf(g, i, pick); OneRef(e.first, e.second, |g.handles|) && e.spawned.None?
  {
  }

  lemma {:induction false} NoTallyOfNew(s: State, n: nat)
    requires Inv(s) && n >= |s.g.handles|
    ensures IsNone(TallyAt(s.threads, n))
  {
    hide Inv, Total;
    NoneOfNew(s, Shutters(n), n);
    NoneOfNew(s, Watchers(n), n);
    NoneOfNew(s, Starters(n), n);
    NoneOfNew(s, Insiders(n), n);
    NoneOfNew(s, Writers(n), n);
  }

  lemma {:induction false} NewCounts(s: State, t: nat, pick: bool)
    requires Inv(s) && CanStep(s, t) && |Step(s, t, pick).g.handles| > |s.g.handles| && Head(s, t).Making?
    ensures var threads, n := Stepped(s, t, pick).threads, |s.g.handles|;
            Total(threads, Refs(n)) == 1 && Total(threads, Bumps(n)) == 0
  {
    hide Inv, Total, After, CanRun, EffectOf, Of, OneRef, HandleOf, ConnOf;
    var i, e, n := Head(s, t), Step(s, t, pick), |s.g.handles|;
    InsertLeaves(s.g, i, pick);
    NoneOfNew(s, Refs(n), n);
    NoneOfNew(s, Bumps(n), n);
    RunTotal(s, t, pick, Refs(n));
    RunTotal(s, t, pick, Bumps(n));
    NewLeaves(e.first, e.second, n);
    MadeCounts(i, n);
  }

  lemma {:induction false} NewTallies(s: State, t: nat, pick: bool)
    requires Inv(s) && CanStep(s, t) && |Step(s, t, pick).g.handles| > |s.g.handles| && Head(s, t).Making?
    ensures IsNone(TallyAt(Stepped(s, t, pick).threads, |s.g.handles|))
  {
    hide Inv, Total, After, CanRun, EffectOf, TallyAt, TallyOf, TallyOption, Moved, OneRef, HandleOf, ConnOf;
    var i, e, n := Head(s, t), Step(s, t, pick), |s.g.handles|;
    InsertLeaves(s.g, i, pick);
    NoTallyOfNew(s, n);
    TallyMoves(s, t, pick, n);
    NewLeaves(e.first, e.second, n);
    MadeCounts(i, n);
    NoSpawn(e.spawned, n);
    MovedNothing(TallyAt(s.threads, n), i, e, n);
  }

  lemma {:induction false} MovedNothing(a: Tally, i: Instr, e: Effect, n: nat)
    requires IsNone(a) && IsNone(TallyOf(i, n))
    requires IsNone(TallyOption(e.first, n)) && IsNone(TallyOption(e.second, n)) && IsNone(TallyOption(e.spawned, n))
    ensures IsNone(Moved(a, i, e, n))
  {
    hide TallyOf, TallyOption;
  }

  lemma {:induction false} NoSpawn(o: Option<Instr>, n: nat)
    requires o.None?
    ensures IsNone(TallyOption(o, n))
  {
  }

  /** What a fresh handle leaves pending: one access that holds one reference. */
  predicate OneRef(a: Option<Instr>, b: Option<Instr>, n: nat) {
    || (a == Some(UnlockEngines) && b.Some? && b.value.Binding? && b.value.bind == BindState && b.value.h == n)
    || (a == Some(Rel(n)) && b == Some(UnlockEngines))
  }

  lemma {:induction false} NewLeaves(a: Option<Instr>, b: Option<Instr>, n: nat)
    requires OneRef(a, b, n)
    ensures OfOption(Refs(n), a) + OfOption(Refs(n), b) == 1 && OfOption(Bumps(n), a) + OfOption(Bumps(n), b) == 0
    ensures IsNone(TallyOption(a, n)) && IsNone(TallyOption(b, n))
  {
  }

  lemma {:induction false} MadeCounts(i: Instr, n: nat)
    requires i.Making?
    ensures Of(Refs(n), i) == 0 && Of(Bumps(n), i) == 0 && IsNone(TallyOf(i, n))
  {
  }

  // ---------------------------------------------------------------- shared state

  lemma {:induction false} TableFollows(g: Globals, g': Globals, i: Instr)
    requires TableOk(g) && TableEvolves(g, g', i) && |g'.handles| >= |g.handles|
    requires forall k :: 0 <= k < |g.handles| ==> g'.handles[k].name == g.handles[k].name
    ensures TableOk(g')
  {
  }

  lemma {:induction false} FinalFollows(s: State, t: nat, pick: bool)
    requires Inv(s) && CanStep(s, t)
    ensures FinalOk(Step(s, t, pick).g)
  {
    hide InstrsOk, PcsOk, WaitsOk, Total, EffectOf, CanRun, Pending, TableOk, BareHandleOk, ConnOk, RefsOk, ClientsOk, HandleOk, After;
    var i := Head(s, t);
    SplitTodo(s, t);
    PendingOk(s, i);
    OkRanged(s.g, i);
    PendingCounts(s.threads, i, Bodies);
    StepFinal(s.g, i, pick);
    RunConns(s, t, pick);
  }

  lemma {:induction false} RunBare(s: State, t: nat, pick: bool, k: nat)
    requires Inv(s) && CanStep(s, t) && k < |Step(s, t, pick).g.handles|
    ensures BareHandleOk(Step(s, t, pick).g, k)
  {
    hide Inv, EffectOf, CanRun, Pending, BareHandleOk, InstrOk, Evolves, RefTouched, Ranged, RefsOk, ClientsOk, HandleOk;
    var i, e := Head(s, t), Step(s, t, pick);
    SplitTodo(s, t);
    PendingOk(s, i);
    SteppedGlobals(s, t, pick);
    if k < |s.g.handles| {
      HandleParts(s, k);
      RunZero(s, t, pick, k);
      if RefTouched(i) == Some(k) {
        Backed(s, i, k);
      }
      BareKeeps(s.g, e.g, i, k);
    } else {
      RunNewHandle(s, t, pick);
    }
  }

  lemma {:induction false} RunConn(s: State, t: nat, pick: bool, c: nat)
    requires Inv(s) && CanStep(s, t) && c < |Step(s, t, pick).g.conns|
    ensures ConnOk(Step(s, t, pick).g, c)
  {
    hide Inv, EffectOf, CanRun, InstrOk;
    RunConns(s, t, pick);
    if ConnOf(Head(s, t)) != Some(c) {
      ConnParts(s, c);
    }
  }

  lemma {:induction false} RunGlobal(s: State, t: nat, pick: bool)
    requires Inv(s) && CanStep(s, t)
    ensures GlobalOk(Step(s, t, pick).g)
  {
    hide InstrsOk, LocksOk, PcsOk, WaitsOk, EffectOf, CanRun, Pending, TableOk, BareHandleOk, ConnOk, RefsOk, ClientsOk, HandleOk, FinalOk,
         InstrOk, StateEvolves, InTable, ConnsEvolve, TableEvolves;
    var i, g' := Head(s, t), Step(s, t, pick).g;
    RunConns(s, t, pick);
    assert |g'.handles| >= |s.g.handles| by { ConnsSizes(s.g, g', i); }
    forall k | 0 <= k < |s.g.handles| ensures g'.handles[k].name == s.g.handles[k].name {
      RunZero(s, t, pick, k);
    }
    StepTable(s.g, i, pick);
    TableFollows(s.g, g', i);
    forall k | 0 <= k < |g'.handles| ensures BareHandleOk(g', k) {
      RunBare(s, t, pick, k);
    }
    forall c | 0 <= c < |g'.conns| ensures ConnOk(g', c) {
      RunConn(s, t, pick, c);
    }
    FinalFollows(s, t, pick);
  }

  lemma {:induction false} ConnsSizes(g: Globals, g': Globals, i: Instr)
    requires ConnsEvolve(g, g', i)
    ensures |g'.handles| >= |g.handles|
  {
  }

  // ---------------------------------------------------------------- sleeping and waking

  /** The state after an access, with the marks of the sleepers. */
  function Ran(s: State, t: nat, pick: bool): State
    requires CanStep(s, t)
  {
    Stepped(s, t, pick).(dozing := Dozing(s, t, Head(s, t)), dozingStop := DozingStop(s, t, Head(s, t)))
  }

  predicate Broadcasting(i: Instr) {
    i == Broadcast || i == StopAll(BroadcastAll)
  }

  /** Only a broadcast takes a pending broadcast away. */
  lemma {:induction false} BroadcastsStay(s: State, t: nat, pick: bool)
    requires CanStep(s, t) && !Broadcasting(Head(s, t))
    ensures Total(Stepped(s, t, pick).threads, Broadcasts) >= Total(s.threads, Broadcasts)
  {
    hide Total, After, CanRun, EnterEffect, InEffect, ExitEffect, SettleEffect, FindEffect, RetainEffect, MakeEffect, BindEffect,
         UnbindEffect, RelEffect, ShutEffect, AwaitEffect, FinishEffect, StopEffect, Ranged;
    RunTotal(s, t, pick, Broadcasts);
  }

  /** A reference count that drops to zero leaves a broadcast pending. */
  lemma {:induction false} DropToZero(s: State, t: nat, pick: bool, h: nat)
    requires Inv(s) && CanStep(s, t) && h < |s.g.handles| && s.g.handles[h].refcount != 0
    requires h < |Step(s, t, pick).g.handles| && Step(s, t, pick).g.handles[h].refcount == 0
    ensures Total(Stepped(s, t, pick).threads, Broadcasts) > 0
  {
    hide Inv, Total, After, CanRun, EnterEffect, InEffect, ExitEffect, SettleEffect, FindEffect, RetainEffect, MakeEffect, BindEffect,
         UnbindEffect, ShutEffect, AwaitEffect, FinishEffect, StopEffect, Ranged, Pending, InTable, StateEvolves, RefsOk, ClientsOk, HandleOk;
    var i := Head(s, t);
    RunZero(s, t, pick, h);
    HandleParts(s, h);
    RunTotal(s, t, pick, Broadcasts);
    if i != Rel(h) {
      SplitTodo(s, t);
      PendingOk(s, i);
      OnlyRelDrops(s.g, i, pick, h);
    }
    assert EffectOf(s.g, i, pick) == RelEffect(s.g, h);
  }

  lemma {:induction false} OnlyRelDrops(g: Globals, i: Instr, pick: bool, h: nat)
    requires InstrOk(g, i) && RefTouched(i) == Some(h) && i != Rel(h)
    ensures EffectOf(g, i, pick).g.handles[h].refcount == g.handles[h].refcount + 1
  {
    hide EnterEffect, ExitEffect, SettleEffect, FindEffect, MakeEffect, UnbindEffect, ShutEffect, AwaitEffect, FinishEffect, StopEffect,
         RelEffect, InTable;
  }

  /** What was true of a sleeper's reason to wake up, or becomes true, is announced. */
  lemma {:induction false} Announced(s: State, t: nat, pick: bool, h: nat)
    requires Inv(s) && CanStep(s, t) && !Broadcasting(Head(s, t)) && h < |s.g.handles|
    requires ZeroRefs(s.g, h) ==> Total(s.threads, Broadcasts) > 0
    ensures ZeroRefs(Step(s, t, pick).g, h) ==> Total(Stepped(s, t, pick).threads, Broadcasts) > 0
  {
    hide Inv, Total, After, CanRun, EffectOf, Ranged, Broadcasting;
    BroadcastsStay(s, t, pick);
    if ZeroRefs(Step(s, t, pick).g, h) && !ZeroRefs(s.g, h) {
      DropToZero(s, t, pick, h);
    }
  }

  /** Announcing the stop. */
  lemma {:induction false} StopAnnounced(s: State, t: nat, pick: bool)
    requires Inv(s) && CanStep(s, t) && !Broadcasting(Head(s, t))
    requires s.g.inProgress ==> Total(s.threads, Broadcasts) > 0
    ensures Step(s, t, pick).g.inProgress ==> Total(Stepped(s, t, pick).threads, Broadcasts) > 0
  {
    hide Inv, Total, After, CanRun, EffectOf, Ranged, Broadcasting, ConnOk, InstrOk;
    BroadcastsStay(s, t, pick);
    RunConns(s, t, pick);
    if Head(s, t) == StopAll(SetInProgress) {
      RunTotal(s, t, pick, Broadcasts);
      assert Step(s, t, pick).first == Some(StopAll(BroadcastAll)) by { SetsInProgress(s.g, pick); }
    }
  }

  lemma {:induction false} SetsInProgress(g: Globals, pick: bool)
    ensures EffectOf(g, StopAll(SetInProgress), pick).first == Some(StopAll(BroadcastAll))
  {
  }

  lemma {:induction false} OthersHeads(s: State, t: nat, pick: bool, u: nat)
    requires CanStep(s, t) && u < |s.threads| && u != t
    ensures u < |Stepped(s, t, pick).threads| && Stepped(s, t, pick).threads[u] == s.threads[u]
  {
    hide EffectOf, CanRun, Ranged;
  }

  /** A sleeping shutdown thread other than the running one. */
  lemma {:induction false} DozerStays(s: State, t: nat, pick: bool, u: nat)
    requires Inv(s) && CanStep(s, t) && u != t && u in s.dozing && !Broadcasting(Head(s, t))
    ensures DozerOk(Ran(s, t, pick), u)
  {
    hide GlobalOk, InstrsOk, LocksOk, PcsOk, RefsOk, ClientsOk, HandleOk, Total, After, CanRun, EffectOf, Ranged, Broadcasting, Dozing,
         DozingStop, Pending;
    assert DozerOk(s, u);
    var j := s.threads[u][0];
    assert Pending(s.threads, j) by { HeadPending(s, u); }
    PendingOk(s, j);
    OthersHeads(s, t, pick, u);
    SteppedGlobals(s, t, pick);
    Announced(s, t, pick, j.h);
    StopAnnounced(s, t, pick);
  }

  lemma {:induction false} HeadPending(s: State, u: nat)
    requires u < |s.threads| && s.threads[u] != []
    ensures Pending(s.threads, s.threads[u][0])
  {
  }

  /** The running thread goes to sleep. */
  lemma {:induction false} FallsAsleep(s: State, t: nat, pick: bool)
    requires Inv(s) && CanStep(s, t) && Head(s, t).Awaiting? && Head(s, t).await == WaitRefs
    ensures DozerOk(Ran(s, t, pick), t)
  {
    hide GlobalOk, InstrsOk, LocksOk, PcsOk, RefsOk, ClientsOk, HandleOk, Total, CanRun, Ranged, Dozing, DozingStop, Pending, EnterEffect,
         InEffect, ExitEffect, SettleEffect, FindEffect, RetainEffect, MakeEffect, BindEffect, UnbindEffect, RelEffect, ShutEffect,
         FinishEffect, StopEffect;
    var i := Head(s, t);
    SplitTodo(s, t);
    PendingOk(s, i);
    BroadcastsStay(s, t, pick);
    assert i == Awaiting(WaitRefs, i.h);
    assert ZeroRefs(s.g, i.h) ==> Total(s.threads, Broadcasts) > 0;
  }

  lemma {:induction false} RunDozers(s: State, t: nat, pick: bool)
    requires Inv(s) && CanStep(s, t)
    ensures forall u :: u in Ran(s, t, pick).dozing ==> DozerOk(Ran(s, t, pick), u)
  {
    hide GlobalOk, InstrsOk, LocksOk, PcsOk, RefsOk, ClientsOk, HandleOk, Total, CanRun, Ranged, EffectOf, After, DozingStop, Pending;
    var i := Head(s, t);
    assert t in s.dozing ==> DozerOk(s, t);
    forall u | u in Ran(s, t, pick).dozing ensures DozerOk(Ran(s, t, pick), u) {
      if u != t {
        DozerStays(s, t, pick, u);
      } else if i.Awaiting? && i.await == WaitRefs {
        FallsAsleep(s, t, pick);
      }
    }
  }

  /** A thread about to sleep on its references. */
  lemma {:induction false} RunWaiters(s: State, t: nat, pick: bool, h: nat)
    requires Inv(s) && CanStep(s, t) && Pending(Stepped(s, t, pick).threads, Awaiting(WaitRefs, h)) && ZeroRefs(Step(s, t, pick).g, h)
    ensures Total(Stepped(s, t, pick).threads, Broadcasts) > 0
  {
    hide GlobalOk, InstrsOk, LocksOk, PcsOk, RefsOk, ClientsOk, HandleOk, Total, CanRun, Ranged, EffectOf, After, Pending, Others, Rest,
         DozerOk, StopDozerOk;
    var i, e, j := Head(s, t), Step(s, t, pick), Awaiting(WaitRefs, h);
    SplitTodo(s, t);
    PendingOk(s, i);
    PendingAfter(s, t, [i], Rest(s, t), e, j);
    if Pending(Others(s, t, Rest(s, t)), j) {
      OthersCompatible(s, t, j);
      PendingOk(s, j);
      assert !Broadcasting(i);
      Announced(s, t, pick, h);
    } else {
      NewWaiter(s.g, i, pick, h);
    }
  }

  predicate Waiter(o: Option<Instr>) {
    o.Some? && o.value.Awaiting? && o.value.await == WaitRefs
  }

  lemma {:induction false} OnlyAwaitersWait(g: Globals, i: Instr, pick: bool)
    requires Ranged(g, i) && !i.Awaiting?
    ensures var e := EffectOf(g, i, pick); !Waiter(e.first) && !Waiter(e.second) && !Waiter(e.spawned)
  {
    hide SettleEffect, FindEffect, RetainEffect, MakeEffect, BindEffect, UnbindEffect, RelEffect, AwaitEffect, FinishEffect, StopEffect,
         SetHandle, SetConn, SetState, AddClients, AddRefs, Unlinked;
    if !Matters(i) {
      CalmStep(g, i, pick);
    }
  }

  /** A thread decides to wait only while there are references. */
  lemma {:induction false} NewWaiter(g: Globals, i: Instr, pick: bool, h: nat)
    requires Ranged(g, i)
    requires var e := EffectOf(g, i, pick);
             Some(Awaiting(WaitRefs, h)) == e.first || Some(Awaiting(WaitRefs, h)) == e.second || Some(Awaiting(WaitRefs, h)) == e.spawned
    ensures !ZeroRefs(EffectOf(g, i, pick).g, h)
  {
    hide EnterEffect, InEffect, ExitEffect, SettleEffect, FindEffect, RetainEffect, MakeEffect, BindEffect, UnbindEffect, RelEffect,
         ShutEffect, FinishEffect, StopEffect;
    if !i.Awaiting? {
      OnlyAwaitersWait(g, i, pick);
    }
  }

  // ---------------------------------------------------------------- the stopping thread

  lemma {:induction false} SignalsStay(s: State, t: nat, pick: bool)
    requires CanStep(s, t) && Head(s, t) != Finishing(Signal)
    ensures Total(Stepped(s, t, pick).threads, Signals) >= Total(s.threads, Signals)
  {
    hide Total, After, CanRun, EffectOf, Ranged;
    RunTotal(s, t, pick, Signals);
  }

  /** The last shutdown thread to end while the proxy stops leaves a signal pending. */
  lemma {:induction false} LastSignals(s: State, t: nat, pick: bool)
    requires Inv(s) && CanStep(s, t) && s.g.inProgress && s.g.counter != 0 && Step(s, t, pick).g.counter == 0
    ensures Total(Stepped(s, t, pick).threads, Signals) > 0
  {
    hide Inv, Total, After, CanRun, Ranged, EnterEffect, InEffect, ExitEffect, SettleEffect, FindEffect, RetainEffect, MakeEffect,
         BindEffect, UnbindEffect, RelEffect, ShutEffect, AwaitEffect, StopEffect;
    var i := Head(s, t);
    StepFinal(s.g, i, pick);
    assert i == Finishing(End);
    RunTotal(s, t, pick, Signals);
  }

  lemma {:induction false} StopDozerStays(s: State, t: nat, pick: bool, u: nat)
    requires Inv(s) && CanStep(s, t) && u != t && u in s.dozingStop && Head(s, t) != Finishing(Signal)
    ensures StopDozerOk(Ran(s, t, pick), u)
  {
    hide GlobalOk, InstrsOk, LocksOk, PcsOk, RefsOk, ClientsOk, HandleOk, Total, After, CanRun, EffectOf, Ranged, Dozing, DozingStop, Pending;
    assert StopDozerOk(s, u);
    HeadPending(s, u);
    PendingOk(s, s.threads[u][0]);
    OthersHeads(s, t, pick, u);
    SteppedGlobals(s, t, pick);
    SignalsStay(s, t, pick);
    if s.g.counter != 0 && Step(s, t, pick).g.counter == 0 {
      LastSignals(s, t, pick);
    }
  }

  lemma {:induction false} StopFallsAsleep(s: State, t: nat, pick: bool)
    requires CanStep(s, t) && Head(s, t) == StopAll(CheckCounter) && s.g.counter > 0
    ensures StopDozerOk(Ran(s, t, pick), t)
  {
    hide Total, CanRun, Ranged, Dozing, DozingStop;
  }

  lemma {:induction false} RunStopDozers(s: State, t: nat, pick: bool)
    requires Inv(s) && CanStep(s, t)
    ensures forall u :: u in Ran(s, t, pick).dozingStop ==> StopDozerOk(Ran(s, t, pick), u)
  {
    hide GlobalOk, InstrsOk, LocksOk, PcsOk, RefsOk, ClientsOk, HandleOk, Total, CanRun, Ranged, EffectOf, After, Dozing, Pending;
    var i := Head(s, t);
    assert t in s.dozingStop ==> StopDozerOk(s, t);
    forall u | u in Ran(s, t, pick).dozingStop ensures StopDozerOk(Ran(s, t, pick), u) {
      if u != t {
        StopDozerStays(s, t, pick, u);
      } else if i == StopAll(CheckCounter) && s.g.counter > 0 {
        StopFallsAsleep(s, t, pick);
      }
    }
  }

  lemma {:induction false} RunWaits(s: State, t: nat, pick: bool)
    requires Inv(s) && CanStep(s, t)
    ensures WaitsOk(Ran(s, t, pick))
  {
    hide Inv, Total, CanRun, Ranged, EffectOf, After, Dozing, DozingStop, Pending, DozerOk, StopDozerOk;
    RunDozers(s, t, pick);
    RunStopDozers(s, t, pick);
    SteppedGlobals(s, t, pick);
    forall h: nat | Pending(Stepped(s, t, pick).threads, Awaiting(WaitRefs, h)) && ZeroRefs(Step(s, t, pick).g, h)
      ensures Total(Stepped(s, t, pick).threads, Broadcasts) > 0
    {
      RunWaiters(s, t, pick, h);
    }
  }

  /** An access of any thread keeps the invariant. */
  lemma {:induction false} RunKeepsInv(s: State, t: nat, pick: bool)
    requires Inv(s) && CanStep(s, t)
    ensures Inv(Ran(s, t, pick))
  {
    hide GlobalOk, InstrsOk, LocksOk, PcsOk, WaitsOk, RefsOk, ClientsOk, HandleOk, CanRun, Ranged, EffectOf, After, Dozing, DozingStop,
         BareHandleOk;
    var s' := Stepped(s, t, pick);
    SteppedGlobals(s, t, pick);
    RunGlobal(s, t, pick);
    RunInstrs(s, t, pick);
    RunLocks(s, t, pick);
    RunPcs(s, t, pick);
    RunWaits(s, t, pick);
    forall h | 0 <= h < |s'.g.handles|
      ensures RefsOk(s'.g, s'.threads, h) && ClientsOk(s'.g, s'.threads, h) && HandleOk(s'.g, s'.threads, h)
    {
      if h < |s.g.handles| {
        RunHandle(s, t, pick, h);
      } else {
        RunNewHandle(s, t, pick);
      }
    }
  }
}
