/** Starting an operation, and new threads and connections, keep the invariant. */
module BucketStarts {
  import opened Options
  import opened BucketProtocol
  import opened BucketSums
  import opened BucketInvariant
  import opened BucketTally
  import opened BucketSafety

  predicate IsStart(e: Event) {
    !e.Run? && !e.NewThread? && !e.NewConn?
  }

  /** The first access of an operation holds nothing yet but the connection and, on a release, a reference. */
  predicate Fresh(i: Instr) {
    || (i.Entering? && i.enter == Bump && !i.g.OnDelete?)
    || (i.Finding? && i.find == LockFind)
    || (i.Making? && i.make == LockInsert && i.conn.None?)
    || i.Rel?
    || i == StopAll(LockStop)
  }

  /** Starting changes at most one connection, and no handle. */
  predicate Gentle(g: Globals, e: Effect) {
    && e.second.None? && e.spawned.None? && (e.first.Some? ==> Fresh(e.first.value))
    && e.g == g.(conns := e.g.conns, stopCalled := e.g.stopCalled)
    && |e.g.conns| == |g.conns|
  }

  lemma {:induction false} StartGentle(s: State, ev: Event)
    requires Enabled(s, ev) && IsStart(ev)
    ensures Gentle(s.g, StartEffect(s, ev))
  {
    hide Idle;
  }

  lemma {:induction false} FreshCounts(o: Option<Instr>, k: Kind)
    requires o.Some? ==> Fresh(o.value)
    ensures !k.Refs? && !k.Pcs? ==> OfOption(k, o) == 0
    ensures k.Refs? ==> OfOption(k, o) == One(o == Some(Rel(k.of)))
  {
  }

  lemma {:induction false} StartTotal(s: State, ev: Event, k: Kind)
    requires Enabled(s, ev) && IsStart(ev)
    ensures Total(Next(s, ev).threads, k) == Total(s.threads, k) + OfOption(k, StartEffect(s, ev).first)
  {
    hide Of, Total, Idle;
    var e := StartEffect(s, ev);
    StartGentle(s, ev);
    assert s.threads[ev.t] == [] + [];
    TotalAfter(s, ev.t, [], [], e, k);
  }

  // ---------------------------------------------------------------- connections

  lemma {:induction false} IdleCounts(s: State, c: nat)
    requires Idle(s, c)
    ensures Total(s.threads, Pcs(c)) == 0
  {
    hide Total;
    if Total(s.threads, Pcs(c)) > 0 {
      var i := TotalPositive(s.threads, Pcs(c));
      NotIdle(s, i, c);
    }
  }

  lemma {:induction false} StartPc(s: State, ev: Event)
    requires Enabled(s, ev) && IsStart(ev)
    ensures var o := StartEffect(s, ev).first;
            o.Some? && ConnOf(o.value).Some? ==> Idle(s, ConnOf(o.value).value)
  {
    hide Idle;
  }

  lemma {:induction false} StartPcs(s: State, ev: Event)
    requires Inv(s) && Enabled(s, ev) && IsStart(ev)
    ensures PcsOk(Next(s, ev).threads)
  {
    hide GlobalOk, InstrsOk, LocksOk, WaitsOk, RefsOk, ClientsOk, HandleOk, Total, Idle, Enabled, Next, StartEffect, ConnOf;
    StartPc(s, ev);
    forall c: nat ensures Total(Next(s, ev).threads, Pcs(c)) <= 1 {
      StartTotal(s, ev, Pcs(c));
      var o := StartEffect(s, ev).first;
      if o.Some? && ConnOf(o.value) == Some(c) {
        IdleCounts(s, c);
      } else {
        assert Total(s.threads, Pcs(c)) <= 1;
      }
    }
  }

  /** How a start changes the connections: a release gives one reservation back, a dead connection goes. */
  predicate ConnsStart(s: State, ev: Event, e: Effect) {
    match ev
    case ReleaseCookie(_, c) =>
      && c < |s.g.conns| && s.g.conns[c].reserved > 0 && s.g.conns[c].peh.Some?
      && e.g.conns == s.g.conns[c := s.g.conns[c].(reserved := s.g.conns[c].reserved - 1)]
      && e.first == Some(Rel(s.g.conns[c].peh.value))
    case Disconnect(_, c) =>
      && (e.first.Some? ==> !e.first.value.Rel?)
      && (e.g.conns == s.g.conns
          || (FreeConn(s, c) && s.g.conns[c].peh.None? && s.g.conns[c].reserved == 0
              && e.g.conns == s.g.conns[c := s.g.conns[c].(connected := false)]))
    case _ => e.g.conns == s.g.conns && (e.first.Some? ==> !e.first.value.Rel?)
  }

  lemma {:induction false} StartConns(s: State, ev: Event)
    requires Enabled(s, ev) && IsStart(ev)
    ensures ConnsStart(s, ev, StartEffect(s, ev))
  {
    hide Idle;
  }

  lemma {:induction false} StartRefs(s: State, ev: Event, h: nat)
    requires Inv(s) && Enabled(s, ev) && IsStart(ev) && h < |s.g.handles|
    ensures var s' := Next(s, ev); |s'.g.handles| == |s.g.handles| && RefsOk(s'.g, s'.threads, h)
  {
    hide GlobalOk, InstrsOk, LocksOk, PcsOk, WaitsOk, ClientsOk, HandleOk, Total, Idle, Enabled, StartEffect, ConnTotal, Of;
    var e := StartEffect(s, ev);
    HandleParts(s, h);
    StartGentle(s, ev);
    StartConns(s, ev);
    StartTotal(s, ev, Refs(h));
    FreshCounts(e.first, Refs(h));
    if ev.ReleaseCookie? || ev.Disconnect? {
      if e.g.conns != s.g.conns {
        ConnTotalUpdate(s.g.conns, ev.c, e.g.conns[ev.c], h);
      }
    }
    assert Next(s, ev).g == e.g;
    assert InTable(e.g, h) == InTable(s.g, h);
  }

  lemma {:induction false} StartHandle(s: State, ev: Event, h: nat)
    requires Inv(s) && Enabled(s, ev) && IsStart(ev) && h < |s.g.handles|
    ensures var s' := Next(s, ev);
            && |s'.g.handles| == |s.g.handles|
            && RefsOk(s'.g, s'.threads, h) && ClientsOk(s'.g, s'.threads, h) && HandleOk(s'.g, s'.threads, h)
  {
    hide GlobalOk, InstrsOk, LocksOk, PcsOk, WaitsOk, Total, Idle, Enabled, StartEffect, ConnTotal, Of, InTable, Fresh;
    var e := StartEffect(s, ev);
    HandleParts(s, h);
    StartGentle(s, ev);
    StartRefs(s, ev, h);
    StartSame(s, ev, Bumps(h));
    StartSame(s, ev, Shutters(h));
    StartSame(s, ev, Watchers(h));
    StartSame(s, ev, Starters(h));
    StartSame(s, ev, Insiders(h));
    StartSame(s, ev, Writers(h));
    assert Next(s, ev).g == e.g;
  }

  lemma {:induction false} StartSame(s: State, ev: Event, k: Kind)
    requires Enabled(s, ev) && IsStart(ev) && !k.Refs? && !k.Pcs?
    ensures Total(Next(s, ev).threads, k) == Total(s.threads, k)
  {
    hide Of, Total, Enabled, StartEffect, Next, Fresh;
    StartTotal(s, ev, k);
    StartGentle(s, ev);
    FreshCounts(StartEffect(s, ev).first, k);
  }

  lemma {:induction false} StartLocks(s: State, ev: Event)
    requires Inv(s) && Enabled(s, ev) && IsStart(ev)
    ensures LocksOk(Next(s, ev).g, Next(s, ev).threads)
  {
    hide GlobalOk, InstrsOk, PcsOk, WaitsOk, RefsOk, ClientsOk, HandleOk, Total, Idle, Enabled, StartEffect, Of, Fresh;
    StartGentle(s, ev);
    StartSame(s, ev, Engines);
    StartSame(s, ev, Shutdown);
    StartSame(s, ev, Bodies);
    assert Next(s, ev).g == StartEffect(s, ev).g;
  }

  // ---------------------------------------------------------------- pending accesses and shared state

  lemma {:induction false} StartOther(s: State, ev: Event, j: Instr)
    requires Inv(s) && Enabled(s, ev) && IsStart(ev) && Pending(s.threads, j)
    ensures InstrOk(StartEffect(s, ev).g, j)
  {
    hide GlobalOk, LocksOk, PcsOk, WaitsOk, RefsOk, ClientsOk, HandleOk, Enabled, StartEffect, Fresh, Pending;
    StartGentle(s, ev);
    StartConns(s, ev);
    assert InstrOk(s.g, j);
    if ConnOf(j).Some? && StartEffect(s, ev).g.conns[ConnOf(j).value] != s.g.conns[ConnOf(j).value] && ev.Disconnect? {
      NotIdle(s, j, ev.c);
    }
    SameHandles(s.g, StartEffect(s, ev).g);
  }

  lemma {:induction false} NotIdle(s: State, j: Instr, c: nat)
    requires Idle(s, c) && Pending(s.threads, j)
    ensures ConnOf(j) != Some(c)
  {
    var t, k :| 0 <= t < |s.threads| && 0 <= k < |s.threads[t]| && s.threads[t][k] == j;
    assert ConnOf(s.threads[t][k]) != Some(c);
  }

  lemma {:induction false} SameHandles(g: Globals, g': Globals)
    requires g'.handles == g.handles && g'.table == g.table
    ensures forall h: nat :: InTable(g', h) == InTable(g, h)
  {
  }

  lemma {:induction false} StartFirst(s: State, ev: Event)
    requires Inv(s) && Enabled(s, ev) && IsStart(ev)
    ensures var e := StartEffect(s, ev); e.first.Some? ==> InstrOk(e.g, e.first.value)
  {
    hide InstrsOk, LocksOk, PcsOk, WaitsOk, RefsOk, ClientsOk, HandleOk, BareHandleOk, Idle, TableOk;
    if ev.Call? || ev.Disconnect? || ev.ReleaseCookie? {
      assert ConnOk(s.g, ev.c);
    }
  }

  lemma {:induction false} StartInstrs(s: State, ev: Event)
    requires Inv(s) && Enabled(s, ev) && IsStart(ev)
    ensures InstrsOk(Next(s, ev).g, Next(s, ev).threads)
  {
    hide Inv, Enabled, StartEffect, Fresh, InstrOk, Pending;
    var e, s' := StartEffect(s, ev), Next(s, ev);
    StartGentle(s, ev);
    StartFirst(s, ev);
    assert FreeThread(s, ev.t) by { StartThread(s, ev); }
    assert s.threads[ev.t] == [] + [];
    forall j | Pending(s'.threads, j) ensures InstrOk(s'.g, j) {
      PendingAfter(s, ev.t, [], [], e, j);
      if Pending(Others(s, ev.t, []), j) {
        OthersPending(s, ev.t, [], [], j);
        StartOther(s, ev, j);
      }
    }
  }

  lemma {:induction false} StartThread(s: State, ev: Event)
    requires Enabled(s, ev) && IsStart(ev)
    ensures FreeThread(s, ev.t)
  {
    hide Idle;
  }

  lemma {:induction false} StartGlobal(s: State, ev: Event)
    requires Inv(s) && Enabled(s, ev) && IsStart(ev)
    ensures GlobalOk(Next(s, ev).g)
  {
    hide InstrsOk, LocksOk, PcsOk, WaitsOk, RefsOk, ClientsOk, HandleOk, Enabled, StartEffect, Fresh, Idle, InTable;
    var e := StartEffect(s, ev);
    StartGentle(s, ev);
    StartConns(s, ev);
    assert Next(s, ev).g == e.g;
    SameHandles(s.g, e.g);
    forall c | 0 <= c < |e.g.conns| ensures ConnOk(e.g, c) {
      assert ConnOk(s.g, c);
    }
    forall h | 0 <= h < |e.g.handles| ensures BareHandleOk(e.g, h) {
      assert BareHandleOk(s.g, h);
    }
  }

  lemma {:induction false} StartWaits(s: State, ev: Event)
    requires Inv(s) && Enabled(s, ev) && IsStart(ev)
    ensures WaitsOk(Next(s, ev))
  {
    hide GlobalOk, InstrsOk, LocksOk, PcsOk, RefsOk, ClientsOk, HandleOk, Enabled, StartEffect, Idle, Pending, Total, Of;
    var e, s' := StartEffect(s, ev), Next(s, ev);
    StartGentle(s, ev);
    StartThread(s, ev);
    StartSame(s, ev, Broadcasts);
    StartSame(s, ev, Signals);
    assert s'.g == e.g && s'.dozing == s.dozing && s'.dozingStop == s.dozingStop;
    assert forall u :: 0 <= u < |s.threads| && u != ev.t ==> s'.threads[u] == s.threads[u];
    forall u | u in s'.dozing ensures DozerOk(s', u) {
      assert DozerOk(s, u);
    }
    forall u | u in s'.dozingStop ensures StopDozerOk(s', u) {
      assert StopDozerOk(s, u);
    }
    forall h: nat | Pending(s'.threads, Awaiting(WaitRefs, h)) && ZeroRefs(s'.g, h) ensures Total(s'.threads, Broadcasts) > 0 {
      assert s.threads[ev.t] == [] + [];
      PendingAfter(s, ev.t, [], [], e, Awaiting(WaitRefs, h));
      OthersPending(s, ev.t, [], [], Awaiting(WaitRefs, h));
    }
  }

  lemma {:induction false} StartKeepsInv(s: State, ev: Event)
    requires Inv(s) && Enabled(s, ev) && IsStart(ev)
    ensures Inv(Next(s, ev))
  {
    hide GlobalOk, InstrsOk, LocksOk, PcsOk, WaitsOk, RefsOk, ClientsOk, HandleOk, Enabled, StartEffect;
    StartGlobal(s, ev);
    StartInstrs(s, ev);
    StartLocks(s, ev);
    StartPcs(s, ev);
    StartWaits(s, ev);
    StartGentle(s, ev);
    var s' := Next(s, ev);
    forall h | 0 <= h < |s'.g.handles|
      ensures RefsOk(s'.g, s'.threads, h) && ClientsOk(s'.g, s'.threads, h) && HandleOk(s'.g, s'.threads, h)
    {
      StartHandle(s, ev, h);
    }
  }

  // ---------------------------------------------------------------- new threads and connections

  lemma {:induction false} NewThreadTotal(s: State, k: Kind)
    ensures Total(s.threads + [[]], k) == Total(s.threads, k)
  {
    hide Of;
    TotalConcat(s.threads, [[]], k);
    assert Total([[]], k) == 0;
  }

  lemma {:induction false} NewThreadPending(s: State, i: Instr)
    requires Pending(s.threads + [[]], i)
    ensures Pending(s.threads, i)
  {
    var r := s.threads + [[]];
    var t, j :| 0 <= t < |r| && 0 <= j < |r[t]| && r[t][j] == i;
    assert s.threads[t][j] == i;
  }

  lemma {:induction false} NewThreadHandle(s: State, h: nat)
    requires Inv(s) && h < |s.g.handles|
    ensures var threads := s.threads + [[]]; RefsOk(s.g, threads, h) && ClientsOk(s.g, threads, h) && HandleOk(s.g, threads, h)
  {
    hide Total, ConnTotal, InTable, GlobalOk, InstrsOk, LocksOk, PcsOk, WaitsOk;
    HandleParts(s, h);
    NewThreadTotal(s, Refs(h));
    NewThreadTotal(s, Bumps(h));
    NewThreadTotal(s, Shutters(h));
    NewThreadTotal(s, Watchers(h));
    NewThreadTotal(s, Starters(h));
    NewThreadTotal(s, Insiders(h));
    NewThreadTotal(s, Writers(h));
  }

  lemma {:induction false} NewThreadKeepsInv(s: State)
    requires Inv(s)
    ensures Inv(Next(s, NewThread))
  {
    hide Total, RefsOk, ClientsOk, HandleOk, GlobalOk, Pending, InstrOk, Of;
    var s' := Next(s, NewThread);
    NewThreadTotal(s, Engines);
    NewThreadTotal(s, Shutdown);
    NewThreadTotal(s, Bodies);
    NewThreadTotal(s, Broadcasts);
    NewThreadTotal(s, Signals);
    forall c: nat ensures Total(s'.threads, Pcs(c)) <= 1 {
      NewThreadTotal(s, Pcs(c));
      assert Total(s.threads, Pcs(c)) <= 1;
    }
    forall i | Pending(s'.threads, i) ensures InstrOk(s'.g, i) && Pending(s.threads, i) {
      NewThreadPending(s, i);
    }
    forall h | 0 <= h < |s'.g.handles|
      ensures RefsOk(s'.g, s'.threads, h) && ClientsOk(s'.g, s'.threads, h) && HandleOk(s'.g, s'.threads, h)
    {
      NewThreadHandle(s, h);
    }
    assert forall u :: 0 <= u < |s.threads| ==> s'.threads[u] == s.threads[u];
    forall u | u in s'.dozing ensures DozerOk(s', u) {
      assert DozerOk(s, u);
    }
    forall u | u in s'.dozingStop ensures StopDozerOk(s', u) {
      assert StopDozerOk(s, u);
    }
  }

  lemma {:induction false} NewConnInstr(g: Globals, x: Conn, i: Instr)
    requires InstrOk(g, i)
    ensures InstrOk(g.(conns := g.conns + [x]), i)
  {
    var g' := g.(conns := g.conns + [x]);
    assert forall c :: 0 <= c < |g.conns| ==> g'.conns[c] == g.conns[c];
    SameHandles(g, g');
  }

  lemma {:induction false} NewConnRefs(s: State, h: nat)
    requires Inv(s) && h < |s.g.handles|
    ensures RefsOk(Next(s, NewConn).g, s.threads, h)
  {
    hide GlobalOk, InstrsOk, LocksOk, PcsOk, WaitsOk, ClientsOk, HandleOk, Total;
    HandleParts(s, h);
    ConnTotalConcat(s.g.conns, [Conn(None, true, 0)], h);
    assert ConnTotal([Conn(None, true, 0)], h) == 0;
    SameHandles(s.g, Next(s, NewConn).g);
  }

  lemma {:induction false} NewConnKeepsInv(s: State)
    requires Inv(s)
    ensures Inv(Next(s, NewConn))
  {
    hide Total, Pending, InstrOk, RefsOk, InTable, BareHandleOk, DozerOk, StopDozerOk;
    var s' := Next(s, NewConn);
    forall i | Pending(s'.threads, i) ensures InstrOk(s'.g, i) {
      NewConnInstr(s.g, Conn(None, true, 0), i);
    }
    forall h | 0 <= h < |s'.g.handles|
      ensures RefsOk(s'.g, s'.threads, h) && BareHandleOk(s'.g, h) && ClientsOk(s'.g, s'.threads, h) && HandleOk(s'.g, s'.threads, h)
    {
      HandleParts(s, h);
      NewConnRefs(s, h);
      NewConnBare(s.g, Conn(None, true, 0), h);
    }
    forall c | 0 <= c < |s'.g.conns| ensures ConnOk(s'.g, c) {
      if c < |s.g.conns| {
        assert ConnOk(s.g, c);
      }
    }
    forall u | u in s'.dozing ensures DozerOk(s', u) {
      NewConnDozer(s, u);
    }
    forall u | u in s'.dozingStop ensures StopDozerOk(s', u) {
      NewConnDozer(s, u);
    }
  }

  lemma {:induction false} NewConnBare(g: Globals, x: Conn, h: nat)
    requires h < |g.handles| && BareHandleOk(g, h)
    ensures BareHandleOk(g.(conns := g.conns + [x]), h)
  {
    SameHandles(g, g.(conns := g.conns + [x]));
  }

  lemma {:induction false} NewConnDozer(s: State, u: nat)
    ensures DozerOk(s, u) ==> DozerOk(Next(s, NewConn), u)
    ensures StopDozerOk(s, u) ==> StopDozerOk(Next(s, NewConn), u)
  {
    hide Total;
  }
}
