/** What holds in every state that any interleaving of the bucket protocol can reach. */
module BucketTheorems {
  import opened Options
  import opened BucketProtocol
  import opened BucketSums
  import opened BucketInvariant
  import opened BucketFrames
  import opened BucketSafety
  import opened BucketStarts

  lemma {:induction false} InitialInv()
    ensures Inv(Initial())
  {
  }

  /** Every enabled event keeps the invariant. */
  lemma {:induction false} NextKeepsInv(s: State, ev: Event)
    requires Inv(s) && Enabled(s, ev)
    ensures Inv(Next(s, ev))
  {
    hide Inv, CanRun, Ranged, StartEffect, EffectOf, Dozing, DozingStop, After, Idle;
    if ev.Run? {
      RunKeepsInv(s, ev.t, ev.pick);
    } else if ev.NewThread? {
      NewThreadKeepsInv(s);
    } else if ev.NewConn? {
      NewConnKeepsInv(s);
    } else {
      StartKeepsInv(s, ev);
    }
  }

  lemma {:induction false} RunsKeepInv(s: State, es: seq<Event>)
    requires Inv(s) && IsRun(s, es)
    ensures Inv(StateAfter(s, es))
    decreases |es|
  {
    hide Inv, Enabled, Next;
    if es != [] {
      NextKeepsInv(s, es[0]);
      RunsKeepInv(Next(s, es[0]), es[1..]);
    }
  }

  /** A state some run leads to. */
  ghost predicate Reachable(s: State) {
    exists es :: IsRun(Initial(), es) && StateAfter(Initial(), es) == s
  }

  lemma {:induction false} ReachableInv(s: State)
    requires Reachable(s)
    ensures Inv(s)
  {
    hide Inv, IsRun, StateAfter;
    var es :| IsRun(Initial(), es) && StateAfter(Initial(), es) == s;
    InitialInv();
    RunsKeepInv(Initial(), es);
  }

  // ---------------------------------------------------------------- engine calls and shutdown

  /**
   While a thread has been given a handle and has not released it, the bucket is neither stopped
   nor unlinked, and no thread destroys its engine.
   */
  lemma {:induction false} CallsNeverOverlapShutdown(s: State, i: Instr, h: nat)
    requires Reachable(s) && Pending(s.threads, i) && IsInsider(i, h)
    ensures h < |s.g.handles| && (s.g.handles[h].state == Running || s.g.handles[h].state == Stopping)
    ensures !Pending(s.threads, Shutting(DestroyEngine, h))
  {
    hide Inv, Pending, Total, Reachable;
    ReachableInv(s);
    PendingOk(s, i);
    HandleParts(s, h);
    PendingCounts(s.threads, i, Insiders(h));
    if Pending(s.threads, Shutting(DestroyEngine, h)) {
      PendingOk(s, Shutting(DestroyEngine, h));
    }
  }

  /** A thread that was turned away, or whose delete came second, met a bucket marked for deletion; that stays so. */
  lemma {:induction false} RefusedOnlyIfMarked(s: State, h: nat, why: Guard)
    requires Reachable(s) && Pending(s.threads, Leaving(Dec, h, why))
    ensures h < |s.g.handles| && s.g.handles[h].state != Running
  {
    hide Inv, Pending, Reachable;
    ReachableInv(s);
    PendingOk(s, Leaving(Dec, h, why));
  }

  // ---------------------------------------------------------------- references

  /** The reference count is exact in every reachable state. */
  lemma {:induction false} RefcountIsExact(s: State, h: nat)
    requires Reachable(s) && h < |s.g.handles|
    ensures s.g.handles[h].refcount == One(InTable(s.g, h)) + ConnTotal(s.g.conns, h) + Total(s.threads, Refs(h))
    ensures s.g.handles[h].clients == Total(s.threads, Bumps(h))
  {
    hide Inv, Total, ConnTotal, InTable, Reachable;
    ReachableInv(s);
    HandleParts(s, h);
  }

  /** What a pending access keeps its handle alive with. */
  lemma {:induction false} KeptAlive(s: State, i: Instr, h: nat)
    requires Inv(s) && Pending(s.threads, i) && HandleOf(i) == Some(h)
    ensures h < |s.g.handles| && (s.g.handles[h].refcount > 0 || i.Shutting? || i.Awaiting?)
  {
    hide Inv, Pending, Total, ConnTotal, InTable, LocksOk;
    PendingOk(s, i);
    HandleParts(s, h);
    PendingCounts(s.threads, i, Refs(h));
    if ConnOf(i).Some? {
      ConnTotalAtLeast(s.g.conns, ConnOf(i).value, h);
    }
  }

  /** Unless the whole proxy is stopping, nothing that can still be reached is freed. */
  lemma {:induction false} FreedIsUnreachable(s: State, h: nat)
    requires Reachable(s) && h < |s.g.handles| && s.g.handles[h].freed && !s.g.inProgress
    ensures s.g.handles[h].refcount == 0 && !InTable(s.g, h)
    ensures forall c :: 0 <= c < |s.g.conns| && s.g.conns[c].peh == Some(h) ==> !s.g.conns[c].connected && s.g.conns[c].reserved == 0
    ensures forall i :: Pending(s.threads, i) ==> HandleOf(i) != Some(h)
  {
    hide Inv, Pending, Total, ConnTotal, InTable, Reachable, HandleOf;
    ReachableInv(s);
    HandleParts(s, h);
    forall c | 0 <= c < |s.g.conns| && s.g.conns[c].peh == Some(h) ensures !s.g.conns[c].connected && s.g.conns[c].reserved == 0 {
      ConnTotalAtLeast(s.g.conns, c, h);
    }
    forall i | Pending(s.threads, i) ensures HandleOf(i) != Some(h) {
      if HandleOf(i) == Some(h) {
        FreedNotTouched(s, i, h);
      }
    }
  }

  lemma {:induction false} FreedNotTouched(s: State, i: Instr, h: nat)
    requires Inv(s) && Pending(s.threads, i) && h < |s.g.handles| && s.g.handles[h].freed && !s.g.inProgress
    ensures HandleOf(i) != Some(h)
  {
    hide Inv, Pending, Total, InTable;
    if HandleOf(i) == Some(h) {
      KeptAlive(s, i, h);
      HandleParts(s, h);
      PendingCounts(s.threads, i, Shutters(h));
    }
  }

  /** A handle is freed at most once, also while the proxy stops. */
  lemma {:induction false} FreedOnce(s: State, h: nat)
    requires Reachable(s) && Pending(s.threads, Awaiting(FreeHandle, h))
    ensures h < |s.g.handles| && !s.g.handles[h].freed
    ensures Total(s.threads, Shutters(h)) == 1
  {
    hide Inv, Pending, Total, InTable, Reachable;
    ReachableInv(s);
    var i := Awaiting(FreeHandle, h);
    PendingOk(s, i);
    HandleParts(s, h);
    PendingCounts(s.threads, i, Shutters(h));
  }

  /** A reference count of zero never rises again, whatever happens next. */
  lemma {:induction false} ZeroStaysZero(s: State, ev: Event, h: nat)
    requires Reachable(s) && Enabled(s, ev) && h < |s.g.handles| && s.g.handles[h].refcount == 0
    ensures !InTable(s.g, h)
    ensures h < |Next(s, ev).g.handles| && Next(s, ev).g.handles[h].refcount == 0 && !InTable(Next(s, ev).g, h)
  {
    hide Inv, Total, ConnTotal, InTable, Reachable, CanRun, Ranged, EffectOf, StartEffect, Idle;
    ReachableInv(s);
    HandleParts(s, h);
    NextKeepsInv(s, ev);
    if ev.Run? {
      RunZero(s, ev.t, ev.pick, h);
    } else if !ev.NewThread? && !ev.NewConn? {
      StartGentle(s, ev);
    }
    assert Next(s, ev).g.handles[h].refcount == 0;
    HandleParts(Next(s, ev), h);
  }

  /** Dropping a reference or a client count never makes it negative. */
  lemma {:induction false} CountsStayNonNegative(s: State, i: Instr, h: nat)
    requires Reachable(s) && Pending(s.threads, i)
    ensures i == Rel(h) ==> h < |s.g.handles| && s.g.handles[h].refcount >= 1
    ensures i.Leaving? && (i.exit == Release || i.exit == Dec) && i.h == h ==> h < |s.g.handles| && s.g.handles[h].clients >= 1
  {
    hide Inv, Pending, Total, ConnTotal, InTable, Reachable;
    ReachableInv(s);
    if HandleOf(i) == Some(h) {
      PendingOk(s, i);
      HandleParts(s, h);
      PendingCounts(s.threads, i, Refs(h));
      PendingCounts(s.threads, i, Bumps(h));
    }
  }

  // ---------------------------------------------------------------- deletion

  /** Nobody has anything left to do. */
  predicate Quiescent(s: State) {
    forall t | 0 <= t < |s.threads| :: s.threads[t] == []
  }

  /**
   A bucket marked for deletion still has a client inside, or some thread is between giving back
   the last client count and starting the shutdown.
   */
  lemma {:induction false} DeletionNotLost(s: State, h: nat) returns (i: Instr)
    requires Reachable(s) && h < |s.g.handles| && s.g.handles[h].state == Stopping
    ensures Pending(s.threads, i) && (Of(Bumps(h), i) > 0 || Of(Watchers(h), i) > 0)
    ensures !Quiescent(s)
  {
    hide Inv, Pending, Total, InTable, Reachable, Of;
    ReachableInv(s);
    HandleParts(s, h);
    if s.g.handles[h].clients > 0 {
      i := TotalPositive(s.threads, Bumps(h));
    } else {
      i := TotalPositive(s.threads, Watchers(h));
    }
    PendingNotQuiescent(s, i);
  }

  lemma {:induction false} PendingNotQuiescent(s: State, i: Instr)
    requires Pending(s.threads, i)
    ensures !Quiescent(s)
  {
  }

  /**
   A shutdown is started at most once for a handle, exactly when its state is past stopping, and
   by then it is known who asked for the deletion and how.
   */
  lemma {:induction false} StartedOnce(s: State, h: nat)
    requires Reachable(s) && h < |s.g.handles|
    ensures s.g.handles[h].started <= 1 && Total(s.threads, Shutters(h)) <= 1
    ensures s.g.handles[h].started == 1 <==> s.g.handles[h].state == Stopped || s.g.handles[h].state == Null
    ensures s.g.handles[h].started == 1 ==> s.g.handles[h].cookie.Some? && s.g.handles[h].force.Some?
  {
    hide Inv, Total, InTable, Reachable;
    ReachableInv(s);
    HandleParts(s, h);
    WritersInside(s.threads, h);
  }

  lemma {:induction false} WritersInside(threads: Threads, h: nat)
    ensures Total(threads, Writers(h)) <= Total(threads, Insiders(h))
  {
    TotalMonotone(threads, Writers(h), Insiders(h));
  }

  /** The shutdown thread finds its own handle in the table, under its own name. */
  lemma {:induction false} UnlinksItself(s: State, h: nat)
    requires Reachable(s) && Pending(s.threads, Shutting(Unlink, h))
    ensures InTable(s.g, h)
    ensures forall k: nat :: InTable(EffectOf(s.g, Shutting(Unlink, h), false).g, k) <==> InTable(s.g, k) && k != h
  {
    hide Inv, Pending, Reachable;
    ReachableInv(s);
    PendingOk(s, Shutting(Unlink, h));
  }

  function Rank(st: BucketState): nat {
    match st
    case Running => 0
    case Stopping => 1
    case Stopped => 2
    case Null => 3
  }

  /** A bucket never goes back to an earlier state. */
  lemma {:induction false} StatesOnlyAdvance(s: State, ev: Event, h: nat)
    requires Reachable(s) && Enabled(s, ev) && h < |s.g.handles|
    ensures h < |Next(s, ev).g.handles|
    ensures Rank(s.g.handles[h].state) <= Rank(Next(s, ev).g.handles[h].state)
  {
    hide Inv, InTable, Reachable, CanRun, Ranged, EffectOf, StartEffect, Idle, Pending, HandleOk, RefsOk, ClientsOk, BareHandleOk;
    ReachableInv(s);
    if ev.Run? {
      RunZero(s, ev.t, ev.pick, h);
    } else if !ev.NewThread? && !ev.NewConn? {
      StartGentle(s, ev);
    }
  }

  // ---------------------------------------------------------------- waiting and stopping

  /** No lost wake-up: a shutdown thread asleep with nothing to wait for has a broadcast coming. */
  lemma {:induction false} NoLostWakeup(s: State, t: nat) returns (i: Instr)
    requires Reachable(s) && t in s.dozing
    requires t < |s.threads| && s.threads[t] != [] && s.threads[t][0].Awaiting?
    requires s.g.inProgress || ZeroRefs(s.g, s.threads[t][0].h)
    ensures Pending(s.threads, i) && (i == LockBroadcast || i == Broadcast || i == StopAll(BroadcastAll))
  {
    hide GlobalOk, InstrsOk, LocksOk, PcsOk, RefsOk, ClientsOk, HandleOk, Total, Pending, Reachable;
    ReachableInv(s);
    assert DozerOk(s, t);
    i := TotalPositive(s.threads, Broadcasts);
  }

  /** The stopping thread asleep although no shutdown runs has a signal coming. */
  lemma {:induction false} NoLostSignal(s: State, t: nat)
    requires Reachable(s) && t in s.dozingStop && s.g.counter == 0
    ensures Pending(s.threads, Finishing(Signal))
  {
    hide GlobalOk, InstrsOk, LocksOk, PcsOk, RefsOk, ClientsOk, HandleOk, Total, Pending, Reachable;
    ReachableInv(s);
    assert StopDozerOk(s, t);
    var i := TotalPositive(s.threads, Signals);
  }

  /** After the stop has waited, no shutdown thread is inside its body, and none can enter it. */
  lemma {:induction false} SoundStop(s: State, ev: Event)
    requires Reachable(s) && s.g.finalized && Enabled(s, ev)
    ensures forall i :: Pending(s.threads, i) ==> !InBody(i)
    ensures Next(s, ev).g.finalized && Next(s, ev).g.counter == 0
    ensures forall i :: Pending(Next(s, ev).threads, i) ==> !InBody(i)
  {
    hide Inv, Total, Pending, Reachable, CanRun, Ranged, EffectOf, StartEffect, Idle, InBody, Enabled, Next;
    ReachableInv(s);
    NextKeepsInv(s, ev);
    FinalStays(s, ev);
    forall i | Pending(s.threads, i) ensures !InBody(i) {
      NoBodies(s, i);
    }
    forall i | Pending(Next(s, ev).threads, i) ensures !InBody(i) {
      NoBodies(Next(s, ev), i);
    }
    assert FinalOk(Next(s, ev).g) by { FinalPart(Next(s, ev)); }
  }

  lemma {:induction false} FinalPart(s: State)
    requires Inv(s)
    ensures FinalOk(s.g)
  {
  }

  lemma {:induction false} NoBodies(s: State, i: Instr)
    requires Inv(s) && s.g.finalized && Pending(s.threads, i)
    ensures !InBody(i)
  {
    hide InstrsOk, PcsOk, WaitsOk, RefsOk, ClientsOk, HandleOk, Total, Pending, TableOk, BareHandleOk, ConnOk, InBody;
    PendingCounts(s.threads, i, Bodies);
  }

  lemma {:induction false} FinalStays(s: State, ev: Event)
    requires Enabled(s, ev) && s.g.finalized
    ensures Next(s, ev).g.finalized
  {
    hide CanRun, EffectOf, StartEffect, Idle;
    if ev.Run? {
      StepFinal(s.g, s.threads[ev.t][0], ev.pick);
      if s.threads[ev.t][0] == StopAll(CheckCounter) {
        FinalChecked(s.g, ev.pick);
      }
    } else if !ev.NewThread? && !ev.NewConn? {
      StartGentle(s, ev);
    }
  }

  lemma {:induction false} FinalChecked(g: Globals, pick: bool)
    requires g.finalized
    ensures EffectOf(g, StopAll(CheckCounter), pick).g.finalized
  {
  }
}
