/** What each access does, seen from one handle, one connection or one other pending access. */
module BucketSteps {
  import opened Options
  import opened BucketProtocol
  import opened BucketSums
  import opened BucketInvariant

  // ---------------------------------------------------------------- counts after a step

  predicate Engined(o: Option<Instr>) {
    o.Some? && HoldsEngines(o.value)
  }

  predicate Shutdowned(o: Option<Instr>) {
    o.Some? && HoldsShutdown(o.value)
  }

  predicate Bodied(o: Option<Instr>) {
    o.Some? && InBody(o.value)
  }

  function Conned(o: Option<Instr>): Option<nat> {
    if o.Some? then ConnOf(o.value) else None
  }

  /** Both locks and the counter of running shutdowns follow the pending accesses. */
  predicate LocksFollow(g: Globals, i: Instr, e: Effect) {
    && !(Engined(e.first) && Engined(e.second)) && !Engined(e.spawned)
    && e.g.enginesHeld == (Engined(e.first) || Engined(e.second) || (!HoldsEngines(i) && g.enginesHeld))
    && !(Shutdowned(e.first) && Shutdowned(e.second)) && !Shutdowned(e.spawned)
    && e.g.shutdownHeld == (Shutdowned(e.first) || Shutdowned(e.second) || (!HoldsShutdown(i) && g.shutdownHeld))
    && !(Bodied(e.first) && Bodied(e.second)) && !Bodied(e.spawned)
    && e.g.counter - g.counter == One(Bodied(e.first) || Bodied(e.second)) - One(InBody(i))
    && (Engined(e.first) || Engined(e.second) ==> HoldsEngines(i) || !g.enginesHeld)
    && (Shutdowned(e.first) || Shutdowned(e.second) ==> HoldsShutdown(i) || !g.shutdownHeld)
  }

  /** The operation on a connection goes on in one place at most, and no other connection gets one. */
  predicate PcMoves(i: Instr, e: Effect) {
    var a, b := Conned(e.first), Conned(e.second);
    && (a == None || a == ConnOf(i)) && (b == None || b == ConnOf(i)) && (a == None || b == None)
    && Conned(e.spawned) == None
  }

  /** An access made under a lock is made with the lock held. */
  predicate LocksHeld(g: Globals, i: Instr) {
    (HoldsEngines(i) ==> g.enginesHeld) && (HoldsShutdown(i) ==> g.shutdownHeld)
  }

  lemma {:induction false} EnterLocks(g: Globals, at: EnterStep, h: nat, why: Guard)
    requires h < |g.handles|
    ensures var i, e := Entering(at, h, why), EnterEffect(g, at, h, why); LocksFollow(g, i, e) && PcMoves(i, e)
  {
    hide SetHandle, AddClients, SetState;
  }

  lemma {:induction false} InLocks(g: Globals, at: InStep, h: nat, why: Guard, pick: bool)
    requires h < |g.handles| && why.c < |g.conns|
    ensures var i, e := Inside(at, h, why), InEffect(g, at, h, why, pick); LocksFollow(g, i, e) && PcMoves(i, e)
  {
    hide SetHandle, SetConn, AddRefs;
  }

  lemma {:induction false} ExitLocks(g: Globals, at: ExitStep, h: nat, why: Guard)
    requires h < |g.handles|
    ensures var i, e := Leaving(at, h, why), ExitEffect(g, at, h, why); LocksFollow(g, i, e) && PcMoves(i, e)
  {
    hide SetHandle, AddClients;
  }

  lemma {:induction false} SettleLocks(g: Globals, at: SettleStep, h: nat, c: nat)
    requires h < |g.handles| && c < |g.conns|
    ensures var i, e := Settling(at, h, c), SettleEffect(g, at, h, c); LocksFollow(g, i, e) && PcMoves(i, e)
  {
    hide SetConn;
  }

  lemma {:induction false} FindLocks(g: Globals, at: FindStep, name: Name, p: Purpose)
    requires at == LockFind ==> !g.enginesHeld
    requires LocksHeld(g, Finding(at, name, p))
    ensures var i, e := Finding(at, name, p), FindEffect(g, at, name, p); LocksFollow(g, i, e) && PcMoves(i, e)
  {
  }

  lemma {:induction false} RetainLocks(g: Globals, at: RetainStep, h: nat, p: Purpose)
    requires h < |g.handles|
    requires LocksHeld(g, Retaining(at, h, p))
    ensures var i, e := Retaining(at, h, p), RetainEffect(g, at, h, p); LocksFollow(g, i, e) && PcMoves(i, e)
  {
    hide AddRefs;
  }

  lemma {:induction false} MakeLocks(g: Globals, at: MakeStep, name: Name, conn: Option<nat>, pick: bool)
    requires at == LockInsert ==> !g.enginesHeld
    requires LocksHeld(g, Making(at, name, conn))
    ensures var i, e := Making(at, name, conn), MakeEffect(g, at, name, conn, pick); LocksFollow(g, i, e) && PcMoves(i, e)
  {
    hide WithNewBucket;
  }

  lemma {:induction false} BindLocks(g: Globals, at: BindStep, h: nat, c: nat)
    requires h < |g.handles| && c < |g.conns|
    ensures var i, e := Binding(at, h, c), BindEffect(g, at, h, c); LocksFollow(g, i, e) && PcMoves(i, e)
  {
    hide SetConn, AddRefs;
  }

  lemma {:induction false} ShutLocks(g: Globals, at: ShutStep, h: nat)
    requires h < |g.handles| && (at == LockBegin ==> !g.shutdownHeld) && (at == LockUnlink ==> !g.enginesHeld)
    requires LocksHeld(g, Shutting(at, h))
    ensures var i, e := Shutting(at, h), ShutEffect(g, at, h); LocksFollow(g, i, e) && PcMoves(i, e)
  {
    hide SetHandle, SetState, Unlinked;
    if at == Unlink || at == ClearState || at == LockUnlink {
      UnlinkLocks(g, at, h);
    }
  }

  lemma {:induction false} UnlinkLocks(g: Globals, at: ShutStep, h: nat)
    requires h < |g.handles| && (at == LockUnlink ==> !g.enginesHeld) && (at == Unlink || at == ClearState || at == LockUnlink)
    requires LocksHeld(g, Shutting(at, h))
    ensures var i, e := Shutting(at, h), ShutEffect(g, at, h); LocksFollow(g, i, e) && PcMoves(i, e)
  {
    hide SetHandle, SetState, Unlinked;
  }

  lemma {:induction false} AwaitLocks(g: Globals, at: AwaitStep, h: nat)
    requires h < |g.handles| && (at == LockCheck ==> !g.shutdownHeld)
    requires LocksHeld(g, Awaiting(at, h))
    ensures var i, e := Awaiting(at, h), AwaitEffect(g, at, h); LocksFollow(g, i, e) && PcMoves(i, e)
  {
    hide SetHandle;
  }

  lemma {:induction false} FinishLocks(g: Globals, at: FinishStep)
    requires at == LockEnd ==> !g.shutdownHeld
    requires LocksHeld(g, Finishing(at))
    ensures var i, e := Finishing(at), FinishEffect(g, at); LocksFollow(g, i, e) && PcMoves(i, e)
  {
  }

  lemma {:induction false} StopLocks(g: Globals, at: StopStep)
    requires at == LockStop || at == LockCounter ==> !g.shutdownHeld
    requires LocksHeld(g, StopAll(at))
    ensures var i, e := StopAll(at), StopEffect(g, at); LocksFollow(g, i, e) && PcMoves(i, e)
  {
  }

  lemma {:induction false} StepLocks(g: Globals, i: Instr, pick: bool)
    requires Ranged(g, i) && CanRun(g, i) && LocksHeld(g, i)
    ensures LocksFollow(g, i, EffectOf(g, i, pick)) && PcMoves(i, EffectOf(g, i, pick))
  {
    hide EnterEffect, InEffect, ExitEffect, SettleEffect, FindEffect, RetainEffect, MakeEffect, BindEffect, ShutEffect,
         AwaitEffect, FinishEffect, StopEffect, LocksFollow, PcMoves;
    match i
    case Entering(at, h, why) => EnterLocks(g, at, h, why);
    case Inside(at, h, why) => InLocks(g, at, h, why, pick);
    case Leaving(at, h, why) => ExitLocks(g, at, h, why);
    case Settling(at, h, c) => SettleLocks(g, at, h, c);
    case Finding(at, name, p) => FindLocks(g, at, name, p);
    case Retaining(at, h, p) => RetainLocks(g, at, h, p);
    case Making(at, name, conn) => MakeLocks(g, at, name, conn, pick);
    case Binding(at, h, c) => BindLocks(g, at, h, c);
    case Shutting(at, h) => ShutLocks(g, at, h);
    case Awaiting(at, h) => AwaitLocks(g, at, h);
    case Finishing(at) => FinishLocks(g, at);
    case StopAll(at) => StopLocks(g, at);
    case _ => PlainLocks(g, i, pick);
  }

  lemma {:induction false} PlainLocks(g: Globals, i: Instr, pick: bool)
    requires Ranged(g, i) && CanRun(g, i) && LocksHeld(g, i)
    requires i.UnlockEngines? || i.Unbind? || i.Rel? || i.LockBroadcast? || i.Broadcast? || i.UnlockShutdown?
    ensures LocksFollow(g, i, EffectOf(g, i, pick)) && PcMoves(i, EffectOf(g, i, pick))
  {
    hide SetConn, AddRefs, EnterEffect, InEffect, ExitEffect, SettleEffect, FindEffect, RetainEffect, MakeEffect, BindEffect,
         ShutEffect, AwaitEffect, FinishEffect, StopEffect;
  }

  // ---------------------------------------------------------------- what a step leaves behind

  /** The accesses a step leaves behind may be made. */
  predicate LeavesOk(e: Effect) {
    && (e.first.Some? ==> InstrOk(e.g, e.first.value))
    && (e.second.Some? ==> InstrOk(e.g, e.second.value))
    && (e.spawned.Some? ==> InstrOk(e.g, e.spawned.value))
  }

  lemma {:induction false} EnterLeaves(g: Globals, at: EnterStep, h: nat, why: Guard)
    requires InstrOk(g, Entering(at, h, why))
    ensures LeavesOk(EnterEffect(g, at, h, why))
  {
    hide InTable;
  }

  lemma {:induction false} InLeaves(g: Globals, at: InStep, h: nat, why: Guard, pick: bool)
    requires InstrOk(g, Inside(at, h, why))
    ensures LeavesOk(InEffect(g, at, h, why, pick))
  {
    hide InTable;
  }

  lemma {:induction false} ExitLeaves(g: Globals, at: ExitStep, h: nat, why: Guard)
    requires InstrOk(g, Leaving(at, h, why)) && BareHandleOk(g, h)
    ensures LeavesOk(ExitEffect(g, at, h, why))
  {
  }

  lemma {:induction false} SettleLeaves(g: Globals, at: SettleStep, h: nat, c: nat)
    requires InstrOk(g, Settling(at, h, c))
    ensures LeavesOk(SettleEffect(g, at, h, c))
  {
    hide InTable;
  }

  lemma {:induction false} FindLeaves(g: Globals, at: FindStep, name: Name, p: Purpose)
    requires InstrOk(g, Finding(at, name, p))
    requires name in g.table ==> g.table[name] < |g.handles| && g.handles[g.table[name]].name == name
    ensures LeavesOk(FindEffect(g, at, name, p))
  {
  }

  lemma {:induction false} RetainLeaves(g: Globals, at: RetainStep, h: nat, p: Purpose)
    requires InstrOk(g, Retaining(at, h, p))
    ensures LeavesOk(RetainEffect(g, at, h, p))
  {
  }

  lemma {:induction false} MakeLeaves(g: Globals, at: MakeStep, name: Name, conn: Option<nat>, pick: bool)
    requires InstrOk(g, Making(at, name, conn))
    ensures LeavesOk(MakeEffect(g, at, name, conn, pick))
  {
    hide InTable;
  }

  lemma {:induction false} BindLeaves(g: Globals, at: BindStep, h: nat, c: nat)
    requires InstrOk(g, Binding(at, h, c)) && CanRun(g, Binding(at, h, c)) && ConnOk(g, c)
    ensures LeavesOk(BindEffect(g, at, h, c))
  {
    hide InTable;
  }

  lemma {:induction false} ShutLeaves(g: Globals, at: ShutStep, h: nat)
    requires InstrOk(g, Shutting(at, h))
    ensures LeavesOk(ShutEffect(g, at, h))
  {
  }

  lemma {:induction false} AwaitLeaves(g: Globals, at: AwaitStep, h: nat)
    requires InstrOk(g, Awaiting(at, h)) && g.handles[h].refcount >= 0
    ensures LeavesOk(AwaitEffect(g, at, h))
  {
  }

  lemma {:induction false} StopLeaves(g: Globals, at: StopStep)
    requires InstrOk(g, StopAll(at))
    ensures LeavesOk(StopEffect(g, at))
  {
    hide InTable;
  }

  lemma {:induction false} PlainLeaves(g: Globals, i: Instr, pick: bool)
    requires InstrOk(g, i) && (i.Unbind? ==> ConnOk(g, i.c))
    requires i.UnlockEngines? || i.Unbind? || i.Rel? || i.LockBroadcast? || i.Broadcast? || i.UnlockShutdown? || i.Finishing?
    ensures LeavesOk(EffectOf(g, i, pick))
  {
    hide InTable, EnterEffect, InEffect, ExitEffect, SettleEffect, FindEffect, RetainEffect, MakeEffect, BindEffect,
         ShutEffect, AwaitEffect, StopEffect;
  }

  /** The table entry of a name leads to a handle of that name. */
  lemma {:induction false} TableEntry(g: Globals, name: Name)
    requires GlobalOk(g)
    ensures name in g.table ==> g.table[name] < |g.handles| && g.handles[g.table[name]].name == name
  {
    hide BareHandleOk, ConnOk;
  }

  lemma {:induction false} Parts(g: Globals, i: Instr)
    requires GlobalOk(g) && Ranged(g, i)
    ensures HandleOf(i).Some? ==> BareHandleOk(g, HandleOf(i).value)
    ensures ConnOf(i).Some? ==> ConnOk(g, ConnOf(i).value)
  {
    hide BareHandleOk, ConnOk;
  }

  lemma {:induction false} StepLeaves(g: Globals, i: Instr, pick: bool)
    requires GlobalOk(g) && InstrOk(g, i) && CanRun(g, i)
    requires HandleOf(i).Some? ==> g.handles[HandleOf(i).value].refcount >= 0
    ensures LeavesOk(EffectOf(g, i, pick))
  {
    hide EnterEffect, InEffect, ExitEffect, SettleEffect, FindEffect, RetainEffect, MakeEffect, BindEffect, ShutEffect, UnbindEffect,
         RelEffect, AwaitEffect, FinishEffect, StopEffect, LeavesOk, InstrOk, GlobalOk, BareHandleOk, ConnOk, CanRun;
    assert Ranged(g, i) by { OkRanged(g, i); }
    Parts(g, i);
    match i
    case Entering(at, h, why) => EnterLeaves(g, at, h, why);
    case Inside(at, h, why) => InLeaves(g, at, h, why, pick);
    case Leaving(at, h, why) => ExitLeaves(g, at, h, why);
    case Settling(at, h, c) => SettleLeaves(g, at, h, c);
    case Finding(at, name, p) => TableEntry(g, name); FindLeaves(g, at, name, p);
    case Retaining(at, h, p) => RetainLeaves(g, at, h, p);
    case Making(at, name, conn) => MakeLeaves(g, at, name, conn, pick);
    case Binding(at, h, c) => BindLeaves(g, at, h, c);
    case Shutting(at, h) => ShutLeaves(g, at, h);
    case Awaiting(at, h) => AwaitLeaves(g, at, h);
    case StopAll(at) => StopLeaves(g, at);
    case _ => PlainLeaves(g, i, pick);
  }

  lemma {:induction false} OkRanged(g: Globals, i: Instr)
    requires InstrOk(g, i)
    ensures Ranged(g, i)
  {
  }
}
