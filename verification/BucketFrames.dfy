/** How an access changes one handle, and what it leaves alone. */
module BucketFrames {
  import opened Options
  import opened BucketProtocol
  import opened BucketSums
  import opened BucketInvariant

  /** The handle whose reference count an access changes. */
  function RefTouched(i: Instr): Option<nat> {
    match i
    case Inside(at, h, _) => if at == ReserveRef then Some(h) else None
    case Retaining(at, h, _) => if at == RetainRef then Some(h) else None
    case Binding(at, h, _) => if at == BindRef then Some(h) else None
    case Rel(h) => Some(h)
    case _ => None
  }

  predicate Stops(i: Instr, h: nat) {
    i.Entering? && i.enter == CasStopping && i.h == h
  }

  predicate Starts(i: Instr, h: nat) {
    i.Leaving? && i.exit == CasStopped && i.h == h
  }

  /** The state only moves from running to stopping to stopped to null, each by one access. */
  predicate StateEvolves(x: Handle, x': Handle, i: Instr, h: nat) {
    if Stops(i, h) && x.state == Running then x'.state == Stopping && x'.started == x.started
    else if Starts(i, h) && x.state == Stopping then x'.state == Stopped && x'.started == x.started + 1
    else if i == Shutting(ClearState, h) then x'.state == Null && x'.started == x.started
    else x'.state == x.state && x'.started == x.started
  }

  predicate HandleEvolves(x: Handle, x': Handle, i: Instr, h: nat) {
    && x'.name == x.name
    && StateEvolves(x, x', i, h)
    && (if i.Inside? && i.inside == WriteCookie && i.h == h then x'.cookie == Some(i.g.c) else x'.cookie == x.cookie)
    && (if i.Inside? && i.inside == WriteForce && i.h == h then x'.force == Some(i.g.OnDelete? && i.g.forced) else x'.force == x.force)
    && x'.freed == (x.freed || i == Awaiting(FreeHandle, h))
    && (x'.refcount == x.refcount || RefTouched(i) == Some(h))
  }

  /** The change of one handle, of the table, and of the flags. */
  predicate Evolves(g: Globals, g': Globals, i: Instr, k: nat) {
    && k < |g.handles| <= |g'.handles| && |g'.conns| == |g.conns|
    && HandleEvolves(g.handles[k], g'.handles[k], i, k)
    && InTable(g', k) == (InTable(g, k) && i != Shutting(Unlink, k))
    && g'.inProgress == (g.inProgress || i == StopAll(SetInProgress))
  }

  lemma {:induction false} SameTable(g: Globals, g': Globals, k: nat)
    requires k < |g.handles| <= |g'.handles| && g'.table == g.table && g'.handles[k].name == g.handles[k].name
    ensures InTable(g', k) == InTable(g, k)
  {
  }

  lemma {:induction false} EnterEvolves(g: Globals, at: EnterStep, h: nat, why: Guard, k: nat)
    requires h < |g.handles| && k < |g.handles|
    ensures Evolves(g, EnterEffect(g, at, h, why).g, Entering(at, h, why), k)
  {
    hide InTable;
    var g' := EnterEffect(g, at, h, why).g;
    assert HandleEvolves(g.handles[k], g'.handles[k], Entering(at, h, why), k);
    SameTable(g, g', k);
  }

  lemma {:induction false} InEvolves(g: Globals, at: InStep, h: nat, why: Guard, pick: bool, k: nat)
    requires h < |g.handles| && why.c < |g.conns| && k < |g.handles|
    ensures Evolves(g, InEffect(g, at, h, why, pick).g, Inside(at, h, why), k)
  {
  }

  lemma {:induction false} ExitEvolves(g: Globals, at: ExitStep, h: nat, why: Guard, k: nat)
    requires h < |g.handles| && k < |g.handles|
    ensures Evolves(g, ExitEffect(g, at, h, why).g, Leaving(at, h, why), k)
  {
    hide InTable, HandleEvolves;
    var g' := ExitEffect(g, at, h, why).g;
    ExitHandle(g, at, h, why, k);
    SameTable(g, g', k);
  }

  lemma {:induction false} ExitHandle(g: Globals, at: ExitStep, h: nat, why: Guard, k: nat)
    requires h < |g.handles| && k < |g.handles|
    ensures |ExitEffect(g, at, h, why).g.handles| == |g.handles|
    ensures HandleEvolves(g.handles[k], ExitEffect(g, at, h, why).g.handles[k], Leaving(at, h, why), k)
  {
  }

  lemma {:induction false} SettleEvolves(g: Globals, at: SettleStep, h: nat, c: nat, k: nat)
    requires h < |g.handles| && c < |g.conns| && k < |g.handles|
    ensures Evolves(g, SettleEffect(g, at, h, c).g, Settling(at, h, c), k)
  {
  }

  lemma {:induction false} FindEvolves(g: Globals, at: FindStep, name: Name, p: Purpose, k: nat)
    requires k < |g.handles|
    ensures Evolves(g, FindEffect(g, at, name, p).g, Finding(at, name, p), k)
  {
  }

  lemma {:induction false} RetainEvolves(g: Globals, at: RetainStep, h: nat, p: Purpose, k: nat)
    requires h < |g.handles| && k < |g.handles|
    ensures Evolves(g, RetainEffect(g, at, h, p).g, Retaining(at, h, p), k)
  {
  }

  lemma {:induction false} MakeEvolves(g: Globals, at: MakeStep, name: Name, conn: Option<nat>, pick: bool, k: nat)
    requires k < |g.handles|
    ensures Evolves(g, MakeEffect(g, at, name, conn, pick).g, Making(at, name, conn), k)
  {
  }

  lemma {:induction false} BindEvolves(g: Globals, at: BindStep, h: nat, c: nat, k: nat)
    requires h < |g.handles| && c < |g.conns| && k < |g.handles|
    ensures Evolves(g, BindEffect(g, at, h, c).g, Binding(at, h, c), k)
  {
  }

  lemma {:induction false} UnbindEvolves(g: Globals, c: nat, k: nat)
    requires c < |g.conns| && k < |g.handles|
    ensures Evolves(g, UnbindEffect(g, c).g, Unbind(c), k)
  {
  }

  lemma {:induction false} RelEvolves(g: Globals, h: nat, k: nat)
    requires h < |g.handles| && k < |g.handles|
    ensures Evolves(g, RelEffect(g, h).g, Rel(h), k)
  {
  }

  lemma {:induction false} ShutEvolves(g: Globals, at: ShutStep, h: nat, k: nat)
    requires h < |g.handles| && k < |g.handles| && (at == Unlink ==> InTable(g, h))
    ensures Evolves(g, ShutEffect(g, at, h).g, Shutting(at, h), k)
  {
  }

  lemma {:induction false} AwaitEvolves(g: Globals, at: AwaitStep, h: nat, k: nat)
    requires h < |g.handles| && k < |g.handles|
    ensures Evolves(g, AwaitEffect(g, at, h).g, Awaiting(at, h), k)
  {
  }

  lemma {:induction false} FinishEvolves(g: Globals, at: FinishStep, k: nat)
    requires k < |g.handles|
    ensures Evolves(g, FinishEffect(g, at).g, Finishing(at), k)
  {
  }

  lemma {:induction false} StopEvolves(g: Globals, at: StopStep, k: nat)
    requires k < |g.handles|
    ensures Evolves(g, StopEffect(g, at).g, StopAll(at), k)
  {
  }

  lemma {:induction false} PlainEvolves(g: Globals, i: Instr, pick: bool, k: nat)
    requires k < |g.handles|
    requires i.UnlockEngines? || i.LockBroadcast? || i.Broadcast? || i.UnlockShutdown?
    ensures Evolves(g, EffectOf(g, i, pick).g, i, k)
  {
  }

  lemma {:induction false} StepEvolves(g: Globals, i: Instr, pick: bool, k: nat)
    requires InstrOk(g, i) && k < |g.handles|
    ensures Evolves(g, EffectOf(g, i, pick).g, i, k)
  {
    hide EnterEffect, InEffect, ExitEffect, SettleEffect, FindEffect, RetainEffect, MakeEffect, BindEffect, ShutEffect,
         AwaitEffect, FinishEffect, StopEffect, UnbindEffect, RelEffect, Evolves, GuardOk, InOk, AwaitOk, InTable;
    match i
    case Entering(at, h, why) => EnterEvolves(g, at, h, why, k);
    case Inside(at, h, why) => InEvolves(g, at, h, why, pick, k);
    case Leaving(at, h, why) => ExitEvolves(g, at, h, why, k);
    case Settling(at, h, c) => SettleEvolves(g, at, h, c, k);
    case Finding(at, name, p) => FindEvolves(g, at, name, p, k);
    case Retaining(at, h, p) => RetainEvolves(g, at, h, p, k);
    case Making(at, name, conn) => MakeEvolves(g, at, name, conn, pick, k);
    case Binding(at, h, c) => BindEvolves(g, at, h, c, k);
    case Unbind(c) => UnbindEvolves(g, c, k);
    case Rel(h) => RelEvolves(g, h, k);
    case Shutting(at, h) => ShutEvolves(g, at, h, k);
    case Awaiting(at, h) => AwaitEvolves(g, at, h, k);
    case Finishing(at) => FinishEvolves(g, at, k);
    case StopAll(at) => StopEvolves(g, at, k);
    case _ => PlainEvolves(g, i, pick, k);
  }

  // ---------------------------------------------------------------- other pending accesses

  /** Two accesses that can be pending together: one per connection, per lock and per shutdown. */
  predicate Compatible(i: Instr, j: Instr) {
    && (ConnOf(i).Some? ==> ConnOf(j) != ConnOf(i))
    && !(HoldsEngines(i) && HoldsEngines(j))
    && !(HoldsShutdown(i) && HoldsShutdown(j))
    && !((i.Shutting? || i.Awaiting?) && (j.Shutting? || j.Awaiting?) && i.h == j.h)
  }

  /** What one pending access can see of the change made by another. */
  predicate Seen(g: Globals, g': Globals, i: Instr, j: Instr) {
    && |g'.conns| == |g.conns| && |g'.handles| >= |g.handles|
    && (ConnOf(j).Some? && ConnOf(j).value < |g.conns| ==> g'.conns[ConnOf(j).value] == g.conns[ConnOf(j).value])
    && (HandleOf(j).Some? && HandleOf(j).value < |g.handles| ==>
          var h := HandleOf(j).value;
          && Evolves(g, g', i, h)
          && (g.handles[h].refcount == 0 ==> g'.handles[h].refcount == 0))
    && g'.inProgress == (g.inProgress || i == StopAll(SetInProgress))
  }

  lemma {:induction false} GuardedKeepsOk(g: Globals, g': Globals, i: Instr, j: Instr)
    requires InstrOk(g, j) && Seen(g, g', i, j) && (j.Entering? || j.Inside? || j.Leaving?)
    ensures InstrOk(g', j)
  {
    hide InTable;
  }

  lemma {:induction false} ShutKeepsOk(g: Globals, g': Globals, i: Instr, j: Instr)
    requires InstrOk(g, j) && Seen(g, g', i, j) && Compatible(i, j) && (j.Shutting? || j.Awaiting? || j.Retaining?)
    ensures InstrOk(g', j)
  {
    hide InTable;
  }

  lemma {:induction false} PlainKeepsOk(g: Globals, g': Globals, i: Instr, j: Instr)
    requires InstrOk(g, j) && Seen(g, g', i, j)
    requires !(j.Entering? || j.Inside? || j.Leaving? || j.Shutting? || j.Awaiting? || j.Retaining?)
    ensures InstrOk(g', j)
  {
    hide InTable;
  }

  /** A step keeps what every other pending access relies on. */
  lemma {:induction false} KeepsOk(g: Globals, g': Globals, i: Instr, j: Instr)
    requires InstrOk(g, j) && Seen(g, g', i, j) && Compatible(i, j)
    ensures InstrOk(g', j)
  {
    hide InstrOk, Seen, Compatible;
    if j.Entering? || j.Inside? || j.Leaving? {
      GuardedKeepsOk(g, g', i, j);
    } else if j.Shutting? || j.Awaiting? || j.Retaining? {
      ShutKeepsOk(g, g', i, j);
    } else {
      PlainKeepsOk(g, g', i, j);
    }
  }

  /** A step keeps what holds of a handle by itself. */
  lemma {:induction false} BareKeeps(g: Globals, g': Globals, i: Instr, k: nat)
    requires k < |g.handles| && BareHandleOk(g, k) && InstrOk(g, i) && Evolves(g, g', i, k)
    requires RefTouched(i) == Some(k) ==> g.handles[k].refcount > 0
    ensures BareHandleOk(g', k)
  {
    hide InTable, GuardOk, InOk;
  }

  // ---------------------------------------------------------------- connections and flags

  /** Only the connection the operation runs on can change, and it stays well formed. */
  predicate ConnsEvolve(g: Globals, g': Globals, i: Instr) {
    && |g'.conns| == |g.conns| && |g'.handles| >= |g.handles|
    && g'.inProgress == (g.inProgress || i == StopAll(SetInProgress))
    && if ConnOf(i).None? then g'.conns == g.conns
       else
         && ConnOf(i).value < |g.conns|
         && g'.conns == g.conns[ConnOf(i).value := g'.conns[ConnOf(i).value]]
         && ConnOk(g', ConnOf(i).value)
  }

  lemma {:induction false} SameConns(g: Globals, g': Globals, i: Instr)
    requires Ranged(g, i) && (ConnOf(i).Some? ==> ConnOk(g, ConnOf(i).value))
    requires g'.conns == g.conns && |g'.handles| >= |g.handles|
    requires g'.inProgress == (g.inProgress || i == StopAll(SetInProgress))
    ensures ConnsEvolve(g, g', i)
  {
  }

  lemma {:induction false} CallConns(g: Globals, i: Instr, pick: bool)
    requires Ranged(g, i) && (i.Entering? || i.Leaving?)
    ensures var g' := EffectOf(g, i, pick).g; g'.conns == g.conns && |g'.handles| == |g.handles| && g'.inProgress == g.inProgress
  {
    hide InEffect, SettleEffect, FindEffect, RetainEffect, MakeEffect, BindEffect, UnbindEffect, RelEffect, ShutEffect, AwaitEffect,
         FinishEffect, StopEffect, SetHandle, AddClients, SetState;
  }

  predicate ConnsStay(g: Globals, g': Globals) {
    g'.conns == g.conns && |g'.handles| == |g.handles| && g'.inProgress == g.inProgress
  }

  lemma {:induction false} ShutConns(g: Globals, i: Instr, pick: bool)
    requires Ranged(g, i) && (i.Shutting? || i.Awaiting?)
    ensures var g' := EffectOf(g, i, pick).g; g'.conns == g.conns && |g'.handles| == |g.handles| && g'.inProgress == g.inProgress
  {
    hide EnterEffect, InEffect, ExitEffect, SettleEffect, FindEffect, RetainEffect, MakeEffect, BindEffect, UnbindEffect, RelEffect,
         ShutEffect, AwaitEffect, FinishEffect, StopEffect;
    if i.Shutting? {
      ShuttingConns(g, i.shut, i.h);
    } else {
      AwaitingConns(g, i.await, i.h);
    }
  }

  lemma {:induction false} ShuttingConns(g: Globals, at: ShutStep, h: nat)
    requires h < |g.handles|
    ensures ConnsStay(g, ShutEffect(g, at, h).g)
  {
    hide SetState, Unlinked;
  }

  lemma {:induction false} AwaitingConns(g: Globals, at: AwaitStep, h: nat)
    requires h < |g.handles|
    ensures ConnsStay(g, AwaitEffect(g, at, h).g)
  {
    hide SetHandle;
  }

  lemma {:induction false} TableConns(g: Globals, i: Instr, pick: bool)
    requires Ranged(g, i) && (i.Finding? || i.Retaining? || i.Making? || i.UnlockEngines? || i.Rel?)
    ensures var g' := EffectOf(g, i, pick).g; g'.conns == g.conns && |g'.handles| >= |g.handles| && g'.inProgress == g.inProgress
  {
    hide EnterEffect, InEffect, ExitEffect, SettleEffect, BindEffect, UnbindEffect, ShutEffect, AwaitEffect, FinishEffect, StopEffect,
         AddRefs;
  }

  lemma {:induction false} StopConns(g: Globals, i: Instr, pick: bool)
    requires i.LockBroadcast? || i.Broadcast? || i.UnlockShutdown? || i.Finishing? || i.StopAll?
    ensures var g' := EffectOf(g, i, pick).g;
            && g'.conns == g.conns && |g'.handles| == |g.handles|
            && g'.inProgress == (g.inProgress || i == StopAll(SetInProgress))
  {
    hide EnterEffect, InEffect, ExitEffect, SettleEffect, FindEffect, RetainEffect, MakeEffect, BindEffect, UnbindEffect, RelEffect,
         ShutEffect, AwaitEffect;
  }

  lemma {:induction false} InConns(g: Globals, at: InStep, h: nat, why: Guard, pick: bool)
    requires InstrOk(g, Inside(at, h, why)) && ConnOk(g, why.c)
    ensures ConnsEvolve(g, InEffect(g, at, h, why, pick).g, Inside(at, h, why))
  {
    hide InTable, SetHandle, AddRefs;
  }

  lemma {:induction false} SettleConns(g: Globals, at: SettleStep, h: nat, c: nat)
    requires InstrOk(g, Settling(at, h, c)) && CanRun(g, Settling(at, h, c)) && ConnOk(g, c)
    ensures ConnsEvolve(g, SettleEffect(g, at, h, c).g, Settling(at, h, c))
  {
    hide InTable;
  }

  lemma {:induction false} BindConns(g: Globals, at: BindStep, h: nat, c: nat)
    requires h < |g.handles| && c < |g.conns| && ConnOk(g, c)
    ensures ConnsEvolve(g, BindEffect(g, at, h, c).g, Binding(at, h, c))
  {
    hide AddRefs;
  }

  lemma {:induction false} UnbindConns(g: Globals, c: nat)
    requires c < |g.conns| && g.conns[c].reserved == 0
    ensures ConnsEvolve(g, UnbindEffect(g, c).g, Unbind(c))
  {
  }

  lemma {:induction false} StepConns(g: Globals, i: Instr, pick: bool)
    requires InstrOk(g, i) && CanRun(g, i) && (ConnOf(i).Some? ==> ConnOk(g, ConnOf(i).value))
    ensures ConnsEvolve(g, EffectOf(g, i, pick).g, i)
  {
    hide ConnsEvolve, ConnOk, GuardOk, InOk, AwaitOk, EnterEffect, InEffect, ExitEffect, SettleEffect, FindEffect, RetainEffect,
         MakeEffect, BindEffect, UnbindEffect, RelEffect, ShutEffect, AwaitEffect, FinishEffect, StopEffect, InTable;
    if i.Inside? {
      InConns(g, i.inside, i.h, i.g, pick);
    } else if i.Settling? {
      SettleConns(g, i.settle, i.h, i.c);
    } else if i.Binding? {
      BindConns(g, i.bind, i.h, i.c);
    } else if i.Unbind? {
      UnbindConns(g, i.c);
    } else {
      if i.Entering? || i.Leaving? {
        CallConns(g, i, pick);
      } else if i.Shutting? || i.Awaiting? {
        ShutConns(g, i, pick);
      } else if i.Finding? || i.Retaining? || i.Making? || i.UnlockEngines? || i.Rel? {
        TableConns(g, i, pick);
      } else {
        StopConns(g, i, pick);
      }
      SameConns(g, EffectOf(g, i, pick).g, i);
    }
  }

  // ---------------------------------------------------------------- the table and the end

  /** The table changes by a new bucket or by unlinking one. */
  predicate TableEvolves(g: Globals, g': Globals, i: Instr) {
    || g'.table == g.table
    || (i.Making? && i.name !in g.table && g' == WithNewBucket(g, i.name))
    || (i.Shutting? && i.shut == Unlink && i.h < |g.handles| && g' == Unlinked(g, g.handles[i.h].name))
  }

  /** Neither the table nor the bookkeeping of the stop changes. */
  predicate SameEnds(g: Globals, g': Globals) {
    g'.table == g.table && g'.finalized == g.finalized && g'.counter == g.counter
  }

  lemma {:induction false} EnterEnds(g: Globals, at: EnterStep, h: nat, why: Guard)
    requires h < |g.handles|
    ensures SameEnds(g, EnterEffect(g, at, h, why).g)
  {
    hide AddClients, SetState;
  }

  lemma {:induction false} InEnds(g: Globals, at: InStep, h: nat, why: Guard, pick: bool)
    requires h < |g.handles| && why.c < |g.conns|
    ensures SameEnds(g, InEffect(g, at, h, why, pick).g)
  {
    hide AddRefs, SetConn, SetHandle;
  }

  lemma {:induction false} ExitEnds(g: Globals, at: ExitStep, h: nat, why: Guard)
    requires h < |g.handles|
    ensures SameEnds(g, ExitEffect(g, at, h, why).g)
  {
    hide AddClients, SetHandle;
  }

  lemma {:induction false} SettleEnds(g: Globals, at: SettleStep, h: nat, c: nat)
    requires h < |g.handles| && c < |g.conns|
    ensures SameEnds(g, SettleEffect(g, at, h, c).g)
  {
    hide SetConn;
  }

  lemma {:induction false} CallEnds(g: Globals, i: Instr, pick: bool)
    requires Ranged(g, i) && (i.Entering? || i.Inside? || i.Leaving? || i.Settling?)
    ensures SameEnds(g, EffectOf(g, i, pick).g)
  {
    hide SameEnds, EnterEffect, InEffect, ExitEffect, SettleEffect, FindEffect, RetainEffect, MakeEffect, BindEffect, UnbindEffect, RelEffect,
         ShutEffect, AwaitEffect, FinishEffect, StopEffect;
    match i
    case Entering(at, h, why) => EnterEnds(g, at, h, why);
    case Inside(at, h, why) => InEnds(g, at, h, why, pick);
    case Leaving(at, h, why) => ExitEnds(g, at, h, why);
    case Settling(at, h, c) => SettleEnds(g, at, h, c);
  }

  lemma {:induction false} BindTable(g: Globals, i: Instr, pick: bool)
    requires Ranged(g, i) && (i.Finding? || i.Retaining? || i.UnlockEngines? || i.Binding? || i.Unbind? || i.Rel?)
    ensures EffectOf(g, i, pick).g.table == g.table
  {
    hide EnterEffect, InEffect, ExitEffect, SettleEffect, MakeEffect, ShutEffect, AwaitEffect, FinishEffect, StopEffect,
         SetConn, AddRefs;
  }

  lemma {:induction false} StopTable(g: Globals, i: Instr, pick: bool)
    requires Ranged(g, i)
    requires i.LockBroadcast? || i.Broadcast? || i.UnlockShutdown? || i.Awaiting? || i.Finishing? || i.StopAll?
    ensures EffectOf(g, i, pick).g.table == g.table
  {
    hide EnterEffect, InEffect, ExitEffect, SettleEffect, FindEffect, RetainEffect, MakeEffect, BindEffect, UnbindEffect, RelEffect,
         ShutEffect, AwaitEffect, FinishEffect, StopEffect;
    if i.Awaiting? {
      AwaitTable(g, i.await, i.h);
    } else if i.Finishing? {
      FinishTable(g, i.finish);
    } else if i.StopAll? {
      StopAllTable(g, i.stop);
    }
  }

  lemma {:induction false} AwaitTable(g: Globals, at: AwaitStep, h: nat)
    requires h < |g.handles|
    ensures AwaitEffect(g, at, h).g.table == g.table
  {
    hide SetHandle;
  }

  lemma {:induction false} FinishTable(g: Globals, at: FinishStep)
    ensures FinishEffect(g, at).g.table == g.table
  {
  }

  lemma {:induction false} StopAllTable(g: Globals, at: StopStep)
    ensures StopEffect(g, at).g.table == g.table
  {
  }

  lemma {:induction false} ChangeTable(g: Globals, i: Instr, pick: bool)
    requires Ranged(g, i) && (i.Making? || i.Shutting?)
    ensures TableEvolves(g, EffectOf(g, i, pick).g, i)
  {
    hide EnterEffect, InEffect, ExitEffect, SettleEffect, FindEffect, RetainEffect, BindEffect, UnbindEffect, RelEffect, AwaitEffect,
         FinishEffect, StopEffect, SetState, WithNewBucket, Unlinked;
  }

  lemma {:induction false} StepTable(g: Globals, i: Instr, pick: bool)
    requires Ranged(g, i)
    ensures TableEvolves(g, EffectOf(g, i, pick).g, i)
  {
    hide EffectOf, Ranged, WithNewBucket, Unlinked;
    if i.Making? || i.Shutting? {
      ChangeTable(g, i, pick);
    } else if i.Entering? || i.Inside? || i.Leaving? || i.Settling? {
      CallEnds(g, i, pick);
    } else if i.Finding? || i.Retaining? || i.UnlockEngines? || i.Binding? || i.Unbind? || i.Rel? {
      BindTable(g, i, pick);
    } else {
      StopTable(g, i, pick);
    }
  }

  /** An access other than those of the stopping and the shutdown threads leaves the end alone. */
  predicate FinalEvolves(g: Globals, g': Globals, i: Instr) {
    && (i != StopAll(CheckCounter) ==> g'.finalized == g.finalized)
    && (i == StopAll(CheckCounter) ==> g'.counter == g.counter && (g'.finalized ==> g.finalized || g.counter <= 0))
    && (g'.counter == g.counter || (i.Shutting? && i.shut == Begin && !g.inProgress) || i == Finishing(End))
  }

  lemma {:induction false} SameEndsFinal(g: Globals, g': Globals, i: Instr)
    requires SameEnds(g, g') && !i.StopAll?
    ensures FinalEvolves(g, g', i)
  {
  }

  lemma {:induction false} BindFinal(g: Globals, i: Instr, pick: bool)
    requires Ranged(g, i) && (i.Finding? || i.Retaining? || i.Making? || i.UnlockEngines? || i.Binding? || i.Unbind? || i.Rel?)
    ensures FinalEvolves(g, EffectOf(g, i, pick).g, i)
  {
    hide EnterEffect, InEffect, ExitEffect, SettleEffect, ShutEffect, AwaitEffect, FinishEffect, StopEffect, SetConn, AddRefs, WithNewBucket;
  }

  lemma {:induction false} ShutFinal(g: Globals, i: Instr, pick: bool)
    requires Ranged(g, i) && (i.Shutting? || i.Awaiting?)
    ensures FinalEvolves(g, EffectOf(g, i, pick).g, i)
  {
    hide EnterEffect, InEffect, ExitEffect, SettleEffect, FindEffect, RetainEffect, MakeEffect, BindEffect, UnbindEffect, RelEffect,
         FinishEffect, StopEffect, SetState, SetHandle, Unlinked;
  }

  lemma {:induction false} StopFinal(g: Globals, i: Instr, pick: bool)
    requires Ranged(g, i) && (i.LockBroadcast? || i.Broadcast? || i.UnlockShutdown? || i.Finishing? || i.StopAll?)
    ensures FinalEvolves(g, EffectOf(g, i, pick).g, i)
  {
    hide EnterEffect, InEffect, ExitEffect, SettleEffect, FindEffect, RetainEffect, MakeEffect, BindEffect, UnbindEffect, RelEffect,
         ShutEffect, AwaitEffect;
  }

  lemma {:induction false} StepFinal(g: Globals, i: Instr, pick: bool)
    requires Ranged(g, i)
    ensures FinalEvolves(g, EffectOf(g, i, pick).g, i)
  {
    hide EffectOf, Ranged, FinalEvolves;
    if i.Shutting? || i.Awaiting? {
      ShutFinal(g, i, pick);
    } else if i.Entering? || i.Inside? || i.Leaving? || i.Settling? {
      CallEnds(g, i, pick);
      SameEndsFinal(g, EffectOf(g, i, pick).g, i);
    } else if i.Finding? || i.Retaining? || i.Making? || i.UnlockEngines? || i.Binding? || i.Unbind? || i.Rel? {
      BindFinal(g, i, pick);
    } else {
      StopFinal(g, i, pick);
    }
  }
}
