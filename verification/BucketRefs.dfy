/** Every access keeps the reference count and the client count of every handle right. */
module BucketRefs {
  import opened Options
  import opened BucketProtocol
  import opened BucketSums
  import opened BucketInvariant

  function RefsOf(o: Option<Instr>, h: nat): nat {
    if o.Some? then RefsIn(o.value, h) else 0
  }

  function BumpsOf(o: Option<Instr>, h: nat): nat {
    One(o.Some? && IsBump(o.value, h))
  }

  /** Only the connection the operation runs on can change. */
  predicate ConnsFollow(g: Globals, i: Instr, e: Effect) {
    || e.g.conns == g.conns
    || (ConnOf(i).Some? && ConnOf(i).value < |g.conns| == |e.g.conns|
        && e.g.conns == g.conns[ConnOf(i).value := e.g.conns[ConnOf(i).value]])
  }

  function ConnDelta(g: Globals, i: Instr, e: Effect, k: nat): int
    requires ConnOf(i).Some? ==> ConnOf(i).value < |g.conns| == |e.g.conns|
  {
    if ConnOf(i).None? then 0
    else ConnRefs(e.g.conns[ConnOf(i).value], k) - ConnRefs(g.conns[ConnOf(i).value], k)
  }

  /** References to `k`: the count moves with the table, the connection and the accesses in flight. */
  predicate RefsFollow(g: Globals, i: Instr, e: Effect, k: nat) {
    && ConnsFollow(g, i, e) && |e.g.conns| == |g.conns| && Ranged(g, i)
    && k < |g.handles| <= |e.g.handles|
    && e.g.handles[k].refcount - g.handles[k].refcount
       == One(InTable(e.g, k)) - One(InTable(g, k)) + ConnDelta(g, i, e, k)
          + RefsOf(e.first, k) + RefsOf(e.second, k) + RefsOf(e.spawned, k) - RefsIn(i, k)
  }

  predicate ClientsFollow(g: Globals, i: Instr, e: Effect, k: nat) {
    && k < |g.handles| <= |e.g.handles|
    && e.g.handles[k].clients - g.handles[k].clients
       == BumpsOf(e.first, k) + BumpsOf(e.second, k) + BumpsOf(e.spawned, k) - One(IsBump(i, k))
  }

  /** Neither the table nor a connection changes. */
  predicate QuietFollow(g: Globals, i: Instr, e: Effect, k: nat) {
    && e.g.conns == g.conns && e.g.table == g.table
    && k < |g.handles| == |e.g.handles| && e.g.handles[k].name == g.handles[k].name
    && e.g.handles[k].refcount - g.handles[k].refcount
       == RefsOf(e.first, k) + RefsOf(e.second, k) + RefsOf(e.spawned, k) - RefsIn(i, k)
  }

  lemma {:induction false} QuietRefs(g: Globals, i: Instr, e: Effect, k: nat)
    requires QuietFollow(g, i, e, k) && Ranged(g, i)
    ensures RefsFollow(g, i, e, k)
  {
    hide RefsOf, RefsIn;
  }

  lemma {:induction false} EnterRefs(g: Globals, at: EnterStep, h: nat, why: Guard, k: nat)
    requires h < |g.handles| && k < |g.handles|
    ensures QuietFollow(g, Entering(at, h, why), EnterEffect(g, at, h, why), k)
  {
  }

  lemma {:induction false} EnterClients(g: Globals, at: EnterStep, h: nat, why: Guard, k: nat)
    requires h < |g.handles| && k < |g.handles|
    ensures ClientsFollow(g, Entering(at, h, why), EnterEffect(g, at, h, why), k)
  {
  }

  lemma {:induction false} InRefs(g: Globals, at: InStep, h: nat, why: Guard, pick: bool, k: nat)
    requires h < |g.handles| && why.c < |g.conns| && k < |g.handles| && at != ReserveCount
    requires at == ReserveRef ==> !why.OnDelete?
    ensures QuietFollow(g, Inside(at, h, why), InEffect(g, at, h, why, pick), k)
  {
  }

  lemma {:induction false} ReserveRefs(g: Globals, h: nat, why: Guard, pick: bool, k: nat)
    requires h < |g.handles| && why.c < |g.conns| && k < |g.handles| && GuardOk(g, h, why, false)
    ensures RefsFollow(g, Inside(ReserveCount, h, why), InEffect(g, ReserveCount, h, why, pick), k)
  {
  }

  lemma {:induction false} InClients(g: Globals, at: InStep, h: nat, why: Guard, pick: bool, k: nat)
    requires h < |g.handles| && why.c < |g.conns| && k < |g.handles|
    ensures ClientsFollow(g, Inside(at, h, why), InEffect(g, at, h, why, pick), k)
  {
  }

  lemma {:induction false} CountedExitRefs(g: Globals, at: ExitStep, h: nat, why: Guard, k: nat)
    requires h < |g.handles| && k < |g.handles| && (at == Release || at == Dec || at == CasStopped)
    ensures QuietFollow(g, Leaving(at, h, why), ExitEffect(g, at, h, why), k)
  {
  }

  lemma {:induction false} ExitRefs(g: Globals, at: ExitStep, h: nat, why: Guard, k: nat)
    requires h < |g.handles| && k < |g.handles| && at != Release && at != Dec && at != CasStopped
    ensures QuietFollow(g, Leaving(at, h, why), ExitEffect(g, at, h, why), k)
  {
  }

  lemma {:induction false} ExitClients(g: Globals, at: ExitStep, h: nat, why: Guard, k: nat)
    requires h < |g.handles| && k < |g.handles|
    ensures ClientsFollow(g, Leaving(at, h, why), ExitEffect(g, at, h, why), k)
  {
  }

  lemma {:induction false} SettleRefs(g: Globals, at: SettleStep, h: nat, c: nat, k: nat)
    requires InstrOk(g, Settling(at, h, c)) && CanRun(g, Settling(at, h, c)) && k < |g.handles|
    ensures var i, e := Settling(at, h, c), SettleEffect(g, at, h, c);
            RefsFollow(g, i, e, k) && ClientsFollow(g, i, e, k)
  {
  }

  lemma {:induction false} FindRefs(g: Globals, at: FindStep, name: Name, p: Purpose, k: nat)
    requires InstrOk(g, Finding(at, name, p)) && k < |g.handles|
    ensures var i, e := Finding(at, name, p), FindEffect(g, at, name, p);
            QuietFollow(g, i, e, k) && ClientsFollow(g, i, e, k)
  {
  }

  lemma {:induction false} RetainRefs(g: Globals, at: RetainStep, h: nat, p: Purpose, k: nat)
    requires InstrOk(g, Retaining(at, h, p)) && k < |g.handles|
    ensures var i, e := Retaining(at, h, p), RetainEffect(g, at, h, p);
            QuietFollow(g, i, e, k) && ClientsFollow(g, i, e, k)
  {
  }

  lemma {:induction false} MakeRefs(g: Globals, at: MakeStep, name: Name, conn: Option<nat>, pick: bool, k: nat)
    requires InstrOk(g, Making(at, name, conn)) && k < |g.handles|
    ensures var i, e := Making(at, name, conn), MakeEffect(g, at, name, conn, pick);
            RefsFollow(g, i, e, k) && ClientsFollow(g, i, e, k)
  {
  }

  lemma {:induction false} BindRefs(g: Globals, at: BindStep, h: nat, c: nat, k: nat)
    requires InstrOk(g, Binding(at, h, c)) && k < |g.handles|
    ensures RefsFollow(g, Binding(at, h, c), BindEffect(g, at, h, c), k)
  {
    hide RefsFollow, QuietFollow, BindEffect;
    if at == BindWrite {
      BindWriteRefs(g, h, c, k);
    } else {
      BindQuiet(g, at, h, c, k);
      QuietRefs(g, Binding(at, h, c), BindEffect(g, at, h, c), k);
    }
  }

  lemma {:induction false} BindQuiet(g: Globals, at: BindStep, h: nat, c: nat, k: nat)
    requires h < |g.handles| && c < |g.conns| && k < |g.handles| && at != BindWrite
    ensures QuietFollow(g, Binding(at, h, c), BindEffect(g, at, h, c), k)
  {
  }

  lemma {:induction false} BindWriteRefs(g: Globals, h: nat, c: nat, k: nat)
    requires InstrOk(g, Binding(BindWrite, h, c)) && k < |g.handles|
    ensures RefsFollow(g, Binding(BindWrite, h, c), BindEffect(g, BindWrite, h, c), k)
  {
  }

  lemma {:induction false} BindClients(g: Globals, at: BindStep, h: nat, c: nat, k: nat)
    requires h < |g.handles| && c < |g.conns| && k < |g.handles|
    ensures ClientsFollow(g, Binding(at, h, c), BindEffect(g, at, h, c), k)
  {
  }

  lemma {:induction false} ShutRefs(g: Globals, at: ShutStep, h: nat, k: nat)
    requires GlobalOk(g) && InstrOk(g, Shutting(at, h)) && k < |g.handles|
    ensures var i, e := Shutting(at, h), ShutEffect(g, at, h);
            RefsFollow(g, i, e, k) && ClientsFollow(g, i, e, k)
  {
    hide BareHandleOk, ConnOk;
  }

  lemma {:induction false} AwaitRefs(g: Globals, at: AwaitStep, h: nat, k: nat)
    requires InstrOk(g, Awaiting(at, h)) && k < |g.handles|
    ensures var i, e := Awaiting(at, h), AwaitEffect(g, at, h);
            QuietFollow(g, i, e, k) && ClientsFollow(g, i, e, k)
  {
  }

  lemma {:induction false} UnbindRefs(g: Globals, c: nat, k: nat)
    requires InstrOk(g, Unbind(c)) && CanRun(g, Unbind(c)) && k < |g.handles|
    ensures var i, e := Unbind(c), UnbindEffect(g, c);
            RefsFollow(g, i, e, k) && ClientsFollow(g, i, e, k)
  {
  }

  lemma {:induction false} RelRefs(g: Globals, h: nat, k: nat)
    requires h < |g.handles| && k < |g.handles|
    ensures var i, e := Rel(h), RelEffect(g, h);
            QuietFollow(g, i, e, k) && ClientsFollow(g, i, e, k)
  {
  }

  /** Accesses that touch no handle and no connection. */
  lemma {:induction false} PlainRefs(g: Globals, i: Instr, pick: bool, k: nat)
    requires k < |g.handles|
    requires i.UnlockEngines? || i.LockBroadcast? || i.Broadcast? || i.UnlockShutdown?
    ensures QuietFollow(g, i, EffectOf(g, i, pick), k) && ClientsFollow(g, i, EffectOf(g, i, pick), k)
  {
  }

  lemma {:induction false} FinishRefs(g: Globals, at: FinishStep, k: nat)
    requires k < |g.handles|
    ensures QuietFollow(g, Finishing(at), FinishEffect(g, at), k) && ClientsFollow(g, Finishing(at), FinishEffect(g, at), k)
  {
  }

  lemma {:induction false} StopRefs(g: Globals, at: StopStep, k: nat)
    requires k < |g.handles|
    ensures QuietFollow(g, StopAll(at), StopEffect(g, at), k) && ClientsFollow(g, StopAll(at), StopEffect(g, at), k)
  {
  }

  lemma {:induction false} StepRefs(g: Globals, i: Instr, pick: bool, k: nat)
    requires GlobalOk(g) && InstrOk(g, i) && CanRun(g, i) && k < |g.handles|
    ensures RefsFollow(g, i, EffectOf(g, i, pick), k) && ClientsFollow(g, i, EffectOf(g, i, pick), k)
  {
    hide EnterEffect, InEffect, ExitEffect, SettleEffect, FindEffect, RetainEffect, MakeEffect, BindEffect, ShutEffect,
         AwaitEffect, FinishEffect, StopEffect, UnbindEffect, RelEffect, RefsFollow, QuietFollow, ClientsFollow, CanRun, GlobalOk, InTable;
    var e := EffectOf(g, i, pick);
    if QuietFollow(g, i, e, k) {
      QuietRefs(g, i, e, k);
    }
    match i
    case Entering(at, h, why) => EnterRefs(g, at, h, why, k); EnterClients(g, at, h, why, k);
    case Inside(at, h, why) =>
      if at == ReserveCount { ReserveRefs(g, h, why, pick, k); } else { InRefs(g, at, h, why, pick, k); }
      InClients(g, at, h, why, pick, k);
    case Leaving(at, h, why) =>
      if at == Release || at == Dec || at == CasStopped { CountedExitRefs(g, at, h, why, k); } else { ExitRefs(g, at, h, why, k); }
      ExitClients(g, at, h, why, k);
    case Settling(at, h, c) => SettleRefs(g, at, h, c, k);
    case Finding(at, name, p) => FindRefs(g, at, name, p, k);
    case Retaining(at, h, p) => RetainRefs(g, at, h, p, k);
    case Making(at, name, conn) => MakeRefs(g, at, name, conn, pick, k);
    case Binding(at, h, c) => BindRefs(g, at, h, c, k); BindClients(g, at, h, c, k);
    case Unbind(c) => UnbindRefs(g, c, k);
    case Rel(h) => RelRefs(g, h, k);
    case Shutting(at, h) => ShutRefs(g, at, h, k);
    case Awaiting(at, h) => AwaitRefs(g, at, h, k);
    case Finishing(at) => FinishRefs(g, at, k);
    case StopAll(at) => StopRefs(g, at, k);
    case _ => PlainRefs(g, i, pick, k);
  }
}
