/** The balance between the state of a handle and the accesses pending on it. */
module BucketTally {
  import opened Options
  import opened BucketProtocol
  import opened BucketSums
  import opened BucketInvariant
  import opened BucketFrames
  import opened BucketRefs

  /** Pending accesses to one handle, by what they mean for its state. */
  datatype Tally = Tally(shutters: int, watchers: int, starters: int, insiders: int, writers: int)

  predicate IsWriter(i: Instr, k: nat) {
    i.Inside? && i.h == k && (i.inside == WriteCookie || i.inside == WriteForce)
  }

  predicate IsWatcher(i: Instr, k: nat) {
    i.Leaving? && i.h == k && i.exit != Release && i.exit != Dec && i.exit != Gone
  }

  predicate IsStarter(i: Instr, k: nat) {
    i.Leaving? && i.h == k && i.exit == CasStopped
  }

  function TallyOf(i: Instr, k: nat): Tally {
    Tally(One((i.Shutting? || i.Awaiting?) && i.h == k), One(IsWatcher(i, k)), One(IsStarter(i, k)),
          One(IsInsider(i, k)), One(IsWriter(i, k)))
  }

  function TallyOption(o: Option<Instr>, k: nat): Tally {
    if o.Some? then TallyOf(o.value, k) else Tally(0, 0, 0, 0, 0)
  }

  function Plus(a: Tally, b: Tally): Tally {
    Tally(a.shutters + b.shutters, a.watchers + b.watchers, a.starters + b.starters, a.insiders + b.insiders, a.writers + b.writers)
  }

  function Minus(a: Tally, b: Tally): Tally {
    Tally(a.shutters - b.shutters, a.watchers - b.watchers, a.starters - b.starters, a.insiders - b.insiders, a.writers - b.writers)
  }

  predicate IsNone(a: Tally) {
    a.shutters == 0 && a.watchers == 0 && a.starters == 0 && a.insiders == 0 && a.writers == 0
  }

  /** The tally after a step. */
  function Moved(t: Tally, i: Instr, e: Effect, k: nat): Tally {
    Plus(Plus(Plus(Minus(t, TallyOf(i, k)), TallyOption(e.first, k)), TallyOption(e.second, k)), TallyOption(e.spawned, k))
  }

  /** The demands of `HandleOk`, on numbers. */
  predicate Balanced(x: Handle, t: Tally) {
    && t.shutters + One(x.freed) <= x.started
    && (x.state == Stopping ==> x.clients > 0 || t.watchers > 0)
    && (Down(x.state) || t.starters > 0 ==> t.insiders == 0)
    && (x.state != Running && t.writers == 0 ==> x.cookie.Some? && x.force.Some?)
  }

  /** What is known about the tally of a handle when access `i` is among the pending ones. */
  predicate Sound(x: Handle, t: Tally, i: Instr, k: nat) {
    && Balanced(x, t) && x.started == One(Down(x.state))
    && t.insiders <= x.clients && One(IsBump(i, k)) <= x.clients
    && (t.starters > 0 ==> x.state != Running)
    && t.shutters >= TallyOf(i, k).shutters && t.watchers >= TallyOf(i, k).watchers && t.starters >= TallyOf(i, k).starters
    && t.insiders >= TallyOf(i, k).insiders && t.writers >= TallyOf(i, k).writers
  }

  /** An access that touches another handle changes nothing here. */
  lemma {:induction false} ElsewhereBalanced(x: Handle, t: Tally, i: Instr, e: Effect, k: nat)
    requires Balanced(x, t) && HandleOf(i) != Some(k)
    requires (e.first.Some? ==> HandleOf(e.first.value) != Some(k)) && (e.second.Some? ==> HandleOf(e.second.value) != Some(k))
    requires e.spawned.Some? ==> HandleOf(e.spawned.value) != Some(k)
    ensures Balanced(x, Moved(t, i, e, k))
  {
  }

  lemma {:induction false} EnterBalanced(g: Globals, at: EnterStep, h: nat, why: Guard, t: Tally)
    requires h < |g.handles| && Sound(g.handles[h], t, Entering(at, h, why), h)
    ensures var i, e := Entering(at, h, why), EnterEffect(g, at, h, why);
            |e.g.handles| == |g.handles| && Balanced(e.g.handles[h], Moved(t, i, e, h))
  {
    hide EnterEffect, Sound, Balanced, Moved;
    match at
    case Bump => BumpBalanced(g, h, why, t);
    case ReadState => ReadBalanced(g, h, why, t);
    case CasStopping => MarkBalanced(g, h, why, t);
  }

  lemma {:induction false} BumpBalanced(g: Globals, h: nat, why: Guard, t: Tally)
    requires h < |g.handles| && Sound(g.handles[h], t, Entering(Bump, h, why), h)
    ensures var i, e := Entering(Bump, h, why), EnterEffect(g, Bump, h, why);
            |e.g.handles| == |g.handles| && Balanced(e.g.handles[h], Moved(t, i, e, h))
  {
  }

  lemma {:induction false} ReadBalanced(g: Globals, h: nat, why: Guard, t: Tally)
    requires h < |g.handles| && Sound(g.handles[h], t, Entering(ReadState, h, why), h)
    ensures var i, e := Entering(ReadState, h, why), EnterEffect(g, ReadState, h, why);
            |e.g.handles| == |g.handles| && Balanced(e.g.handles[h], Moved(t, i, e, h))
  {
  }

  lemma {:induction false} MarkBalanced(g: Globals, h: nat, why: Guard, t: Tally)
    requires h < |g.handles| && Sound(g.handles[h], t, Entering(CasStopping, h, why), h)
    ensures var i, e := Entering(CasStopping, h, why), EnterEffect(g, CasStopping, h, why);
            |e.g.handles| == |g.handles| && Balanced(e.g.handles[h], Moved(t, i, e, h))
  {
  }

  lemma {:induction false} InBalanced(g: Globals, at: InStep, h: nat, why: Guard, pick: bool, t: Tally)
    requires h < |g.handles| && why.c < |g.conns| && Sound(g.handles[h], t, Inside(at, h, why), h) && InOk(g, at, h)
    ensures var i, e := Inside(at, h, why), InEffect(g, at, h, why, pick);
            |e.g.handles| == |g.handles| && Balanced(e.g.handles[h], Moved(t, i, e, h))
  {
    if at == WriteCookie || at == WriteForce {
      WriteBalanced(g, at, h, why, pick, t);
    }
  }

  lemma {:induction false} WriteBalanced(g: Globals, at: InStep, h: nat, why: Guard, pick: bool, t: Tally)
    requires h < |g.handles| && why.c < |g.conns| && Sound(g.handles[h], t, Inside(at, h, why), h) && InOk(g, at, h)
    requires at == WriteCookie || at == WriteForce
    ensures var i, e := Inside(at, h, why), InEffect(g, at, h, why, pick);
            |e.g.handles| == |g.handles| && Balanced(e.g.handles[h], Moved(t, i, e, h))
  {
  }

  lemma {:induction false} CountedExitBalanced(g: Globals, at: ExitStep, h: nat, why: Guard, t: Tally)
    requires h < |g.handles| && Sound(g.handles[h], t, Leaving(at, h, why), h) && (at == Release || at == Dec || at == SeeZero || at == Gone)
    ensures var i, e := Leaving(at, h, why), ExitEffect(g, at, h, why);
            |e.g.handles| == |g.handles| && Balanced(e.g.handles[h], Moved(t, i, e, h))
  {
  }

  lemma {:induction false} ExitBalanced(g: Globals, at: ExitStep, h: nat, why: Guard, t: Tally)
    requires h < |g.handles| && Sound(g.handles[h], t, Leaving(at, h, why), h)
    requires at == SeeStopping || at == Recheck || at == CasStopped
    ensures var i, e := Leaving(at, h, why), ExitEffect(g, at, h, why);
            |e.g.handles| == |g.handles| && Balanced(e.g.handles[h], Moved(t, i, e, h))
  {
    if at == CasStopped {
      CasBalanced(g, h, why, t);
    }
  }

  lemma {:induction false} CasBalanced(g: Globals, h: nat, why: Guard, t: Tally)
    requires h < |g.handles| && Sound(g.handles[h], t, Leaving(CasStopped, h, why), h)
    ensures var i, e := Leaving(CasStopped, h, why), ExitEffect(g, CasStopped, h, why);
            |e.g.handles| == |g.handles| && Balanced(e.g.handles[h], Moved(t, i, e, h))
  {
  }

  lemma {:induction false} ShutBalanced(g: Globals, at: ShutStep, h: nat, t: Tally)
    requires h < |g.handles| && Sound(g.handles[h], t, Shutting(at, h), h) && g.handles[h].state == Stopped
    ensures var i, e := Shutting(at, h), ShutEffect(g, at, h);
            |e.g.handles| == |g.handles| && Balanced(e.g.handles[h], Moved(t, i, e, h))
  {
    if at == ClearState || at == Begin {
      hide ShutEffect, Sound, Balanced, Moved;
      ClearBalanced(g, at, h, t);
    }
  }

  lemma {:induction false} ClearBalanced(g: Globals, at: ShutStep, h: nat, t: Tally)
    requires h < |g.handles| && Sound(g.handles[h], t, Shutting(at, h), h) && g.handles[h].state == Stopped
    requires at == ClearState || at == Begin
    ensures var i, e := Shutting(at, h), ShutEffect(g, at, h);
            |e.g.handles| == |g.handles| && Balanced(e.g.handles[h], Moved(t, i, e, h))
  {
  }

  lemma {:induction false} AwaitBalanced(g: Globals, at: AwaitStep, h: nat, t: Tally)
    requires h < |g.handles| && Sound(g.handles[h], t, Awaiting(at, h), h)
    ensures var i, e := Awaiting(at, h), AwaitEffect(g, at, h);
            |e.g.handles| == |g.handles| && Balanced(e.g.handles[h], Moved(t, i, e, h))
  {
  }

  /** The accesses that matter for the state of a handle. */
  predicate Matters(i: Instr) {
    i.Entering? || i.Inside? || i.Leaving? || i.Shutting? || i.Awaiting?
  }

  /** Any other access changes neither the tally nor what it is compared with. */
  predicate Neutral(x: Handle, x': Handle, i: Instr, e: Effect, k: nat) {
    && x'.freed == x.freed && x'.started == x.started && x'.state == x.state && x'.clients == x.clients
    && x'.cookie == x.cookie && x'.force == x.force
    && !Matters(i) && (e.first.Some? ==> IsNone(TallyOf(e.first.value, k)))
    && (e.second.Some? ==> IsNone(TallyOf(e.second.value, k))) && e.spawned.None?
  }

  lemma {:induction false} NeutralBalanced(x: Handle, x': Handle, t: Tally, i: Instr, e: Effect, k: nat)
    requires Balanced(x, t) && Neutral(x, x', i, e, k)
    ensures Balanced(x', Moved(t, i, e, k))
  {
    hide IsWriter, IsWatcher, IsStarter;
    assert IsNone(TallyOf(i, k)) by { NoTally(i, k); }
  }

  lemma {:induction false} NoTally(i: Instr, k: nat)
    requires !i.Inside? && !i.Leaving? && !i.Shutting? && !i.Awaiting?
    ensures IsNone(TallyOf(i, k))
  {
  }

  // ---------------------------------------------------------------- all accesses

  predicate CalmInstr(o: Option<Instr>) {
    o.Some? ==> !o.value.Inside? && !o.value.Leaving? && !o.value.Shutting? && !o.value.Awaiting?
                && (o.value.Entering? ==> o.value.enter == Bump)
  }

  predicate Calm(e: Effect) {
    CalmInstr(e.first) && CalmInstr(e.second) && e.spawned.None?
  }

  lemma {:induction false} CalmTable(g: Globals, i: Instr, pick: bool)
    requires Ranged(g, i) && (i.Finding? || i.Retaining? || i.Making? || i.UnlockEngines?)
    ensures Calm(EffectOf(g, i, pick))
  {
    hide EnterEffect, InEffect, ExitEffect, SettleEffect, BindEffect, UnbindEffect, RelEffect, ShutEffect, AwaitEffect, FinishEffect,
         StopEffect, AddRefs, WithNewBucket;
  }

  lemma {:induction false} CalmBind(g: Globals, i: Instr, pick: bool)
    requires Ranged(g, i) && (i.Settling? || i.Binding? || i.Unbind? || i.Rel?)
    ensures Calm(EffectOf(g, i, pick))
  {
    hide EnterEffect, InEffect, ExitEffect, FindEffect, RetainEffect, MakeEffect, ShutEffect, AwaitEffect, FinishEffect, StopEffect,
         AddRefs, SetConn;
  }

  lemma {:induction false} CalmStop(g: Globals, i: Instr, pick: bool)
    requires i.LockBroadcast? || i.Broadcast? || i.UnlockShutdown? || i.Finishing? || i.StopAll?
    ensures Calm(EffectOf(g, i, pick))
  {
    hide EnterEffect, InEffect, ExitEffect, SettleEffect, FindEffect, RetainEffect, MakeEffect, BindEffect, UnbindEffect, RelEffect,
         ShutEffect, AwaitEffect;
  }

  lemma {:induction false} CalmStep(g: Globals, i: Instr, pick: bool)
    requires Ranged(g, i) && !Matters(i)
    ensures Calm(EffectOf(g, i, pick))
  {
    hide EffectOf, Calm;
    if i.Finding? || i.Retaining? || i.Making? || i.UnlockEngines? {
      CalmTable(g, i, pick);
    } else if i.Settling? || i.Binding? || i.Unbind? || i.Rel? {
      CalmBind(g, i, pick);
    } else {
      CalmStop(g, i, pick);
    }
  }

  lemma {:induction false} CalmNeutral(g: Globals, i: Instr, e: Effect, k: nat)
    requires Calm(e) && !Matters(i) && ClientsFollow(g, i, e, k) && Evolves(g, e.g, i, k)
    ensures Neutral(g.handles[k], e.g.handles[k], i, e, k)
  {
    hide InTable;
  }

  /** An access that matters stays with its handle. */
  predicate Local(g: Globals, h: nat, e: Effect, k: nat) {
    && (e.first.Some? ==> HandleOf(e.first.value) != Some(k)) && (e.second.Some? ==> HandleOf(e.second.value) != Some(k))
    && (e.spawned.Some? ==> HandleOf(e.spawned.value) != Some(k))
    && k < |g.handles| == |e.g.handles| && e.g.handles[k] == g.handles[k]
  }

  lemma {:induction false} CallLocal(g: Globals, i: Instr, pick: bool, k: nat)
    requires Ranged(g, i) && (i.Entering? || i.Inside?) && k < |g.handles| && i.h != k
    ensures Local(g, i.h, EffectOf(g, i, pick), k)
  {
    hide Local, EnterEffect, InEffect, ExitEffect, SettleEffect, FindEffect, RetainEffect, MakeEffect, BindEffect, UnbindEffect, RelEffect,
         ShutEffect, AwaitEffect, FinishEffect, StopEffect;
    match i
    case Entering(at, h, why) => EnterLocal(g, at, h, why, k);
    case Inside(at, h, why) => InLocal(g, at, h, why, pick, k);
  }

  lemma {:induction false} EnterLocal(g: Globals, at: EnterStep, h: nat, why: Guard, k: nat)
    requires h < |g.handles| && k < |g.handles| && h != k
    ensures Local(g, h, EnterEffect(g, at, h, why), k)
  {
  }

  lemma {:induction false} InLocal(g: Globals, at: InStep, h: nat, why: Guard, pick: bool, k: nat)
    requires h < |g.handles| && why.c < |g.conns| && k < |g.handles| && h != k
    ensures Local(g, h, InEffect(g, at, h, why, pick), k)
  {
  }

  lemma {:induction false} ExitLocal(g: Globals, i: Instr, pick: bool, k: nat)
    requires Ranged(g, i) && i.Leaving? && k < |g.handles| && i.h != k
    ensures Local(g, i.h, EffectOf(g, i, pick), k)
  {
    hide EnterEffect, InEffect, SettleEffect, FindEffect, RetainEffect, MakeEffect, BindEffect, UnbindEffect, RelEffect, ShutEffect,
         AwaitEffect, FinishEffect, StopEffect;
  }

  lemma {:induction false} ShutLocal(g: Globals, i: Instr, pick: bool, k: nat)
    requires Ranged(g, i) && (i.Shutting? || i.Awaiting?) && k < |g.handles| && i.h != k
    ensures Local(g, i.h, EffectOf(g, i, pick), k)
  {
    hide EnterEffect, InEffect, ExitEffect, SettleEffect, FindEffect, RetainEffect, MakeEffect, BindEffect, UnbindEffect, RelEffect,
         FinishEffect, StopEffect;
  }

  lemma {:induction false} HereBalanced(g: Globals, i: Instr, pick: bool, t: Tally)
    requires InstrOk(g, i) && Matters(i) && Sound(g.handles[i.h], t, i, i.h)
    ensures var e := EffectOf(g, i, pick); |e.g.handles| == |g.handles| && Balanced(e.g.handles[i.h], Moved(t, i, e, i.h))
  {
    hide EnterEffect, InEffect, ExitEffect, ShutEffect, AwaitEffect, Sound, Balanced, Moved, SettleEffect, FindEffect, RetainEffect,
         MakeEffect, BindEffect, UnbindEffect, RelEffect, FinishEffect, StopEffect, InTable;
    match i
    case Entering(at, h, why) => EnterBalanced(g, at, h, why, t);
    case Inside(at, h, why) => InBalanced(g, at, h, why, pick, t);
    case Leaving(at, h, why) =>
      if at == Release || at == Dec || at == SeeZero || at == Gone { CountedExitBalanced(g, at, h, why, t); } else { ExitBalanced(g, at, h, why, t); }
    case Shutting(at, h) => ShutBalanced(g, at, h, t);
    case Awaiting(at, h) => AwaitBalanced(g, at, h, t);
  }

  /** Every access keeps the balance of every handle. */
  lemma {:induction false} StepBalanced(g: Globals, i: Instr, pick: bool, k: nat, t: Tally)
    requires InstrOk(g, i) && k < |g.handles| && Sound(g.handles[k], t, i, k)
    requires ClientsFollow(g, i, EffectOf(g, i, pick), k) && Evolves(g, EffectOf(g, i, pick).g, i, k)
    ensures var e := EffectOf(g, i, pick); |e.g.handles| > k && Balanced(e.g.handles[k], Moved(t, i, e, k))
  {
    hide EffectOf, Moved, HandleEvolves, Calm, GuardOk, InOk, AwaitOk, InTable;
    var e := EffectOf(g, i, pick);
    if !Matters(i) {
      CalmStep(g, i, pick);
      CalmNeutral(g, i, e, k);
      NeutralBalanced(g.handles[k], e.g.handles[k], t, i, e, k);
    } else if i.h == k {
      HereBalanced(g, i, pick, t);
    } else {
      if i.Shutting? || i.Awaiting? {
        ShutLocal(g, i, pick, k);
      } else if i.Leaving? {
        ExitLocal(g, i, pick, k);
      } else {
        CallLocal(g, i, pick, k);
      }
      ElsewhereBalanced(g.handles[k], t, i, e, k);
    }
  }
}
