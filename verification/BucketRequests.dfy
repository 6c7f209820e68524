/** A bucket is deleted on behalf of one delete command, and in the way that command asked for. */
module BucketRequests {
  import opened Options
  import opened BucketProtocol
  import opened BucketSums
  import opened BucketInvariant
  import opened BucketFrames
  import opened BucketSafety
  import opened BucketStarts
  import opened BucketTheorems

  /** A delete command: its connection, the bucket it names, and whether it is forced. */
  datatype Request = Request(c: nat, name: Name, forced: bool)

  ghost predicate Wanted(es: seq<Event>, r: Request) {
    exists t :: Delete(t, r.c, r.name, r.forced) in es
  }

  function RequestAt(g: Globals, h: nat, why: Guard): Option<Request> {
    if why.OnDelete? && h < |g.handles| then Some(Request(why.c, g.handles[h].name, why.forced)) else None
  }

  /** The delete command an access belongs to, if any. */
  function RequestOf(g: Globals, i: Instr): Option<Request> {
    match i
    case Finding(_, name, p) => if p.ToDelete? then Some(Request(p.c, name, p.forced)) else None
    case Retaining(_, h, p) => if p.ToDelete? then RequestAt(g, h, OnDelete(p.c, p.forced)) else None
    case Entering(_, h, why) => RequestAt(g, h, why)
    case Inside(_, h, why) => RequestAt(g, h, why)
    case Leaving(_, h, why) => RequestAt(g, h, why)
    case _ => None
  }

  predicate IsWriter(i: Instr, h: nat) {
    i.Inside? && i.h == h && (i.inside == WriteCookie || i.inside == WriteForce)
  }

  /** The requester is written before the flag, by the same thread. */
  predicate NotedOk(g: Globals, i: Instr) {
    i.Inside? && i.inside == WriteForce && i.h < |g.handles| ==> g.handles[i.h].cookie == Some(i.g.c)
  }

  /** A handle runs, or one thread writes down who deletes it and how, or that is written down. */
  ghost predicate Recorded(es: seq<Event>, g: Globals, threads: Threads, h: nat)
    requires h < |g.handles|
  {
    var x := g.handles[h];
    && Total(threads, Writers(h)) + One(x.state == Running) + One(x.force.Some?) == 1
    && (x.force.Some? ==> x.cookie.Some? && Wanted(es, Request(x.cookie.value, x.name, x.force.value)))
  }

  ghost predicate Meant(es: seq<Event>, g: Globals, i: Instr) {
    NotedOk(g, i) && (RequestOf(g, i).Some? ==> Wanted(es, RequestOf(g, i).value))
  }

  ghost predicate Traced(es: seq<Event>, s: State) {
    && (forall i :: Pending(s.threads, i) ==> Meant(es, s.g, i))
    && (forall h :: 0 <= h < |s.g.handles| ==> Recorded(es, s.g, s.threads, h))
  }

  // ---------------------------------------------------------------- one access

  predicate FollowsFrom(g: Globals, i: Instr, g': Globals, o: Option<Instr>) {
    o.Some? && RequestOf(g', o.value).Some? ==> RequestOf(g', o.value) == RequestOf(g, i)
  }

  predicate AllFollow(g: Globals, i: Instr, e: Effect) {
    FollowsFrom(g, i, e.g, e.first) && FollowsFrom(g, i, e.g, e.second) && FollowsFrom(g, i, e.g, e.spawned)
  }

  /** What follows works for the same command on the same handle. */
  predicate SameGuard(h: nat, why: Guard, o: Option<Instr>) {
    match o
    case None => true
    case Some(Entering(_, x, g)) => x == h && g == why
    case Some(Inside(_, x, g)) => x == h && g == why
    case Some(Leaving(_, x, g)) => x == h && g == why
    case Some(i) => !i.Finding? && !i.Retaining?
  }

  predicate AllSameGuard(h: nat, why: Guard, e: Effect) {
    SameGuard(h, why, e.first) && SameGuard(h, why, e.second) && SameGuard(h, why, e.spawned)
  }

  lemma {:induction false} EnterFollows(g: Globals, at: EnterStep, h: nat, why: Guard)
    requires h < |g.handles|
    ensures AllSameGuard(h, why, EnterEffect(g, at, h, why))
  {
    hide AddClients, SetState;
  }

  lemma {:induction false} InFollows(g: Globals, at: InStep, h: nat, why: Guard, pick: bool)
    requires h < |g.handles| && why.c < |g.conns|
    ensures AllSameGuard(h, why, InEffect(g, at, h, why, pick))
  {
    hide AddRefs, SetConn, SetHandle;
  }

  lemma {:induction false} ExitFollows(g: Globals, at: ExitStep, h: nat, why: Guard)
    requires h < |g.handles|
    ensures AllSameGuard(h, why, ExitEffect(g, at, h, why))
  {
    hide AddClients, SetHandle;
  }

  lemma {:induction false} GuardedFollow(g: Globals, i: Instr, pick: bool)
    requires InstrOk(g, i) && (i.Entering? || i.Inside? || i.Leaving?)
    ensures AllFollow(g, i, EffectOf(g, i, pick))
  {
    hide EnterEffect, InEffect, ExitEffect, GuardOk, InOk;
    SameName(g, i, pick, i.h);
    match i
    case Entering(at, h, why) => EnterFollows(g, at, h, why);
    case Inside(at, h, why) => InFollows(g, at, h, why, pick);
    case Leaving(at, h, why) => ExitFollows(g, at, h, why);
  }

  lemma {:induction false} SameName(g: Globals, i: Instr, pick: bool, h: nat)
    requires InstrOk(g, i) && h < |g.handles|
    ensures var g' := EffectOf(g, i, pick).g; |g'.handles| >= |g.handles| && g'.handles[h].name == g.handles[h].name
  {
    hide EffectOf, InstrOk, InTable, StateEvolves, RefTouched;
    StepEvolves(g, i, pick, h);
  }

  lemma {:induction false} LookupsFollow(g: Globals, i: Instr, pick: bool)
    requires Ranged(g, i) && TableOk(g) && (i.Finding? || i.Retaining?)
    ensures AllFollow(g, i, EffectOf(g, i, pick))
  {
    hide EnterEffect, InEffect, ExitEffect, SettleEffect, MakeEffect, BindEffect, ShutEffect, AwaitEffect, FinishEffect, StopEffect;
  }

  predicate Unrequested(o: Option<Instr>) {
    o.Some? ==> !o.value.Entering? && !o.value.Inside? && !o.value.Leaving? && !o.value.Finding? && !o.value.Retaining?
  }

  lemma {:induction false} OthersUnrequested(g: Globals, i: Instr, pick: bool)
    requires Ranged(g, i) && !i.Entering? && !i.Inside? && !i.Leaving? && !i.Finding? && !i.Retaining?
    ensures var e := EffectOf(g, i, pick); Unrequested(e.first) && Unrequested(e.second) && Unrequested(e.spawned)
  {
    hide EnterEffect, InEffect, ExitEffect, FindEffect, RetainEffect, SetHandle, SetConn, AddRefs, SetState, WithNewBucket, Unlinked;
  }

  lemma {:induction false} StepFollows(g: Globals, i: Instr, pick: bool)
    requires InstrOk(g, i) && TableOk(g)
    ensures AllFollow(g, i, EffectOf(g, i, pick))
  {
    hide EffectOf, GuardOk, InOk, AwaitOk, InTable;
    if i.Entering? || i.Inside? || i.Leaving? {
      GuardedFollow(g, i, pick);
    } else if i.Finding? || i.Retaining? {
      LookupsFollow(g, i, pick);
    } else {
      OthersUnrequested(g, i, pick);
    }
  }

  /** What an access leaves to be done has its requester noted. */
  predicate AllNoted(e: Effect) {
    (e.first.Some? ==> NotedOk(e.g, e.first.value)) && (e.second.Some? ==> NotedOk(e.g, e.second.value))
    && (e.spawned.Some? ==> NotedOk(e.g, e.spawned.value))
  }

  predicate NoWriter(o: Option<Instr>) {
    o.Some? ==> !(o.value.Inside? && (o.value.inside == WriteCookie || o.value.inside == WriteForce))
  }

  ghost predicate WritersKept(g: Globals, i: Instr, e: Effect, h: nat)
    requires h < |g.handles|
  {
    && |e.g.handles| >= |g.handles| && AllNoted(e)
    && OfOption(Writers(h), e.first) + OfOption(Writers(h), e.second) + OfOption(Writers(h), e.spawned)
       + One(e.g.handles[h].state == Running) + One(e.g.handles[h].force.Some?)
       == Of(Writers(h), i) + One(g.handles[h].state == Running) + One(g.handles[h].force.Some?)
  }

  lemma {:induction false} EnterWrites(g: Globals, at: EnterStep, h: nat, why: Guard, k: nat)
    requires h < |g.handles| && k < |g.handles|
    ensures WritersKept(g, Entering(at, h, why), EnterEffect(g, at, h, why), k)
  {
    hide AddClients, SetState, InTable, RefTouched;
    EnterEvolves(g, at, h, why, k);
  }

  lemma {:induction false} InWrites(g: Globals, at: InStep, h: nat, why: Guard, pick: bool, k: nat)
    requires h < |g.handles| && why.c < |g.conns| && k < |g.handles| && InOk(g, at, h)
    requires at == WriteForce && h == k ==> g.handles[k].force.None?
    ensures WritersKept(g, Inside(at, h, why), InEffect(g, at, h, why, pick), k)
  {
    hide SetConn, SetHandle, AddRefs, InTable, RefTouched;
    InEvolves(g, at, h, why, pick, k);
    InEvolves(g, at, h, why, pick, h);
  }

  lemma {:induction false} WriterMoves(g: Globals, i: Instr, pick: bool, h: nat)
    requires InstrOk(g, i) && h < |g.handles| && (i.Entering? || i.Inside?)
    requires i.Inside? && i.inside == WriteForce && i.h == h ==> g.handles[h].force.None?
    ensures WritersKept(g, i, EffectOf(g, i, pick), h)
  {
    hide EnterEffect, InEffect, GuardOk, WritersKept, InOk;
    match i
    case Entering(at, k, why) => EnterWrites(g, at, k, why, h);
    case Inside(at, k, why) => InWrites(g, at, k, why, pick, h);
  }

  lemma {:induction false} NobodyWrites(g: Globals, i: Instr, pick: bool)
    requires Ranged(g, i) && !i.Entering? && !i.Inside?
    ensures var e := EffectOf(g, i, pick); NoWriter(e.first) && NoWriter(e.second) && NoWriter(e.spawned)
  {
    hide EffectOf;
    if i.Leaving? {
      LeavingWrites(g, i, pick);
    } else if i.Finding? || i.Retaining? {
      LookupWrites(g, i, pick);
    } else {
      OthersUnrequested(g, i, pick);
    }
  }

  lemma {:induction false} LeavingWrites(g: Globals, i: Instr, pick: bool)
    requires Ranged(g, i) && i.Leaving?
    ensures var e := EffectOf(g, i, pick); NoWriter(e.first) && NoWriter(e.second) && NoWriter(e.spawned)
  {
    hide SetHandle, AddClients;
  }

  lemma {:induction false} LookupWrites(g: Globals, i: Instr, pick: bool)
    requires Ranged(g, i) && (i.Finding? || i.Retaining?)
    ensures var e := EffectOf(g, i, pick); NoWriter(e.first) && NoWriter(e.second) && NoWriter(e.spawned)
  {
    hide AddRefs;
  }

  /** The state leaves running only where a writer begins. */
  lemma {:induction false} StepWriters(g: Globals, i: Instr, pick: bool, h: nat)
    requires InstrOk(g, i) && h < |g.handles|
    requires i.Inside? && i.inside == WriteForce && i.h == h ==> g.handles[h].force.None?
    ensures WritersKept(g, i, EffectOf(g, i, pick), h)
  {
    hide EffectOf, GuardOk, InOk, AwaitOk, InTable;
    if i.Entering? || i.Inside? {
      WriterMoves(g, i, pick, h);
    } else {
      NobodyWrites(g, i, pick);
      StepEvolves(g, i, pick, h);
    }
  }

  // ---------------------------------------------------------------- one event

  lemma {:induction false} StillWanted(es: seq<Event>, e: Event, r: Request)
    requires Wanted(es, r)
    ensures Wanted(es + [e], r)
  {
    var t :| Delete(t, r.c, r.name, r.forced) in es;
    assert Delete(t, r.c, r.name, r.forced) in es + [e];
  }

  /** What an access belongs to does not change under it, nor does the name it noted. */
  lemma {:induction false} StillMeant(es: seq<Event>, s: State, t: nat, pick: bool, j: Instr)
    requires Inv(s) && CanStep(s, t) && Traced(es, s) && Pending(Others(s, t, Rest(s, t)), j)
    ensures Meant(es, Step(s, t, pick).g, j)
  {
    hide Inv, EffectOf, CanRun, InstrOk, Pending, Others, Rest, Evolves, Of, Total, Wanted, Recorded;
    SplitTodo(s, t);
    OthersPending(s, t, [Head(s, t)], Rest(s, t), j);
    PendingOk(s, j);
    assert Meant(es, s.g, j);
    if HandleOf(j).Some? {
      KeepsNoted(es, s, t, pick, j);
    }
  }

  lemma {:induction false} KeepsNoted(es: seq<Event>, s: State, t: nat, pick: bool, j: Instr)
    requires Inv(s) && CanStep(s, t) && Traced(es, s) && Pending(Others(s, t, Rest(s, t)), j)
    requires HandleOf(j).Some? && HandleOf(j).value < |s.g.handles|
    ensures var h, g' := HandleOf(j).value, Step(s, t, pick).g;
            && |g'.handles| >= |s.g.handles| && g'.handles[h].name == s.g.handles[h].name
            && (IsWriter(j, h) ==> g'.handles[h].cookie == s.g.handles[h].cookie)
  {
    hide Inv, EffectOf, CanRun, InstrOk, Pending, Others, Rest, Total, Wanted, StateEvolves, InTable, RefTouched, Meant;
    var h := HandleOf(j).value;
    RunZero(s, t, pick, h);
    if IsWriter(j, h) {
      OthersLess(s, t, j, Writers(h));
      assert Recorded(es, s.g, s.threads, h);
    }
  }

  lemma {:induction false} RunMeant(es: seq<Event>, s: State, t: nat, pick: bool)
    requires Inv(s) && CanStep(s, t) && Traced(es, s)
    ensures forall i :: Pending(Stepped(s, t, pick).threads, i) ==> Meant(es, Stepped(s, t, pick).g, i)
  {
    hide Inv, EffectOf, CanRun, InstrOk, Pending, Others, Rest, After, Wanted, Recorded, Total, GlobalOk;
    var i, e, s' := Head(s, t), Step(s, t, pick), Stepped(s, t, pick);
    SplitTodo(s, t);
    PendingOk(s, i);
    SteppedGlobals(s, t, pick);
    assert Meant(es, s.g, i);
    TablePart(s);
    StepFollows(s.g, i, pick);
    NotedAfter(es, s, t, pick);
    forall j | Pending(s'.threads, j) ensures Meant(es, s'.g, j) {
      PendingAfter(s, t, [i], Rest(s, t), e, j);
      if Pending(Others(s, t, Rest(s, t)), j) {
        StillMeant(es, s, t, pick, j);
      }
    }
  }

  lemma {:induction false} TablePart(s: State)
    requires Inv(s)
    ensures TableOk(s.g)
  {
    hide InstrsOk, LocksOk, PcsOk, WaitsOk, RefsOk, ClientsOk, HandleOk, BareHandleOk, ConnOk, TableOk, FinalOk;
  }

  lemma {:induction false} NotedAfter(es: seq<Event>, s: State, t: nat, pick: bool)
    requires Inv(s) && CanStep(s, t) && Traced(es, s)
    ensures AllNoted(Step(s, t, pick))
  {
    hide Inv, EffectOf, CanRun, Pending, Total, Wanted, InTable, GuardOk, InOk, AwaitOk;
    var i := Head(s, t);
    SplitTodo(s, t);
    PendingOk(s, i);
    if i.Inside? {
      AboutToWrite(es, s, i);
      StepWriters(s.g, i, pick, i.h);
    } else if i.Entering? {
      StepWriters(s.g, i, pick, i.h);
    } else {
      NobodyWrites(s.g, i, pick);
    }
  }

  lemma {:induction false} AboutToWrite(es: seq<Event>, s: State, i: Instr)
    requires Inv(s) && Traced(es, s) && Pending(s.threads, i)
    ensures forall h: nat :: h < |s.g.handles| && IsWriter(i, h) ==> s.g.handles[h].force.None? && s.g.handles[h].state != Running
  {
    hide Inv, Pending, Total, Wanted, Meant;
    forall h: nat | h < |s.g.handles| && IsWriter(i, h) ensures s.g.handles[h].force.None? && s.g.handles[h].state != Running {
      PendingCounts(s.threads, i, Writers(h));
      assert Recorded(es, s.g, s.threads, h);
    }
  }

  lemma {:induction false} RunRecorded(es: seq<Event>, s: State, t: nat, pick: bool, h: nat)
    requires Inv(s) && CanStep(s, t) && Traced(es, s) && h < |s.g.handles|
    ensures h < |Stepped(s, t, pick).g.handles| && Recorded(es, Stepped(s, t, pick).g, Stepped(s, t, pick).threads, h)
  {
    hide Inv, EffectOf, CanRun, InstrOk, Pending, Total, Wanted, InTable, StateEvolves, RefTouched, Of, After, AllNoted;
    var i, e := Head(s, t), Step(s, t, pick);
    SplitTodo(s, t);
    PendingOk(s, i);
    SteppedGlobals(s, t, pick);
    assert Meant(es, s.g, i) && Recorded(es, s.g, s.threads, h);
    AboutToWrite(es, s, i);
    StepWriters(s.g, i, pick, h);
    RunZero(s, t, pick, h);
    RunTotal(s, t, pick, Writers(h));
    if i.Inside? && i.inside == WriteForce && i.h == h {
      WrittenByDelete(s.g, i);
    }
  }

  lemma {:induction false} WrittenByDelete(g: Globals, i: Instr)
    requires InstrOk(g, i) && i.Inside? && i.inside == WriteForce
    ensures i.g.OnDelete?
  {
  }

  lemma {:induction false} RunNew(es: seq<Event>, s: State, t: nat, pick: bool)
    requires Inv(s) && CanStep(s, t) && |Step(s, t, pick).g.handles| > |s.g.handles|
    ensures |Step(s, t, pick).g.handles| == |s.g.handles| + 1
    ensures Recorded(es, Stepped(s, t, pick).g, Stepped(s, t, pick).threads, |s.g.handles|)
  {
    hide Inv, EffectOf, CanRun, InstrOk, Pending, Total, Wanted, InTable, Of, After;
    var i, n := Head(s, t), |s.g.handles|;
    SplitTodo(s, t);
    PendingOk(s, i);
    SteppedGlobals(s, t, pick);
    OnlyInsertMakes(s.g, i, pick);
    NoneOfNew(s, Writers(n), n);
    RunTotal(s, t, pick, Writers(n));
    NobodyWrites(s.g, i, pick) by { OkIsRanged(s.g, i); }
    NoWriterCounts(Step(s, t, pick), i, n);
  }

  lemma {:induction false} OkIsRanged(g: Globals, i: Instr)
    requires InstrOk(g, i)
    ensures Ranged(g, i)
  {
    hide GuardOk, InOk, AwaitOk, InTable;
  }

  lemma {:induction false} NoWriterCounts(e: Effect, i: Instr, n: nat)
    requires NoWriter(e.first) && NoWriter(e.second) && NoWriter(e.spawned) && i.Making?
    ensures OfOption(Writers(n), e.first) == OfOption(Writers(n), e.second) == OfOption(Writers(n), e.spawned) == Of(Writers(n), i) == 0
  {
  }

  lemma {:induction false} RunTraced(es: seq<Event>, s: State, t: nat, pick: bool)
    requires Inv(s) && CanStep(s, t) && Traced(es, s)
    ensures Traced(es, Stepped(s, t, pick))
  {
    hide Inv, EffectOf, CanRun, Pending, Total, Wanted, After, Meant, Recorded;
    RunMeant(es, s, t, pick);
    SteppedGlobals(s, t, pick);
    var s' := Stepped(s, t, pick);
    forall h | 0 <= h < |s'.g.handles| ensures Recorded(es, s'.g, s'.threads, h) {
      if h < |s.g.handles| {
        RunRecorded(es, s, t, pick, h);
      } else {
        RunNew(es, s, t, pick);
      }
    }
  }

  /** Starting an operation records what it was asked for. */
  lemma {:induction false} StartTraced(es: seq<Event>, s: State, ev: Event)
    requires Inv(s) && Traced(es, s) && Enabled(s, ev) && IsStart(ev)
    ensures Traced(es + [ev], Next(s, ev))
  {
    hide Inv, Enabled, Pending, Total, Wanted, StartEffect, Fresh, Of;
    var e, s' := StartEffect(s, ev), Next(s, ev);
    StartGentle(s, ev);
    StartThread(s, ev);
    assert s.threads[ev.t] == [] + [];
    forall j | Pending(s'.threads, j) ensures Meant(es + [ev], s'.g, j) {
      PendingAfter(s, ev.t, [], [], e, j);
      if Pending(Others(s, ev.t, []), j) {
        OthersPending(s, ev.t, [], [], j);
        assert Meant(es, s.g, j);
        if RequestOf(s.g, j).Some? {
          StillWanted(es, ev, RequestOf(s.g, j).value);
        }
      } else {
        StartMeant(es, s, ev);
      }
    }
    forall h | 0 <= h < |s'.g.handles| ensures Recorded(es + [ev], s'.g, s'.threads, h) {
      assert Recorded(es, s.g, s.threads, h);
      StartSame(s, ev, Writers(h));
      var x := s.g.handles[h];
      if x.force.Some? {
        StillWanted(es, ev, Request(x.cookie.value, x.name, x.force.value));
      }
    }
  }

  lemma {:induction false} StartMeant(es: seq<Event>, s: State, ev: Event)
    requires Enabled(s, ev) && IsStart(ev)
    ensures var e := StartEffect(s, ev); e.first.Some? ==> Meant(es + [ev], e.g, e.first.value)
  {
    hide Idle;
    if ev.Delete? {
      assert Delete(ev.t, ev.c, ev.name, ev.forced) in es + [ev];
    }
  }

  lemma {:induction false} LaterTraced(es: seq<Event>, ev: Event, s: State, s': State)
    requires Traced(es, s) && s'.g == s.g.(conns := s'.g.conns)
    requires forall i :: Pending(s'.threads, i) ==> Pending(s.threads, i)
    requires forall k: Kind :: Total(s'.threads, k) == Total(s.threads, k)
    ensures Traced(es + [ev], s')
  {
    hide Pending, Total, Wanted;
    forall j | Pending(s'.threads, j) ensures Meant(es + [ev], s'.g, j) {
      assert Meant(es, s.g, j);
      if RequestOf(s.g, j).Some? {
        StillWanted(es, ev, RequestOf(s.g, j).value);
      }
    }
    forall h | 0 <= h < |s'.g.handles| ensures Recorded(es + [ev], s'.g, s'.threads, h) {
      assert Recorded(es, s.g, s.threads, h);
      var x := s.g.handles[h];
      if x.force.Some? {
        StillWanted(es, ev, Request(x.cookie.value, x.name, x.force.value));
      }
    }
  }

  lemma {:induction false} NextTraced(es: seq<Event>, s: State, ev: Event)
    requires Inv(s) && Traced(es, s) && Enabled(s, ev)
    ensures Traced(es + [ev], Next(s, ev))
  {
    hide Inv, CanRun, Ranged, StartEffect, EffectOf, Dozing, DozingStop, After, Idle, Traced, Pending, Total;
    if ev.Run? {
      RunTraced(es, s, ev.t, ev.pick);
      LaterTraced(es, ev, Stepped(s, ev.t, ev.pick), Next(s, ev));
    } else if ev.NewThread? {
      forall i | Pending(Next(s, ev).threads, i) ensures Pending(s.threads, i) {
        NewThreadPending(s, i);
      }
      forall k: Kind ensures Total(Next(s, ev).threads, k) == Total(s.threads, k) {
        NewThreadTotal(s, k);
      }
      LaterTraced(es, ev, s, Next(s, ev));
    } else if ev.NewConn? {
      LaterTraced(es, ev, s, Next(s, ev));
    } else {
      StartTraced(es, s, ev);
    }
  }

  lemma {:induction false} RunsTraced(past: seq<Event>, s: State, es: seq<Event>)
    requires Inv(s) && Traced(past, s) && IsRun(s, es)
    ensures Inv(StateAfter(s, es)) && Traced(past + es, StateAfter(s, es))
    decreases |es|
  {
    hide Inv, Enabled, Next, Traced;
    if es == [] {
      assert past + es == past;
    } else {
      NextKeepsInv(s, es[0]);
      NextTraced(past, s, es[0]);
      RunsTraced(past + [es[0]], Next(s, es[0]), es[1..]);
      assert past + [es[0]] + es[1..] == past + es;
    }
  }

  lemma {:induction false} InitialTraced()
    ensures Traced([], Initial())
  {
  }

  /**
   Whenever the shutdown of a bucket has started, one delete command of the run named this bucket,
   and the connection and the flag noted in the handle are those of that command.
   */
  lemma {:induction false} DeletedAsAsked(es: seq<Event>, h: nat) returns (t: nat)
    requires IsRun(Initial(), es) && h < |StateAfter(Initial(), es).g.handles|
    requires StateAfter(Initial(), es).g.handles[h].started == 1
    ensures var x := StateAfter(Initial(), es).g.handles[h];
            x.cookie.Some? && x.force.Some? && Delete(t, x.cookie.value, x.name, x.force.value) in es
  {
    hide Inv, IsRun, StateAfter, Traced, Reachable;
    InitialInv();
    InitialTraced();
    RunsTraced([], Initial(), es);
    assert [] + es == es;
    var s := StateAfter(Initial(), es);
    StartedOnce(s, h) by { Reaches(es); }
    RecordedPart(es, s, h);
    var x := s.g.handles[h];
    t :| Delete(t, x.cookie.value, x.name, x.force.value) in es;
  }

  lemma {:induction false} Reaches(es: seq<Event>)
    requires IsRun(Initial(), es)
    ensures Reachable(StateAfter(Initial(), es))
  {
    hide IsRun, StateAfter;
  }

  lemma {:induction false} RecordedPart(es: seq<Event>, s: State, h: nat)
    requires Traced(es, s) && h < |s.g.handles| && s.g.handles[h].force.Some?
    ensures var x := s.g.handles[h]; x.cookie.Some? && exists t :: Delete(t, x.cookie.value, x.name, x.force.value) in es
  {
    hide Pending, Total, Meant;
    assert Recorded(es, s.g, s.threads, h);
  }
}
