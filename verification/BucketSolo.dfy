/**
 What an operation achieves when the other threads leave it alone: a call is let in, a select binds
 its connection, a delete stops the bucket and starts its shutdown, and the shutdown takes the bucket
 out of the table and frees it.
 */
module BucketSolo {
  import opened Options
  import opened BucketProtocol
  import opened BucketSums
  import opened BucketInvariant
  import opened BucketSafety
  import opened BucketTheorems

  // ---------------------------------------------------------------- one thread on its own

  /** The shared state, what the thread has yet to do, and the threads it has started. */
  datatype Solo = Solo(g: Globals, todo: seq<Instr>, started: seq<Instr>)

  predicate CanGo(a: Solo) {
    a.todo != [] && Ranged(a.g, a.todo[0]) && CanRun(a.g, a.todo[0])
  }

  function Go(a: Solo): Solo
    requires CanGo(a)
  {
    var e := EffectOf(a.g, a.todo[0], true);
    Solo(e.g, Listed(e.first) + Listed(e.second) + a.todo[1..], a.started + Listed(e.spawned))
  }

  predicate GoesTo(a: Solo, n: nat, b: Solo)
    decreases n
  {
    if n == 0 then a == b else CanGo(a) && GoesTo(Go(a), n - 1, b)
  }

  ghost predicate Leads(a: Solo, b: Solo) {
    exists n: nat :: GoesTo(a, n, b)
  }

  lemma {:induction false} Onwards(a: Solo, n: nat, b: Solo, m: nat, c: Solo)
    requires GoesTo(a, n, b) && GoesTo(b, m, c)
    ensures GoesTo(a, n + m, c)
    decreases n
  {
    hide CanGo, Go;
    if n > 0 {
      Onwards(Go(a), n - 1, b, m, c);
    }
  }

  lemma {:induction false} Chain(a: Solo, b: Solo, c: Solo)
    requires Leads(a, b) && Leads(b, c)
    ensures Leads(a, c)
  {
    hide GoesTo;
    var n: nat, m: nat :| GoesTo(a, n, b) && GoesTo(b, m, c);
    Onwards(a, n, b, m, c);
  }

  lemma {:induction false} Once(a: Solo, b: Solo)
    requires CanGo(a) && Go(a) == b
    ensures Leads(a, b)
  {
    hide CanGo, Go;
    assert GoesTo(b, 0, b);
    assert GoesTo(a, 1, b);
  }

  // ---------------------------------------------------------------- the same as events

  predicate AllBy(es: seq<Event>, t: nat) {
    forall k :: 0 <= k < |es| ==> es[k] == Run(t, true)
  }

  predicate Shows(s: State, t: nat, a: Solo, known: nat) {
    && t < known <= |s.threads| && s.g == a.g && s.threads[t] == a.todo
    && |s.threads| == known + |a.started| && forall k :: 0 <= k < |a.started| ==> s.threads[known + k] == [a.started[k]]
  }

  lemma {:induction false} GoIsRun(s: State, t: nat, a: Solo, known: nat)
    requires Shows(s, t, a, known) && CanGo(a)
    ensures Enabled(s, Run(t, true)) && Shows(Next(s, Run(t, true)), t, Go(a), known)
  {
    hide EffectOf, CanRun, Ranged, Dozing, DozingStop;
  }

  lemma {:induction false} GoesIsRun(s: State, t: nat, a: Solo, known: nat, n: nat, b: Solo) returns (es: seq<Event>)
    requires Shows(s, t, a, known) && GoesTo(a, n, b)
    ensures AllBy(es, t) && IsRun(s, es) && Shows(StateAfter(s, es), t, b, known)
    decreases n
  {
    hide CanGo, Go, Shows, Enabled, Next;
    es := [];
    if n > 0 {
      GoIsRun(s, t, a, known);
      var rest := GoesIsRun(Next(s, Run(t, true)), t, Go(a), known, n - 1, b);
      es := [Run(t, true)] + rest;
      assert es[0] == Run(t, true) && es[1..] == rest;
    }
  }

  /** What a thread does on its own is a run of the protocol. */
  lemma {:induction false} LeadsIsRun(s: State, t: nat, a: Solo, known: nat, b: Solo) returns (es: seq<Event>)
    requires Shows(s, t, a, known) && Leads(a, b)
    ensures AllBy(es, t) && IsRun(s, es) && Shows(StateAfter(s, es), t, b, known)
  {
    hide GoesTo, Shows, IsRun, StateAfter, AllBy;
    var n: nat :| GoesTo(a, n, b);
    es := GoesIsRun(s, t, a, known, n, b);
  }

  // ---------------------------------------------------------------- looking a bucket up

  function Locked(g: Globals): Globals {
    g.(enginesHeld := true)
  }

  lemma {:induction false} LocksFind(g: Globals, name: Name, p: Purpose)
    requires !g.enginesHeld && p.c < |g.conns|
    ensures Leads(Solo(g, [Finding(LockFind, name, p)], []), Solo(Locked(g), [Finding(Find, name, p)], []))
  {
    hide Leads;
    Once(Solo(g, [Finding(LockFind, name, p)], []), Solo(Locked(g), [Finding(Find, name, p)], []));
  }

  lemma {:induction false} FindsEntry(g: Globals, name: Name, p: Purpose)
    requires p.c < |g.conns| && name in g.table
    ensures Leads(Solo(g, [Finding(Find, name, p)], []), Solo(g, [Retaining(RetainState, g.table[name], p)], []))
  {
    hide Leads;
    Once(Solo(g, [Finding(Find, name, p)], []), Solo(g, [Retaining(RetainState, g.table[name], p)], []));
  }

  lemma {:induction false} FindsNone(g: Globals, name: Name, p: Purpose)
    requires p.c < |g.conns| && name !in g.table
    ensures Leads(Solo(g, [Finding(Find, name, p)], []), Solo(g, [UnlockEngines, Finding(Missed, name, p)], []))
  {
    hide Leads;
    Once(Solo(g, [Finding(Find, name, p)], []), Solo(g, [UnlockEngines, Finding(Missed, name, p)], []));
  }

  lemma {:induction false} SeesState(g: Globals, h: nat, p: Purpose)
    requires h < |g.handles| && p.c < |g.conns|
    ensures Leads(Solo(g, [Retaining(RetainState, h, p)], []),
                  Solo(g, if g.handles[h].state == Running then [Retaining(RetainRef, h, p)]
                          else [UnlockEngines, Finding(Missed, g.handles[h].name, p)], []))
  {
    hide Leads;
    Once(Solo(g, [Retaining(RetainState, h, p)], []),
         Solo(g, if g.handles[h].state == Running then [Retaining(RetainRef, h, p)]
                 else [UnlockEngines, Finding(Missed, g.handles[h].name, p)], []));
  }

  function AfterRetain(h: nat, p: Purpose): Instr {
    if p.ToDelete? then Entering(Bump, h, OnDelete(p.c, p.forced)) else Binding(BindState, h, p.c)
  }

  lemma {:induction false} TakesRef(g: Globals, h: nat, p: Purpose)
    requires h < |g.handles| && p.c < |g.conns|
    ensures Leads(Solo(g, [Retaining(RetainRef, h, p)], []), Solo(AddRefs(g, h, 1), [UnlockEngines, AfterRetain(h, p)], []))
  {
    hide Leads;
    Once(Solo(g, [Retaining(RetainRef, h, p)], []), Solo(AddRefs(g, h, 1), [UnlockEngines, AfterRetain(h, p)], []));
  }

  lemma {:induction false} Unlocks(g: Globals, rest: seq<Instr>, started: seq<Instr>)
    ensures Leads(Solo(g, [UnlockEngines] + rest, started), Solo(g.(enginesHeld := false), rest, started))
  {
    hide Leads;
    Once(Solo(g, [UnlockEngines] + rest, started), Solo(g.(enginesHeld := false), rest, started));
  }

  /** A bucket that runs is found and retained. */
  lemma {:induction false} Finds(g: Globals, name: Name, p: Purpose, h: nat)
    requires !g.enginesHeld && p.c < |g.conns| && name in g.table && g.table[name] == h < |g.handles|
    requires g.handles[h].state == Running
    ensures Leads(Solo(g, [Finding(LockFind, name, p)], []), Solo(AddRefs(g, h, 1), [AfterRetain(h, p)], []))
  {
    hide Leads, AfterRetain;
    var l, next := Locked(g), AfterRetain(h, p);
    var a, b, c := Solo(g, [Finding(LockFind, name, p)], []), Solo(l, [Finding(Find, name, p)], []),
                   Solo(l, [Retaining(RetainState, h, p)], []);
    var d, e := Solo(l, [Retaining(RetainRef, h, p)], []), Solo(AddRefs(l, h, 1), [UnlockEngines] + [next], []);
    var z := Solo(AddRefs(g, h, 1), [next], []);
    assert [UnlockEngines, next] == [UnlockEngines] + [next];
    LocksFind(g, name, p);
    FindsEntry(l, name, p);
    SeesState(l, h, p);
    TakesRef(l, h, p);
    Unlocks(e.g, [next], []);
    Chain(a, b, c);
    Chain(a, c, d);
    Chain(a, d, e);
    Chain(a, e, z);
  }

  /** A bucket that is not there, or that is being deleted, is missed. */
  lemma {:induction false} Misses(g: Globals, name: Name, p: Purpose)
    requires !g.enginesHeld && p.c < |g.conns|
    requires name in g.table ==>
               g.table[name] < |g.handles| && g.handles[g.table[name]].state != Running && g.handles[g.table[name]].name == name
    ensures Leads(Solo(g, [Finding(LockFind, name, p)], []), Solo(g, [Finding(Missed, name, p)], []))
  {
    hide Leads;
    var l, rest := Locked(g), [Finding(Missed, name, p)];
    var a, b := Solo(g, [Finding(LockFind, name, p)], []), Solo(l, [Finding(Find, name, p)], []);
    var y, z := Solo(l, [UnlockEngines] + rest, []), Solo(g, rest, []);
    assert [UnlockEngines, Finding(Missed, name, p)] == [UnlockEngines] + rest;
    LocksFind(g, name, p);
    if name in g.table {
      var c := Solo(l, [Retaining(RetainState, g.table[name], p)], []);
      FindsEntry(l, name, p);
      SeesState(l, g.table[name], p);
      Chain(b, c, y);
    } else {
      FindsNone(l, name, p);
    }
    Unlocks(l, rest, []);
    assert l.(enginesHeld := false) == g;
    Chain(b, y, z);
    Chain(a, b, z);
  }

  // ---------------------------------------------------------------- selecting a bucket

  predicate OnlyRels(todo: seq<Instr>) {
    forall k :: 0 <= k < |todo| ==> todo[k].Rel?
  }

  /** The connection uses a bucket, and only references are left to drop. */
  ghost predicate Uses(b: Solo, g: Globals, c: nat, peh: Option<nat>) {
    && c < |g.conns| && b.g.conns == g.conns[c := g.conns[c].(peh := peh)] && !b.g.enginesHeld
    && OnlyRels(b.todo) && b.started == []
  }

  lemma {:induction false} BindsRef(g: Globals, h: nat, c: nat)
    requires h < |g.handles| && c < |g.conns| && g.handles[h].state == Running && g.conns[c].reserved == 0
    ensures Leads(Solo(g, [Binding(BindState, h, c)], []), Solo(g, [Binding(BindRef, h, c)], []))
    ensures Leads(Solo(g, [Binding(BindRef, h, c)], []), Solo(AddRefs(g, h, 1), [Binding(BindWrite, h, c)], []))
  {
    hide Leads;
    Once(Solo(g, [Binding(BindState, h, c)], []), Solo(g, [Binding(BindRef, h, c)], []));
    Once(Solo(g, [Binding(BindRef, h, c)], []), Solo(AddRefs(g, h, 1), [Binding(BindWrite, h, c)], []));
  }

  lemma {:induction false} BindsWrite(g: Globals, h: nat, c: nat) returns (z: Solo)
    requires h < |g.handles| && c < |g.conns| && !g.enginesHeld
    ensures Leads(Solo(g, [Binding(BindWrite, h, c)], []), z) && Uses(z, g, c, Some(h)) && z.g == g.(conns := z.g.conns)
  {
    hide Leads;
    z := Go(Solo(g, [Binding(BindWrite, h, c)], []));
    Once(Solo(g, [Binding(BindWrite, h, c)], []), z);
  }

  /** A connection without reservations is bound to the handle retained for it. */
  lemma {:induction false} Binds(g: Globals, h: nat, c: nat) returns (z: Solo)
    requires h < |g.handles| && c < |g.conns| && g.handles[h].state == Running && g.conns[c].reserved == 0 && !g.enginesHeld
    ensures Leads(Solo(g, [Binding(BindState, h, c)], []), z) && Uses(z, g, c, Some(h)) && z.g.table == g.table
    ensures |z.g.handles| == |g.handles| && z.g.handles[h] == g.handles[h].(refcount := z.g.handles[h].refcount)
  {
    hide Leads, CanGo, Go, AddRefs;
    var a, b := Solo(g, [Binding(BindState, h, c)], []), Solo(g, [Binding(BindRef, h, c)], []);
    var d := Solo(AddRefs(g, h, 1), [Binding(BindWrite, h, c)], []);
    BindsRef(g, h, c);
    z := BindsWrite(d.g, h, c);
    RefsParts(g, h);
    Chain(a, b, d);
    Chain(a, d, z);
  }

  lemma {:induction false} Unbinds(g: Globals, c: nat) returns (z: Solo)
    requires c < |g.conns| && g.conns[c].reserved == 0 && !g.enginesHeld
    ensures Leads(Solo(g, [Unbind(c)], []), z) && Uses(z, g, c, None) && z.g.table == g.table && z.g.handles == g.handles
  {
    hide Leads;
    z := Go(Solo(g, [Unbind(c)], []));
    Once(Solo(g, [Unbind(c)], []), z);
  }

  lemma {:induction false} LocksInsert(g: Globals, name: Name, c: nat)
    requires !g.enginesHeld && c < |g.conns|
    ensures Leads(Solo(g, [Making(LockInsert, name, Some(c))], []), Solo(Locked(g), [Making(Insert, name, Some(c))], []))
  {
    hide Leads;
    Once(Solo(g, [Making(LockInsert, name, Some(c))], []), Solo(Locked(g), [Making(Insert, name, Some(c))], []));
  }

  lemma {:induction false} Inserts(g: Globals, name: Name, c: nat)
    requires name !in g.table && c < |g.conns|
    ensures Leads(Solo(g, [Making(Insert, name, Some(c))], []),
                  Solo(WithNewBucket(g, name), [UnlockEngines] + [Binding(BindState, |g.handles|, c)], []))
  {
    hide Leads;
    Once(Solo(g, [Making(Insert, name, Some(c))], []),
         Solo(WithNewBucket(g, name), [UnlockEngines] + [Binding(BindState, |g.handles|, c)], []));
  }

  lemma {:induction false} InsertsNot(g: Globals, name: Name, c: nat)
    requires name in g.table && c < |g.conns|
    ensures Leads(Solo(g, [Making(Insert, name, Some(c))], []), Solo(g, [UnlockEngines] + [Unbind(c)], []))
  {
    hide Leads;
    Once(Solo(g, [Making(Insert, name, Some(c))], []), Solo(g, [UnlockEngines] + [Unbind(c)], []));
  }

  /** A bucket is created for a name that is free, and bound. */
  lemma {:induction false} Makes(g: Globals, name: Name, c: nat) returns (z: Solo)
    requires name !in g.table && c < |g.conns| && g.conns[c].reserved == 0 && !g.enginesHeld
    ensures Leads(Solo(g, [Making(LockInsert, name, Some(c))], []), z) && Uses(z, g, c, Some(|g.handles|))
    ensures z.g.table == g.table[name := |g.handles|] && |z.g.handles| == |g.handles| + 1
    ensures z.g.handles[|g.handles|].state == Running && z.g.handles[|g.handles|].name == name
  {
    hide Leads;
    var n, l := |g.handles|, Locked(g);
    var a, b := Solo(g, [Making(LockInsert, name, Some(c))], []), Solo(l, [Making(Insert, name, Some(c))], []);
    var d := Solo(WithNewBucket(l, name), [UnlockEngines] + [Binding(BindState, n, c)], []);
    var e := Solo(WithNewBucket(g, name), [Binding(BindState, n, c)], []);
    LocksInsert(g, name, c);
    Inserts(l, name, c);
    Unlocks(d.g, e.todo, []);
    assert d.g.(enginesHeld := false) == e.g;
    z := Binds(e.g, n, c);
    Chain(a, b, d);
    Chain(a, d, e);
    Chain(a, e, z);
  }

  /** A bucket is not created under a name that is taken. */
  lemma {:induction false} MakesNot(g: Globals, name: Name, c: nat) returns (z: Solo)
    requires name in g.table && c < |g.conns| && g.conns[c].reserved == 0 && !g.enginesHeld
    ensures Leads(Solo(g, [Making(LockInsert, name, Some(c))], []), z) && Uses(z, g, c, None)
    ensures z.g.table == g.table && z.g.handles == g.handles
  {
    hide Leads;
    var l := Locked(g);
    var a, b := Solo(g, [Making(LockInsert, name, Some(c))], []), Solo(l, [Making(Insert, name, Some(c))], []);
    var d, e := Solo(l, [UnlockEngines] + [Unbind(c)], []), Solo(g, [Unbind(c)], []);
    LocksInsert(g, name, c);
    InsertsNot(l, name, c);
    Unlocks(l, e.todo, []);
    assert l.(enginesHeld := false) == g;
    z := Unbinds(g, c);
    Chain(a, b, d);
    Chain(a, d, e);
    Chain(a, e, z);
  }

  predicate Runs(g: Globals, name: Name) {
    name in g.table && g.table[name] < |g.handles| && g.handles[g.table[name]].state == Running
  }

  /** The bucket a select ends with: the one that runs under the name, a new one if asked for, or none. */
  function Selected(g: Globals, name: Name, create: bool): Option<nat> {
    if Runs(g, name) then Some(g.table[name])
    else if create && name !in g.table then Some(|g.handles|)
    else None
  }

  lemma {:induction false} Selects(g: Globals, name: Name, c: nat, create: bool) returns (z: Solo)
    requires TableOk(g) && c < |g.conns| && g.conns[c].reserved == 0 && !g.enginesHeld
    ensures Leads(Solo(g, [Finding(LockFind, name, ToSelect(c, create))], []), z)
    ensures Uses(z, g, c, Selected(g, name, create))
    ensures z.g.table == if create && name !in g.table then g.table[name := |g.handles|] else g.table
    ensures Selected(g, name, create).Some? ==>
              var h := Selected(g, name, create).value;
              h < |z.g.handles| && z.g.handles[h].state == Running && z.g.handles[h].name == name
  {
    hide Leads, AddRefs;
    var p := ToSelect(c, create);
    var a, m := Solo(g, [Finding(LockFind, name, p)], []), Solo(g, [Finding(Missed, name, p)], []);
    if Runs(g, name) {
      var h := g.table[name];
      Finds(g, name, p, h);
      RefsParts(g, h);
      z := Binds(AddRefs(g, h, 1), h, c);
      Chain(a, Solo(AddRefs(g, h, 1), [AfterRetain(h, p)], []), z);
    } else {
      Misses(g, name, p);
      var n := Solo(g, [if create then Making(LockInsert, name, Some(c)) else Unbind(c)], []);
      Once(m, n);
      if !create {
        z := Unbinds(g, c);
      } else if name in g.table {
        z := MakesNot(g, name, c);
      } else {
        z := Makes(g, name, c);
      }
      Chain(m, n, z);
      Chain(a, m, z);
    }
  }

  lemma {:induction false} RefsParts(g: Globals, h: nat)
    requires h < |g.handles|
    ensures AddRefs(g, h, 1).handles[h] == g.handles[h].(refcount := g.handles[h].refcount + 1)
    ensures forall k :: 0 <= k < |g.handles| && k != h ==> AddRefs(g, h, 1).handles[k] == g.handles[k]
  {
  }

  /** From any reachable state, a select left alone binds its connection to the bucket it names. */
  lemma {:induction false} SelectAlone(s: State, t: nat, c: nat, name: Name, create: bool) returns (es: seq<Event>)
    requires Reachable(s) && Enabled(s, Select(t, c, name, create)) && s.g.conns[c].reserved == 0 && !s.g.enginesHeld
    ensures var s1 := Next(s, Select(t, c, name, create));
            && AllBy(es, t) && IsRun(s1, es)
            && var s' := StateAfter(s1, es);
               && s'.g.conns == s.g.conns[c := s.g.conns[c].(peh := Selected(s.g, name, create))]
               && s'.g.table == (if create && name !in s.g.table then s.g.table[name := |s.g.handles|] else s.g.table)
               && t < |s'.threads| && OnlyRels(s'.threads[t])
  {
    hide Inv, Reachable, Leads, IsRun, StateAfter, AllBy, Selected, OnlyRels, Idle;
    ReachableInv(s);
    assert TableOk(s.g) by { TableSound(s); }
    var s1 := Next(s, Select(t, c, name, create));
    var a := Solo(s.g, [Finding(LockFind, name, ToSelect(c, create))], []);
    var z := Selects(s.g, name, c, create);
    assert Shows(s1, t, a, |s.threads|);
    es := LeadsIsRun(s1, t, a, |s.threads|, z);
  }

  lemma {:induction false} TableSound(s: State)
    requires Inv(s)
    ensures TableOk(s.g)
  {
    hide InstrsOk, LocksOk, PcsOk, WaitsOk, RefsOk, ClientsOk, HandleOk, BareHandleOk, ConnOk, TableOk, FinalOk;
  }

  // ---------------------------------------------------------------- deleting a bucket

  /** The handle once a delete command has marked it, with who asked and how. */
  function Marked(x: Handle, c: nat, forced: bool): Handle {
    x.(state := Stopping, cookie := Some(c), force := Some(forced))
  }

  lemma {:induction false} Counts(g: Globals, h: nat, why: Guard)
    requires h < |g.handles| && why.c < |g.conns| && why.OnDelete?
    ensures Leads(Solo(g, [Entering(Bump, h, why)], []), Solo(AddClients(g, h, 1), [Entering(CasStopping, h, why)], []))
  {
    hide Leads;
    Once(Solo(g, [Entering(Bump, h, why)], []), Solo(AddClients(g, h, 1), [Entering(CasStopping, h, why)], []));
  }

  lemma {:induction false} Marks(g: Globals, h: nat, why: Guard)
    requires h < |g.handles| && why.c < |g.conns| && g.handles[h].state == Running
    ensures Leads(Solo(g, [Entering(CasStopping, h, why)], []), Solo(SetState(g, h, Stopping), [Inside(WriteCookie, h, why)], []))
  {
    hide Leads;
    Once(Solo(g, [Entering(CasStopping, h, why)], []), Solo(SetState(g, h, Stopping), [Inside(WriteCookie, h, why)], []));
  }

  lemma {:induction false} WritesCookie(g: Globals, h: nat, why: Guard)
    requires h < |g.handles| && why.c < |g.conns|
    ensures Leads(Solo(g, [Inside(WriteCookie, h, why)], []),
                  Solo(SetHandle(g, h, g.handles[h].(cookie := Some(why.c))), [Inside(WriteForce, h, why)], []))
  {
    hide Leads;
    Once(Solo(g, [Inside(WriteCookie, h, why)], []),
         Solo(SetHandle(g, h, g.handles[h].(cookie := Some(why.c))), [Inside(WriteForce, h, why)], []));
  }

  lemma {:induction false} WritesForce(g: Globals, h: nat, why: Guard)
    requires h < |g.handles| && why.c < |g.conns| && why.OnDelete?
    ensures Leads(Solo(g, [Inside(WriteForce, h, why)], []),
                  Solo(SetHandle(g, h, g.handles[h].(force := Some(why.forced))), [Leaving(Release, h, why)], []))
  {
    hide Leads;
    Once(Solo(g, [Inside(WriteForce, h, why)], []),
         Solo(SetHandle(g, h, g.handles[h].(force := Some(why.forced))), [Leaving(Release, h, why)], []));
  }

  lemma {:induction false} LastOut(g: Globals, h: nat, why: Guard)
    requires h < |g.handles| && why.c < |g.conns| && g.handles[h].clients == 1
    ensures Leads(Solo(g, [Leaving(Release, h, why)], []), Solo(AddClients(g, h, -1), [Leaving(SeeStopping, h, why)], []))
  {
    hide Leads;
    Once(Solo(g, [Leaving(Release, h, why)], []), Solo(AddClients(g, h, -1), [Leaving(SeeStopping, h, why)], []));
  }

  lemma {:induction false} Looks(g: Globals, h: nat, why: Guard, at: ExitStep, after: ExitStep)
    requires h < |g.handles| && why.c < |g.conns| && g.handles[h].state == Stopping && g.handles[h].clients == 0
    requires (at == SeeStopping && after == Recheck) || (at == Recheck && after == SeeZero) || (at == SeeZero && after == CasStopped)
    ensures Leads(Solo(g, [Leaving(at, h, why)], []), Solo(g, [Leaving(after, h, why)], []))
  {
    hide Leads;
    Once(Solo(g, [Leaving(at, h, why)], []), Solo(g, [Leaving(after, h, why)], []));
  }

  lemma {:induction false} StartsShutdown(g: Globals, h: nat, why: Guard)
    requires h < |g.handles| && why.c < |g.conns| && g.handles[h].state == Stopping
    ensures var x := g.handles[h];
            Leads(Solo(g, [Leaving(CasStopped, h, why)], []),
                  Solo(SetHandle(g, h, x.(state := Stopped, started := x.started + 1)), [Leaving(Gone, h, why)], [Shutting(LockBegin, h)]))
  {
    hide Leads;
    var x := g.handles[h];
    Once(Solo(g, [Leaving(CasStopped, h, why)], []),
         Solo(SetHandle(g, h, x.(state := Stopped, started := x.started + 1)), [Leaving(Gone, h, why)], [Shutting(LockBegin, h)]));
  }

  /** The last one out of a bucket that stops goes on to start its shutdown. */
  lemma {:induction false} LeavesLast(g: Globals, h: nat, why: Guard)
    requires h < |g.handles| && why.c < |g.conns| && g.handles[h].state == Stopping && g.handles[h].clients == 1
    ensures var x := g.handles[h];
            Leads(Solo(g, [Leaving(Release, h, why)], []),
                  Solo(SetHandle(g, h, x.(state := Stopped, clients := 0, started := x.started + 1)), [Leaving(Gone, h, why)], [Shutting(LockBegin, h)]))
  {
    hide Leads;
    var x, l := g.handles[h], AddClients(g, h, -1);
    var a, b, c := Solo(g, [Leaving(Release, h, why)], []), Solo(l, [Leaving(SeeStopping, h, why)], []), Solo(l, [Leaving(Recheck, h, why)], []);
    var d, e := Solo(l, [Leaving(SeeZero, h, why)], []), Solo(l, [Leaving(CasStopped, h, why)], []);
    var g' := SetHandle(g, h, x.(state := Stopped, clients := 0, started := x.started + 1));
    var z := Solo(g', [Leaving(Gone, h, why)], [Shutting(LockBegin, h)]);
    LastOut(g, h, why);
    Looks(l, h, why, SeeStopping, Recheck);
    Looks(l, h, why, Recheck, SeeZero);
    Looks(l, h, why, SeeZero, CasStopped);
    StartsShutdown(l, h, why);
    assert SetHandle(l, h, l.handles[h].(state := Stopped, started := x.started + 1)) == g';
    Chain(a, b, c);
    Chain(a, c, d);
    Chain(a, d, e);
    Chain(a, e, z);
  }

  lemma {:induction false} Settles(g: Globals, h: nat, why: Guard, started: seq<Instr>) returns (z: Solo)
    requires h < |g.handles| && why.OnDelete? && why.c < |g.conns| && (g.conns[why.c].peh == Some(h) ==> g.conns[why.c].reserved == 0)
    ensures Leads(Solo(g, [Leaving(Gone, h, why)], started), z) && OnlyRels(z.todo) && z.started == started
    ensures z.g == g.(conns := z.g.conns)
    ensures z.g.conns == if g.conns[why.c].peh == Some(h) then g.conns[why.c := g.conns[why.c].(peh := None)] else g.conns
  {
    hide Leads;
    var a, b := Solo(g, [Leaving(Gone, h, why)], started), Solo(g, [Settling(DropOwn, h, why.c)], started);
    Once(a, b);
    z := Go(b);
    Once(b, z);
    Chain(a, b, z);
  }

  /** A delete of a bucket that nobody is in stops it, notes who asked and how, and starts its shutdown. */
  lemma {:induction false} Deletes(g: Globals, name: Name, c: nat, forced: bool) returns (z: Solo)
    requires Runs(g, name) && !g.enginesHeld && c < |g.conns| && g.handles[g.table[name]].clients == 0
    requires g.conns[c].peh == Some(g.table[name]) ==> g.conns[c].reserved == 0
    ensures Leads(Solo(g, [Finding(LockFind, name, ToDelete(c, forced))], []), z)
    ensures var h := g.table[name];
            && OnlyRels(z.todo) && z.started == [Shutting(LockBegin, h)] && z.g.table == g.table && |z.g.handles| == |g.handles|
            && z.g.handles[h] == Marked(g.handles[h], c, forced).(
                 state := Stopped, started := g.handles[h].started + 1, refcount := g.handles[h].refcount + 1)
            && z.g.conns == if g.conns[c].peh == Some(h) then g.conns[c := g.conns[c].(peh := None)] else g.conns
  {
    hide Leads, SetHandle, AddRefs, OnlyRels, CanGo, Go;
    var h, p, why := g.table[name], ToDelete(c, forced), OnDelete(c, forced);
    var a := Solo(g, [Finding(LockFind, name, p)], []);
    var b := Solo(AddRefs(g, h, 1), [Entering(Bump, h, why)], []);
    RefsParts(g, h);
    Finds(g, name, p, h);
    var m := Marking(b.g, h, c, forced);
    Chain(a, b, m);
    SetParts(b.g, h, Marked(b.g.handles[h], c, forced).(clients := b.g.handles[h].clients + 1));
    LeavesLast(m.g, h, why);
    var x := m.g.handles[h];
    var l := Solo(SetHandle(m.g, h, x.(state := Stopped, clients := 0, started := x.started + 1)), [Leaving(Gone, h, why)], [Shutting(LockBegin, h)]);
    Chain(a, m, l);
    SetParts(m.g, h, x.(state := Stopped, clients := 0, started := x.started + 1));
    z := Settles(l.g, h, why, l.started);
    Chain(a, l, z);
  }

  lemma {:induction false} SetParts(g: Globals, h: nat, x: Handle)
    requires h < |g.handles|
    ensures SetHandle(g, h, x).handles[h] == x
  {
  }

  lemma {:induction false} Marking(g: Globals, h: nat, c: nat, forced: bool) returns (z: Solo)
    requires h < |g.handles| && c < |g.conns| && g.handles[h].state == Running
    ensures var x := g.handles[h];
            z == Solo(SetHandle(g, h, Marked(x, c, forced).(clients := x.clients + 1)), [Leaving(Release, h, OnDelete(c, forced))], [])
    ensures Leads(Solo(g, [Entering(Bump, h, OnDelete(c, forced))], []), z)
  {
    hide Leads;
    var x, why := g.handles[h], OnDelete(c, forced);
    var g1, g2 := AddClients(g, h, 1), SetState(AddClients(g, h, 1), h, Stopping);
    var g3 := SetHandle(g2, h, g2.handles[h].(cookie := Some(c)));
    var g4 := SetHandle(g3, h, g3.handles[h].(force := Some(forced)));
    var a, b := Solo(g, [Entering(Bump, h, why)], []), Solo(g1, [Entering(CasStopping, h, why)], []);
    var d, e := Solo(g2, [Inside(WriteCookie, h, why)], []), Solo(g3, [Inside(WriteForce, h, why)], []);
    z := Solo(SetHandle(g, h, Marked(x, c, forced).(clients := x.clients + 1)), [Leaving(Release, h, why)], []);
    Counts(g, h, why);
    Marks(g1, h, why);
    WritesCookie(g2, h, why);
    WritesForce(g3, h, why);
    assert g4 == z.g;
    Chain(a, b, d);
    Chain(a, d, e);
    Chain(a, e, z);
  }

  /** From any state, a delete left alone, of a bucket nobody is in, starts its shutdown. */
  lemma {:induction false} DeleteAlone(s: State, t: nat, c: nat, name: Name, forced: bool) returns (es: seq<Event>)
    requires Enabled(s, Delete(t, c, name, forced)) && !s.g.enginesHeld && Runs(s.g, name)
    requires s.g.handles[s.g.table[name]].clients == 0
    requires s.g.conns[c].peh == Some(s.g.table[name]) ==> s.g.conns[c].reserved == 0
    ensures var s1 := Next(s, Delete(t, c, name, forced));
            && AllBy(es, t) && IsRun(s1, es)
            && var s', h := StateAfter(s1, es), s.g.table[name];
               && t < |s'.threads| && OnlyRels(s'.threads[t]) && |s'.threads| == |s.threads| + 1
               && s'.threads[|s.threads|] == [Shutting(LockBegin, h)]
               && h < |s'.g.handles| && s'.g.handles[h].state == Stopped
               && s'.g.handles[h].cookie == Some(c) && s'.g.handles[h].force == Some(forced)
  {
    hide Leads, IsRun, StateAfter, AllBy, OnlyRels, Idle, Shows, Next;
    var s1 := Next(s, Delete(t, c, name, forced));
    var a := Solo(s.g, [Finding(LockFind, name, ToDelete(c, forced))], []);
    var z := Deletes(s.g, name, c, forced);
    DeleteStarts(s, t, c, name, forced);
    es := LeadsIsRun(s1, t, a, |s.threads|, z);
    ShowsParts(StateAfter(s1, es), t, z, |s.threads|);
  }

  lemma {:induction false} DeleteStarts(s: State, t: nat, c: nat, name: Name, forced: bool)
    requires Enabled(s, Delete(t, c, name, forced))
    ensures Shows(Next(s, Delete(t, c, name, forced)), t, Solo(s.g, [Finding(LockFind, name, ToDelete(c, forced))], []), |s.threads|)
  {
    hide Idle;
  }

  lemma {:induction false} ShowsParts(s: State, t: nat, a: Solo, known: nat)
    requires Shows(s, t, a, known)
    ensures t < known <= |s.threads| && s.g == a.g && s.threads[t] == a.todo && |s.threads| == known + |a.started|
    ensures |a.started| == 1 ==> s.threads[known] == [a.started[0]]
  {
    assert |a.started| == 1 ==> s.threads[known + 0] == [a.started[0]];
  }

  /** A call left alone on a connection bound to a running bucket is let in; on any other bucket it is turned away. */
  lemma {:induction false} CallAlone(s: State, t: nat, c: nat)
    requires Enabled(s, Call(t, c)) && s.g.conns[c].peh.value < |s.g.handles|
    ensures var h, s1 := s.g.conns[c].peh.value, Next(s, Call(t, c));
            && Enabled(s1, Run(t, true))
            && var s2 := Next(s1, Run(t, true));
               && Enabled(s2, Run(t, true))
               && Next(s2, Run(t, true)).threads[t]
                  == [if s.g.handles[h].state == Running then Inside(InEngine, h, OnCall(c)) else Leaving(Dec, h, OnCall(c))]
  {
    hide Idle, EffectOf, Dozing, DozingStop;
    var h, why, s1 := s.g.conns[c].peh.value, OnCall(c), Next(s, Call(t, c));
    assert s1.threads[t] == [Entering(Bump, h, why)];
    CallBumps(s.g, h, why);
    var s2 := Next(s1, Run(t, true));
    assert s2.threads[t] == [Entering(ReadState, h, why)];
    CallReads(s2.g, h, why);
  }

  lemma {:induction false} CallBumps(g: Globals, h: nat, why: Guard)
    requires h < |g.handles| && why.c < |g.conns| && !why.OnDelete?
    ensures EffectOf(g, Entering(Bump, h, why), true) == Then1(AddClients(g, h, 1), Entering(ReadState, h, why))
    ensures AddClients(g, h, 1).handles[h].state == g.handles[h].state
  {
  }

  lemma {:induction false} CallReads(g: Globals, h: nat, why: Guard)
    requires h < |g.handles| && why.c < |g.conns|
    ensures EffectOf(g, Entering(ReadState, h, why), true)
            == Then1(g, if g.handles[h].state == Running then Inside(InEngine, h, why) else Leaving(Dec, h, why))
  {
  }

  // ---------------------------------------------------------------- the shutdown thread

  function Held(g: Globals): Globals {
    g.(shutdownHeld := true)
  }

  lemma {:induction false} UnlocksShutdown(g: Globals, rest: seq<Instr>)
    ensures Leads(Solo(g, [UnlockShutdown] + rest, []), Solo(g.(shutdownHeld := false), rest, []))
  {
    hide Leads;
    Once(Solo(g, [UnlockShutdown] + rest, []), Solo(g.(shutdownHeld := false), rest, []));
  }

  lemma {:induction false} LocksBegin(g: Globals, h: nat)
    requires h < |g.handles| && !g.shutdownHeld
    ensures Leads(Solo(g, [Shutting(LockBegin, h)], []), Solo(Held(g), [Shutting(Begin, h)], []))
  {
    hide Leads;
    Once(Solo(g, [Shutting(LockBegin, h)], []), Solo(Held(g), [Shutting(Begin, h)], []));
  }

  lemma {:induction false} CountsBody(g: Globals, h: nat)
    requires h < |g.handles| && !g.inProgress
    ensures Leads(Solo(g, [Shutting(Begin, h)], []), Solo(g.(counter := g.counter + 1), [UnlockShutdown] + [Shutting(DestroyEngine, h)], []))
  {
    hide Leads;
    Once(Solo(g, [Shutting(Begin, h)], []), Solo(g.(counter := g.counter + 1), [UnlockShutdown] + [Shutting(DestroyEngine, h)], []));
  }

  /** Unless the proxy stops, the thread is counted and goes on to destroy the engine. */
  lemma {:induction false} BeginsShutdown(g: Globals, h: nat)
    requires h < |g.handles| && !g.shutdownHeld && !g.inProgress
    ensures Leads(Solo(g, [Shutting(LockBegin, h)], []), Solo(g.(counter := g.counter + 1), [Shutting(DestroyEngine, h)], []))
  {
    hide Leads, CanGo, Go;
    var l, rest := Held(g), [Shutting(DestroyEngine, h)];
    var a, b := Solo(g, [Shutting(LockBegin, h)], []), Solo(l, [Shutting(Begin, h)], []);
    var c, z := Solo(l.(counter := g.counter + 1), [UnlockShutdown] + rest, []), Solo(g.(counter := g.counter + 1), rest, []);
    LocksBegin(g, h);
    CountsBody(l, h);
    UnlocksShutdown(c.g, rest);
    assert c.g.(shutdownHeld := false) == z.g;
    Chain(a, b, c);
    Chain(a, c, z);
  }

  lemma {:induction false} Destroys(g: Globals, h: nat)
    requires h < |g.handles|
    ensures Leads(Solo(g, [Shutting(DestroyEngine, h)], []), Solo(g, [Shutting(LockUnlink, h)], []))
  {
    hide Leads;
    Once(Solo(g, [Shutting(DestroyEngine, h)], []), Solo(g, [Shutting(LockUnlink, h)], []));
  }

  lemma {:induction false} LocksUnlink(g: Globals, h: nat)
    requires h < |g.handles| && !g.enginesHeld
    ensures Leads(Solo(g, [Shutting(LockUnlink, h)], []), Solo(Locked(g), [Shutting(Unlink, h)], []))
  {
    hide Leads;
    Once(Solo(g, [Shutting(LockUnlink, h)], []), Solo(Locked(g), [Shutting(Unlink, h)], []));
  }

  lemma {:induction false} Unlinks(g: Globals, h: nat)
    requires h < |g.handles|
    ensures Leads(Solo(g, [Shutting(Unlink, h)], []), Solo(Unlinked(g, g.handles[h].name), [Rel(h)] + [Shutting(ClearState, h)], []))
  {
    hide Leads;
    Once(Solo(g, [Shutting(Unlink, h)], []), Solo(Unlinked(g, g.handles[h].name), [Rel(h)] + [Shutting(ClearState, h)], []));
  }

  lemma {:induction false} TakesOut(g: Globals, h: nat)
    requires h < |g.handles| && !g.enginesHeld
    ensures Leads(Solo(g, [Shutting(DestroyEngine, h)], []),
                  Solo(Unlinked(Locked(g), g.handles[h].name), [Rel(h)] + [Shutting(ClearState, h)], []))
  {
    hide Leads, CanGo, Go;
    var a, b, c := Solo(g, [Shutting(DestroyEngine, h)], []), Solo(g, [Shutting(LockUnlink, h)], []), Solo(Locked(g), [Shutting(Unlink, h)], []);
    Destroys(g, h);
    LocksUnlink(g, h);
    Unlinks(Locked(g), h);
    Chain(a, b, c);
    Chain(a, c, Solo(Unlinked(Locked(g), g.handles[h].name), [Rel(h)] + [Shutting(ClearState, h)], []));
  }

  lemma {:induction false} Drops(g: Globals, h: nat, rest: seq<Instr>)
    requires h < |g.handles|
    ensures Leads(Solo(g, [Rel(h)] + rest, []),
                  Solo(AddRefs(g, h, -1), (if g.handles[h].refcount == 1 then [LockBroadcast] else []) + rest, []))
  {
    hide Leads;
    Once(Solo(g, [Rel(h)] + rest, []),
         Solo(AddRefs(g, h, -1), (if g.handles[h].refcount == 1 then [LockBroadcast] else []) + rest, []));
  }

  lemma {:induction false} LocksBroadcast(g: Globals, rest: seq<Instr>)
    requires !g.shutdownHeld
    ensures Leads(Solo(g, [LockBroadcast] + rest, []), Solo(Held(g), [Broadcast] + rest, []))
  {
    hide Leads;
    Once(Solo(g, [LockBroadcast] + rest, []), Solo(Held(g), [Broadcast] + rest, []));
  }

  lemma {:induction false} WakesAll(g: Globals, rest: seq<Instr>)
    ensures Leads(Solo(g, [Broadcast] + rest, []), Solo(g, [UnlockShutdown] + rest, []))
  {
    hide Leads;
    Once(Solo(g, [Broadcast] + rest, []), Solo(g, [UnlockShutdown] + rest, []));
  }

  lemma {:induction false} Broadcasts(g: Globals, rest: seq<Instr>)
    requires !g.shutdownHeld
    ensures Leads(Solo(g, [LockBroadcast] + rest, []), Solo(g, rest, []))
  {
    hide Leads, CanGo, Go;
    LocksBroadcast(g, rest);
    WakesAll(Held(g), rest);
    UnlocksShutdown(Held(g), rest);
    assert Held(g).(shutdownHeld := false) == g;
    Chain(Solo(g, [LockBroadcast] + rest, []), Solo(Held(g), [Broadcast] + rest, []), Solo(Held(g), [UnlockShutdown] + rest, []));
    Chain(Solo(g, [LockBroadcast] + rest, []), Solo(Held(g), [UnlockShutdown] + rest, []), Solo(g, rest, []));
  }

  lemma {:induction false} Clears(g: Globals, h: nat)
    requires h < |g.handles|
    ensures Leads(Solo(g, [Shutting(ClearState, h)], []), Solo(SetState(g, h, Null).(enginesHeld := false), [Awaiting(LockCheck, h)], []))
  {
    hide Leads;
    var a, b := Solo(g, [Shutting(ClearState, h)], []), Solo(SetState(g, h, Null), [UnlockEngines] + [Awaiting(LockCheck, h)], []);
    Once(a, b);
    Unlocks(b.g, [Awaiting(LockCheck, h)], []);
    Chain(a, b, Solo(SetState(g, h, Null).(enginesHeld := false), [Awaiting(LockCheck, h)], []));
  }

  lemma {:induction false} LocksCheck(g: Globals, h: nat)
    requires h < |g.handles| && !g.shutdownHeld
    ensures Leads(Solo(g, [Awaiting(LockCheck, h)], []), Solo(Held(g), [Awaiting(CheckRefs, h)], []))
  {
    hide Leads;
    Once(Solo(g, [Awaiting(LockCheck, h)], []), Solo(Held(g), [Awaiting(CheckRefs, h)], []));
  }

  lemma {:induction false} SeesRefs(g: Globals, h: nat)
    requires h < |g.handles|
    ensures Leads(Solo(g, [Awaiting(CheckRefs, h)], []),
                  Solo(g, if g.handles[h].refcount > 0 && !g.inProgress then [Awaiting(WaitRefs, h)]
                          else [UnlockShutdown] + [Awaiting(FreeHandle, h)], []))
  {
    hide Leads;
    Once(Solo(g, [Awaiting(CheckRefs, h)], []),
         Solo(g, if g.handles[h].refcount > 0 && !g.inProgress then [Awaiting(WaitRefs, h)]
                 else [UnlockShutdown] + [Awaiting(FreeHandle, h)], []));
  }

  lemma {:induction false} FallsAsleep(g: Globals, h: nat)
    requires h < |g.handles|
    ensures Leads(Solo(g, [Awaiting(WaitRefs, h)], []), Solo(g.(shutdownHeld := false), [Awaiting(Sleep, h)], []))
  {
    hide Leads;
    Once(Solo(g, [Awaiting(WaitRefs, h)], []), Solo(g.(shutdownHeld := false), [Awaiting(Sleep, h)], []));
  }

  /** With no reference left the handle is freed; with one left, and no stop of the proxy, the thread goes to sleep. */
  lemma {:induction false} Checks(g: Globals, h: nat)
    requires h < |g.handles| && !g.shutdownHeld && g.handles[h].refcount >= 0
    ensures Leads(Solo(g, [Awaiting(LockCheck, h)], []),
                  Solo(g, [Awaiting(if g.handles[h].refcount == 0 || g.inProgress then FreeHandle else Sleep, h)], []))
  {
    hide Leads, CanGo, Go;
    var l := Held(g);
    assert l.(shutdownHeld := false) == g;
    var a, b := Solo(g, [Awaiting(LockCheck, h)], []), Solo(l, [Awaiting(CheckRefs, h)], []);
    LocksCheck(g, h);
    SeesRefs(l, h);
    if g.handles[h].refcount == 0 || g.inProgress {
      var c, z := Solo(l, [UnlockShutdown] + [Awaiting(FreeHandle, h)], []), Solo(g, [Awaiting(FreeHandle, h)], []);
      UnlocksShutdown(l, z.todo);
      Chain(a, b, c);
      Chain(a, c, z);
    } else {
      var c, z := Solo(l, [Awaiting(WaitRefs, h)], []), Solo(g, [Awaiting(Sleep, h)], []);
      FallsAsleep(l, h);
      Chain(a, b, c);
      Chain(a, c, z);
    }
  }

  lemma {:induction false} MarksFreed(g: Globals, h: nat)
    requires h < |g.handles|
    ensures Leads(Solo(g, [Awaiting(FreeHandle, h)], []), Solo(SetHandle(g, h, g.handles[h].(freed := true)), [Finishing(LockEnd)], []))
  {
    hide Leads;
    Once(Solo(g, [Awaiting(FreeHandle, h)], []), Solo(SetHandle(g, h, g.handles[h].(freed := true)), [Finishing(LockEnd)], []));
  }

  lemma {:induction false} LocksEnd(g: Globals)
    requires !g.shutdownHeld
    ensures Leads(Solo(g, [Finishing(LockEnd)], []), Solo(Held(g), [Finishing(End)], []))
  {
    hide Leads;
    Once(Solo(g, [Finishing(LockEnd)], []), Solo(Held(g), [Finishing(End)], []));
  }

  lemma {:induction false} Uncounts(g: Globals)
    requires !g.inProgress
    ensures Leads(Solo(g, [Finishing(End)], []), Solo(g.(counter := g.counter - 1), [UnlockShutdown] + [], []))
  {
    hide Leads;
    Once(Solo(g, [Finishing(End)], []), Solo(g.(counter := g.counter - 1), [UnlockShutdown] + [], []));
  }

  lemma {:induction false} FreesHandle(g: Globals, h: nat)
    requires h < |g.handles| && !g.shutdownHeld && !g.inProgress
    ensures Leads(Solo(g, [Awaiting(FreeHandle, h)], []),
                  Solo(SetHandle(g, h, g.handles[h].(freed := true)).(counter := g.counter - 1), [], []))
  {
    hide Leads, SetHandle, CanGo, Go;
    var f := SetHandle(g, h, g.handles[h].(freed := true));
    var a, b := Solo(g, [Awaiting(FreeHandle, h)], []), Solo(f, [Finishing(LockEnd)], []);
    var c, d := Solo(Held(f), [Finishing(End)], []), Solo(Held(f).(counter := g.counter - 1), [UnlockShutdown] + [], []);
    var z := Solo(f.(counter := g.counter - 1), [], []);
    MarksFreed(g, h);
    LocksEnd(f);
    Uncounts(Held(f));
    UnlocksShutdown(d.g, []);
    assert d.g.(shutdownHeld := false) == z.g;
    Chain(a, b, c);
    Chain(a, c, d);
    Chain(a, d, z);
  }

  /** The table has no entry, the handle is dead, and it is freed if nothing but the table referred to it. */
  ghost predicate ShutDown(g: Globals, g': Globals, h: nat) {
    && h < |g.handles| == |g'.handles| && g'.table == g.table - {g.handles[h].name}
    && g'.handles[h] == g.handles[h].(state := Null, refcount := g.handles[h].refcount - 1, freed := g.handles[h].refcount == 1)
    && (forall k :: 0 <= k < |g.handles| && k != h ==> g'.handles[k] == g.handles[k])
    && g'.conns == g.conns && !g'.enginesHeld && !g'.shutdownHeld
    && g'.counter == g.counter + if g.handles[h].refcount == 1 then 0 else 1
  }

  /** The state in which the shutdown thread looks at the references. */
  function Cleared(g: Globals, h: nat): Globals
    requires h < |g.handles|
  {
    SetHandle(Unlinked(g, g.handles[h].name), h, g.handles[h].(state := Null, refcount := g.handles[h].refcount - 1)).(counter := g.counter + 1)
  }

  lemma {:induction false} ClearsAll(g: Globals, h: nat)
    requires h < |g.handles| && !g.enginesHeld && !g.shutdownHeld && !g.inProgress
    ensures Leads(Solo(g, [Shutting(LockBegin, h)], []), Solo(Cleared(g, h), [Awaiting(LockCheck, h)], []))
  {
    hide Leads, CanGo, Go;
    var g1 := g.(counter := g.counter + 1);
    var g2 := Unlinked(Locked(g1), g.handles[h].name);
    var g3, rest := AddRefs(g2, h, -1), [Shutting(ClearState, h)];
    var a, b := Solo(g, [Shutting(LockBegin, h)], []), Solo(g1, [Shutting(DestroyEngine, h)], []);
    var c, d := Solo(g2, [Rel(h)] + rest, []), Solo(g3, (if g2.handles[h].refcount == 1 then [LockBroadcast] else []) + rest, []);
    var e, z := Solo(g3, rest, []), Solo(Cleared(g, h), [Awaiting(LockCheck, h)], []);
    BeginsShutdown(g, h);
    TakesOut(g1, h);
    Drops(g2, h, rest);
    Clears(g3, h);
    assert SetState(g3, h, Null).(enginesHeld := false) == z.g;
    Chain(a, b, c);
    Chain(a, c, d);
    if g2.handles[h].refcount == 1 {
      Broadcasts(g3, rest);
      Chain(a, d, e);
    } else {
      assert d == e;
    }
    Chain(a, e, z);
  }

  lemma {:induction false} Shuts(g: Globals, h: nat) returns (z: Solo)
    requires h < |g.handles| && !g.enginesHeld && !g.shutdownHeld && !g.inProgress && g.handles[h].refcount >= 1 && !g.handles[h].freed
    ensures Leads(Solo(g, [Shutting(LockBegin, h)], []), z) && ShutDown(g, z.g, h) && z.started == []
    ensures z.todo == if g.handles[h].refcount == 1 then [] else [Awaiting(Sleep, h)]
  {
    hide Leads, CanGo, Go;
    var c := Cleared(g, h);
    var a, b := Solo(g, [Shutting(LockBegin, h)], []), Solo(c, [Awaiting(LockCheck, h)], []);
    ClearsAll(g, h);
    Checks(c, h);
    if g.handles[h].refcount == 1 {
      var d := Solo(c, [Awaiting(FreeHandle, h)], []);
      FreesHandle(c, h);
      z := Solo(SetHandle(c, h, c.handles[h].(freed := true)).(counter := c.counter - 1), [], []);
      Chain(a, b, d);
      Chain(a, d, z);
    } else {
      z := Solo(c, [Awaiting(Sleep, h)], []);
      Chain(a, b, z);
    }
  }

  /** A shutdown thread left alone takes its bucket out of the table and frees it, or sleeps until the references are gone. */
  lemma {:induction false} ShutdownAlone(s: State, t: nat, h: nat) returns (es: seq<Event>)
    requires Reachable(s) && t < |s.threads| && s.threads[t] == [Shutting(LockBegin, h)]
    requires !s.g.enginesHeld && !s.g.shutdownHeld && !s.g.inProgress
    ensures h < |s.g.handles| && AllBy(es, t) && IsRun(s, es) && ShutDown(s.g, StateAfter(s, es).g, h)
    ensures var s' := StateAfter(s, es);
            t < |s'.threads| && s'.threads[t] == if s.g.handles[h].refcount == 1 then [] else [Awaiting(Sleep, h)]
  {
    hide Inv, Reachable, Leads, IsRun, StateAfter, AllBy, ShutDown, Shows;
    var i := Shutting(LockBegin, h);
    assert s.threads[t][0] == i;
    assert Pending(s.threads, i);
    ReachableInv(s);
    Unfreed(s, h);
    var a := Solo(s.g, [i], []);
    var z := Shuts(s.g, h);
    assert Shows(s, t, a, |s.threads|) by { ShowsItself(s, t); }
    es := LeadsIsRun(s, t, a, |s.threads|, z);
    ShowsParts(StateAfter(s, es), t, z, |s.threads|);
  }

  lemma {:induction false} ShowsItself(s: State, t: nat)
    requires t < |s.threads|
    ensures Shows(s, t, Solo(s.g, s.threads[t], []), |s.threads|)
  {
  }

  lemma {:induction false} Unfreed(s: State, h: nat)
    requires Inv(s) && Pending(s.threads, Shutting(LockBegin, h))
    ensures h < |s.g.handles| && s.g.handles[h].refcount >= 1 && !s.g.handles[h].freed
  {
    hide Inv, Pending, Total, ConnTotal, InTable;
    PendingOk(s, Shutting(LockBegin, h));
    HandleParts(s, h);
    PendingCounts(s.threads, Shutting(LockBegin, h), Shutters(h));
  }
}
