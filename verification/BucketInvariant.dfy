/** What every step of the bucket protocol keeps. */
module BucketInvariant {
  import opened Options
  import opened BucketProtocol
  import opened BucketSums

  // ---------------------------------------------------------------- references held by connections

  /** One reference for the connected flag and one for each reservation. */
  function ConnRefs(c: Conn, h: nat): nat {
    if c.peh == Some(h) then One(c.connected) + c.reserved else 0
  }

  function ConnTotal(conns: seq<Conn>, h: nat): nat {
    if conns == [] then 0 else ConnRefs(conns[0], h) + ConnTotal(conns[1..], h)
  }

  lemma {:induction false} ConnTotalConcat(a: seq<Conn>, b: seq<Conn>, h: nat)
    ensures ConnTotal(a + b, h) == ConnTotal(a, h) + ConnTotal(b, h)
  {
    hide ConnRefs;
    if a == [] {
      assert a + b == b;
    } else {
      assert (a + b)[1..] == a[1..] + b;
      ConnTotalConcat(a[1..], b, h);
    }
  }

  lemma {:induction false} ConnTotalSplit(conns: seq<Conn>, c: nat, h: nat)
    requires c < |conns|
    ensures ConnTotal(conns, h) == ConnTotal(conns[..c], h) + ConnRefs(conns[c], h) + ConnTotal(conns[c + 1..], h)
  {
    hide ConnRefs;
    assert conns == conns[..c] + conns[c..];
    ConnTotalConcat(conns[..c], conns[c..], h);
    assert conns[c..][0] == conns[c] && conns[c..][1..] == conns[c + 1..];
  }

  lemma {:induction false} ConnTotalUpdate(conns: seq<Conn>, c: nat, x: Conn, h: nat)
    requires c < |conns|
    ensures ConnTotal(conns[c := x], h) == ConnTotal(conns, h) - ConnRefs(conns[c], h) + ConnRefs(x, h)
  {
    hide ConnRefs, ConnTotal;
    var r := conns[c := x];
    ConnTotalSplit(conns, c, h);
    ConnTotalSplit(r, c, h);
    assert r[..c] == conns[..c] && r[c + 1..] == conns[c + 1..];
  }

  lemma {:induction false} ConnTotalAtLeast(conns: seq<Conn>, c: nat, h: nat)
    requires c < |conns|
    ensures ConnTotal(conns, h) >= ConnRefs(conns[c], h)
  {
    hide ConnRefs, ConnTotal;
    ConnTotalSplit(conns, c, h);
  }

  // ---------------------------------------------------------------- the invariant

  predicate Down(st: BucketState) {
    st == Stopped || st == Null
  }

  /** The reference count is the table's reference, the connections' and those in flight. */
  ghost predicate RefsOk(g: Globals, threads: Threads, h: nat)
    requires h < |g.handles|
  {
    g.handles[h].refcount == One(InTable(g, h)) + ConnTotal(g.conns, h) + Total(threads, Refs(h))
  }

  ghost predicate ClientsOk(g: Globals, threads: Threads, h: nat)
    requires h < |g.handles|
  {
    g.handles[h].clients == Total(threads, Bumps(h))
  }

  ghost predicate LocksOk(g: Globals, threads: Threads) {
    && Total(threads, Engines) == One(g.enginesHeld)
    && Total(threads, Shutdown) == One(g.shutdownHeld)
    && g.counter == Total(threads, Bodies)
  }

  /** At most one operation runs on a connection. */
  ghost predicate PcsOk(threads: Threads) {
    forall c: nat :: Total(threads, Pcs(c)) <= 1
  }

  ghost predicate HandleOk(g: Globals, threads: Threads, h: nat)
    requires h < |g.handles|
  {
    var x := g.handles[h];
    && Total(threads, Shutters(h)) + One(x.freed) <= x.started
    && (x.state == Stopping ==> x.clients > 0 || Total(threads, Watchers(h)) > 0)
    && (Down(x.state) || Total(threads, Starters(h)) > 0 ==> Total(threads, Insiders(h)) == 0)
    && (x.state != Running && Total(threads, Writers(h)) == 0 ==> x.cookie.Some? && x.force.Some?)
  }

  predicate BareHandleOk(g: Globals, h: nat)
    requires h < |g.handles|
  {
    var x := g.handles[h];
    && (x.state == Running || x.state == Stopping ==> InTable(g, h))
    && x.started == One(Down(x.state))
    && (x.freed ==> !InTable(g, h) && (g.inProgress || x.refcount == 0))
  }

  predicate ConnOk(g: Globals, c: nat)
    requires c < |g.conns|
  {
    var x := g.conns[c];
    && (x.peh.Some? ==> x.peh.value < |g.handles|)
    && (x.reserved > 0 ==> x.peh.Some?)
  }

  ghost predicate GlobalOk(g: Globals) {
    && TableOk(g)
    && (forall h :: 0 <= h < |g.handles| ==> BareHandleOk(g, h))
    && (forall c :: 0 <= c < |g.conns| ==> ConnOk(g, c))
    && FinalOk(g)
  }

  ghost predicate TableOk(g: Globals) {
    forall n :: n in g.table ==> g.table[n] < |g.handles| && g.handles[g.table[n]].name == n
  }

  /** Once the proxy has waited for the shutdown threads, none is running. */
  predicate FinalOk(g: Globals) {
    g.finalized ==> g.inProgress && g.counter == 0
  }

  /** A call or a disconnect works on the connection's handle, a delete on the one it looked up. */
  predicate GuardOk(g: Globals, h: nat, why: Guard, ofDelete: bool)
    requires why.c < |g.conns|
  {
    if why.OnDelete? then ofDelete else !ofDelete && g.conns[why.c].peh == Some(h)
  }

  predicate InOk(g: Globals, at: InStep, h: nat)
    requires h < |g.handles|
  {
    && (at == WriteCookie || at == WriteForce ==> g.handles[h].state != Running)
    && (at == WriteForce ==> g.handles[h].cookie.Some?)
  }

  predicate AwaitOk(g: Globals, at: AwaitStep, h: nat)
    requires h < |g.handles|
  {
    var x := g.handles[h];
    && !InTable(g, h) && x.state == Null
    && (at == FreeHandle ==> g.inProgress || x.refcount == 0)
    && (at == WaitRefs ==> !g.inProgress)
  }

  /** What holds whenever an access is pending. */
  predicate InstrOk(g: Globals, i: Instr) {
    && Ranged(g, i)
    && (ConnOf(i).Some? ==> g.conns[ConnOf(i).value].connected)
    && match i
       case Entering(at, h, why) => GuardOk(g, h, why, if at == Bump then why.OnDelete? else at == CasStopping)
       case Inside(at, h, why) => GuardOk(g, h, why, at == WriteCookie || at == WriteForce) && InOk(g, at, h)
       case Leaving(at, h, why) =>
         && GuardOk(g, h, why, why.OnDelete?)
         && (at == Dec || at == Recheck || at == SeeZero || at == CasStopped ==> g.handles[h].state != Running)
       case Settling(at, h, c) =>
         && (at != DropOwn ==> g.conns[c].peh == Some(h))
         && (at == Detach ==> g.conns[c].reserved == 0)
       case Retaining(_, h, _) => InTable(g, h)
       case Binding(at, _, c) => at != BindState ==> g.conns[c].reserved == 0
       case Shutting(at, h) => g.handles[h].state == Stopped && InTable(g, h) == (at != ClearState)
       case Awaiting(at, h) => AwaitOk(g, at, h)
       case Finishing(at) => at == Signal ==> g.inProgress
       case StopAll(at) => at != LockStop && at != SetInProgress ==> g.inProgress
       case _ => true
  }

  ghost predicate InstrsOk(g: Globals, threads: Threads) {
    forall i :: Pending(threads, i) ==> InstrOk(g, i)
  }

  /** Whoever sleeps and was not woken has nothing to wake up for, or a wake-up is on its way. */
  ghost predicate WaitsOk(s: State) {
    && (forall h: nat :: Pending(s.threads, Awaiting(WaitRefs, h)) && ZeroRefs(s.g, h) ==> Total(s.threads, Broadcasts) > 0)
    && (forall t :: t in s.dozing ==> DozerOk(s, t))
    && (forall t :: t in s.dozingStop ==> StopDozerOk(s, t))
  }

  predicate ZeroRefs(g: Globals, h: nat) {
    h < |g.handles| && g.handles[h].refcount == 0
  }

  /** A shutdown thread asleep: if its references are gone or the proxy stops, a broadcast is pending. */
  predicate DozerOk(s: State, t: nat) {
    && t < |s.threads| && s.threads[t] != [] && s.threads[t][0].Awaiting? && s.threads[t][0].await == Sleep
    && (ZeroRefs(s.g, s.threads[t][0].h) || s.g.inProgress ==> Total(s.threads, Broadcasts) > 0)
  }

  /** The stopping thread asleep: if no shutdown runs any more, a signal is pending. */
  predicate StopDozerOk(s: State, t: nat) {
    && t < |s.threads| && s.threads[t] != [] && s.threads[t][0] == StopAll(SleepStop)
    && (s.g.counter == 0 ==> Total(s.threads, Signals) > 0)
  }

  ghost predicate Inv(s: State) {
    && GlobalOk(s.g)
    && InstrsOk(s.g, s.threads)
    && LocksOk(s.g, s.threads)
    && PcsOk(s.threads)
    && (forall h :: 0 <= h < |s.g.handles| ==>
          RefsOk(s.g, s.threads, h) && ClientsOk(s.g, s.threads, h) && HandleOk(s.g, s.threads, h))
    && WaitsOk(s)
  }
}
