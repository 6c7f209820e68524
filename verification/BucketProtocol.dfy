/**
 The life of a bucket: how connections enter and leave an engine, how a bucket is created,
 deleted and freed, and how the whole proxy is stopped.

 The protocol runs without a common lock, so it is a transition system: any number of threads,
 connections and bucket handles, and one step per access to a shared field. A thread is the
 list of the accesses it still has to make. An access that carries a duty (a client count to
 give back, a reference to drop) stands in that list until the duty is done.
 */
module BucketProtocol {
  import opened Options

  type Name = string

  datatype BucketState = Null | Running | Stopping | Stopped

  datatype Handle = Handle(
    name: Name,
    state: BucketState,
    clients: int,
    refcount: int,
    cookie: Option<nat>,
    force: Option<bool>,
    started: nat,          // shutdown threads started for this handle
    freed: bool)

  /** A connection: its handle, whether the connected flag is set, and the reservations on top of it. */
  datatype Conn = Conn(peh: Option<nat>, connected: bool, reserved: nat)

  /** Why a thread is inside the client count of a handle, and what keeps the handle alive meanwhile. */
  datatype Guard =
    | OnCall(c: nat)                    // an engine call: the connection's own reference
    | OnDisconnect(c: nat)              // the disconnect callback: the same
    | OnDelete(c: nat, forced: bool)    // a delete command: the reference taken by the lookup

  /** What a lookup in the bucket table is for. */
  datatype Purpose = ToDelete(c: nat, forced: bool) | ToSelect(c: nat, create: bool)

  datatype EnterStep = Bump | ReadState | CasStopping
  datatype InStep = InEngine | ReserveState | ReserveRef | ReserveCount | WriteCookie | WriteForce
  datatype ExitStep = Release | Dec | SeeStopping | Recheck | SeeZero | CasStopped | Gone
  datatype SettleStep = DropOwn | ReadReserved | Detach
  datatype FindStep = LockFind | Find | Missed
  datatype RetainStep = RetainState | RetainRef
  datatype MakeStep = LockInsert | Insert
  datatype BindStep = BindState | BindRef | BindWrite
  datatype ShutStep = LockBegin | Begin | DestroyEngine | LockUnlink | Unlink | ClearState
  datatype AwaitStep = LockCheck | CheckRefs | WaitRefs | Sleep | FreeHandle
  datatype FinishStep = LockEnd | End | Signal
  datatype StopStep = LockStop | SetInProgress | BroadcastAll | CheckCounter | SleepStop | LockCounter

  /** One access to shared state. */
  datatype Instr =
    | Entering(enter: EnterStep, h: nat, g: Guard)      // count a client, look at the state
    | Inside(inside: InStep, h: nat, g: Guard)          // in the engine, or filling in who deletes the bucket
    | Leaving(exit: ExitStep, h: nat, g: Guard)         // give the count back, perhaps start the shutdown
    | Settling(settle: SettleStep, h: nat, c: nat)      // what a delete or a disconnect does to its connection
    | Finding(find: FindStep, name: Name, p: Purpose)   // look a bucket up under the engines lock
    | Retaining(retain: RetainStep, h: nat, p: Purpose)
    | Making(make: MakeStep, name: Name, conn: Option<nat>)   // create a bucket under the engines lock
    | UnlockEngines
    | Binding(bind: BindStep, h: nat, c: nat)           // make a connection use a handle
    | Unbind(c: nat)
    | Rel(h: nat)                                       // drop a reference
    | LockBroadcast
    | Broadcast
    | UnlockShutdown
    | Shutting(shut: ShutStep, h: nat)                  // the shutdown thread of a bucket
    | Awaiting(await: AwaitStep, h: nat)                // it waits for the references to the handle
    | Finishing(finish: FinishStep)                     // its last steps
    | StopAll(stop: StopStep)                           // the stop of the whole proxy

  datatype Globals = Globals(
    handles: seq<Handle>,
    conns: seq<Conn>,
    table: map<Name, nat>,
    enginesHeld: bool,
    shutdownHeld: bool,
    inProgress: bool,
    counter: int,
    finalized: bool,
    stopCalled: bool)

  type Threads = seq<seq<Instr>>

  /** `dozing` and `dozingStop`: threads asleep on the reference and on the stop condition, not yet woken. */
  datatype State = State(g: Globals, threads: Threads, dozing: set<nat>, dozingStop: set<nat>)

  // ---------------------------------------------------------------- handles, connections, the table

  predicate InTable(g: Globals, h: nat) {
    h < |g.handles| && g.handles[h].name in g.table && g.table[g.handles[h].name] == h
  }

  function SetHandle(g: Globals, h: nat, x: Handle): (r: Globals)
    requires h < |g.handles|
    ensures r == g.(handles := r.handles) && |r.handles| == |g.handles|
  {
    g.(handles := g.handles[h := x])
  }

  function SetConn(g: Globals, c: nat, x: Conn): (r: Globals)
    requires c < |g.conns|
    ensures r == g.(conns := r.conns)
  {
    g.(conns := g.conns[c := x])
  }

  function AddClients(g: Globals, h: nat, d: int): (r: Globals)
    requires h < |g.handles|
    ensures r == g.(handles := r.handles) && |r.handles| == |g.handles|
  {
    SetHandle(g, h, g.handles[h].(clients := g.handles[h].clients + d))
  }

  function AddRefs(g: Globals, h: nat, d: int): (r: Globals)
    requires h < |g.handles|
    ensures r == g.(handles := r.handles) && |r.handles| == |g.handles|
  {
    SetHandle(g, h, g.handles[h].(refcount := g.handles[h].refcount + d))
  }

  function SetState(g: Globals, h: nat, st: BucketState): (r: Globals)
    requires h < |g.handles|
    ensures r == g.(handles := r.handles) && |r.handles| == |g.handles|
  {
    SetHandle(g, h, g.handles[h].(state := st))
  }

  /** The connection an operation runs on, if any. */
  function ConnOf(i: Instr): Option<nat> {
    match i
    case Entering(_, _, g) => Some(g.c)
    case Inside(_, _, g) => Some(g.c)
    case Leaving(_, _, g) => Some(g.c)
    case Settling(_, _, c) => Some(c)
    case Finding(_, _, p) => Some(p.c)
    case Retaining(_, _, p) => Some(p.c)
    case Making(_, _, conn) => conn
    case Binding(_, _, c) => Some(c)
    case Unbind(c) => Some(c)
    case _ => None
  }

  /** The handle an access touches, if any. */
  function HandleOf(i: Instr): Option<nat> {
    match i
    case Entering(_, h, _) => Some(h)
    case Inside(_, h, _) => Some(h)
    case Leaving(_, h, _) => Some(h)
    case Settling(_, h, _) => Some(h)
    case Retaining(_, h, _) => Some(h)
    case Binding(_, h, _) => Some(h)
    case Rel(h) => Some(h)
    case Shutting(_, h) => Some(h)
    case Awaiting(_, h) => Some(h)
    case _ => None
  }

  /** The handle and the connection of an access exist. */
  predicate Ranged(g: Globals, i: Instr) {
    && (HandleOf(i).Some? ==> HandleOf(i).value < |g.handles|)
    && (ConnOf(i).Some? ==> ConnOf(i).value < |g.conns|)
  }

  // ---------------------------------------------------------------- what one access does

  /** The new shared state, the accesses that take the place of the one made, and a thread started by it. */
  datatype Effect = Effect(g: Globals, first: Option<Instr>, second: Option<Instr>, spawned: Option<Instr>)

  function Then0(g: Globals): Effect {
    Effect(g, None, None, None)
  }

  function Then1(g: Globals, a: Instr): Effect {
    Effect(g, Some(a), None, None)
  }

  function Then2(g: Globals, a: Instr, b: Instr): Effect {
    Effect(g, Some(a), Some(b), None)
  }

  /** Count a client, then look whether the bucket runs; or mark the bucket for deletion. */
  function EnterEffect(g: Globals, at: EnterStep, h: nat, why: Guard): Effect
    requires h < |g.handles|
  {
    match at
    case Bump => Then1(AddClients(g, h, 1), Entering(if why.OnDelete? then CasStopping else ReadState, h, why))
    case ReadState =>
      Then1(g, if g.handles[h].state == Running then Inside(InEngine, h, why) else Leaving(Dec, h, why))
    case CasStopping =>
      if g.handles[h].state == Running then Then1(SetState(g, h, Stopping), Inside(WriteCookie, h, why))
      else Then1(g, Leaving(Dec, h, why))
  }

  /** Reserve the connection from inside the engine, or leave; or note who deletes the bucket and how. */
  function InEffect(g: Globals, at: InStep, h: nat, why: Guard, pick: bool): Effect
    requires h < |g.handles| && why.c < |g.conns|
  {
    var x := g.handles[h];
    match at
    case InEngine => Then1(g, if pick then Inside(ReserveState, h, why) else Leaving(Release, h, why))
    case ReserveState => Then1(g, Inside(if x.state == Running && pick then ReserveRef else InEngine, h, why))
    case ReserveRef => Then1(AddRefs(g, h, 1), Inside(ReserveCount, h, why))
    case ReserveCount =>
      Then1(SetConn(g, why.c, g.conns[why.c].(reserved := g.conns[why.c].reserved + 1)), Inside(InEngine, h, why))
    case WriteCookie => Then1(SetHandle(g, h, x.(cookie := Some(why.c))), Inside(WriteForce, h, why))
    case WriteForce =>
      Then1(SetHandle(g, h, x.(force := Some(if why.OnDelete? then why.forced else false))), Leaving(Release, h, why))
  }

  /**
   Give a client count back, after using the handle (`Release`) or after being turned away (`Dec`);
   the last one out of a stopping bucket starts its shutdown.
   */
  function ExitEffect(g: Globals, at: ExitStep, h: nat, why: Guard): Effect
    requires h < |g.handles|
  {
    var x := g.handles[h];
    match at
    case Release => Then1(AddClients(g, h, -1), Leaving(if x.clients - 1 == 0 then SeeStopping else Gone, h, why))
    case Dec => Then1(AddClients(g, h, -1), Leaving(if x.clients - 1 == 0 then SeeStopping else Gone, h, why))
    case SeeStopping => Then1(g, Leaving(if x.state == Stopping then Recheck else Gone, h, why))
    case Recheck => Then1(g, Leaving(if x.state == Stopping then SeeZero else Gone, h, why))
    case SeeZero => Then1(g, Leaving(if x.clients == 0 then CasStopped else Gone, h, why))
    case CasStopped =>
      if x.state == Stopping then
        Effect(SetHandle(g, h, x.(state := Stopped, started := x.started + 1)),
               Some(Leaving(Gone, h, why)), None, Some(Shutting(LockBegin, h)))
      else Then1(g, Leaving(Gone, h, why))
    case Gone =>
      if why.OnCall? then Then0(g) else Then1(g, Settling(if why.OnDisconnect? then ReadReserved else DropOwn, h, why.c))
  }

  /** A delete unbinds its own connection from the bucket; a disconnect gives up the connection. */
  function SettleEffect(g: Globals, at: SettleStep, h: nat, c: nat): Effect
    requires h < |g.handles| && c < |g.conns|
  {
    match at
    case DropOwn =>
      if g.conns[c].peh == Some(h) then Then2(SetConn(g, c, g.conns[c].(peh := None)), Rel(h), Rel(h))
      else Then1(g, Rel(h))
    case ReadReserved => if g.conns[c].reserved != 0 then Then0(g) else Then1(g, Settling(Detach, h, c))
    case Detach => Then1(SetConn(g, c, g.conns[c].(connected := false)), Rel(h))
  }

  function FindEffect(g: Globals, at: FindStep, name: Name, p: Purpose): Effect {
    match at
    case LockFind => Then1(g.(enginesHeld := true), Finding(Find, name, p))
    case Find =>
      if name in g.table then Then1(g, Retaining(RetainState, g.table[name], p))
      else Then2(g, UnlockEngines, Finding(Missed, name, p))
    case Missed =>
      if p.ToDelete? then Then0(g) else Then1(g, if p.create then Making(LockInsert, name, Some(p.c)) else Unbind(p.c))
  }

  function RetainEffect(g: Globals, at: RetainStep, h: nat, p: Purpose): Effect
    requires h < |g.handles|
  {
    match at
    case RetainState =>
      if g.handles[h].state == Running then Then1(g, Retaining(RetainRef, h, p))
      else Then2(g, UnlockEngines, Finding(Missed, g.handles[h].name, p))
    case RetainRef =>
      Then2(AddRefs(g, h, 1), UnlockEngines,
            if p.ToDelete? then Entering(Bump, h, OnDelete(p.c, p.forced)) else Binding(BindState, h, p.c))
  }

  function WithNewBucket(g: Globals, name: Name): (r: Globals)
    ensures r == g.(handles := r.handles, table := r.table)
  {
    g.(handles := g.handles + [Handle(name, Running, 0, 2, None, None, 0, false)], table := g.table[name := |g.handles|])
  }

  /** Create a bucket unless the name is taken or the engine cannot be set up. */
  function MakeEffect(g: Globals, at: MakeStep, name: Name, conn: Option<nat>, pick: bool): Effect {
    match at
    case LockInsert => Then1(g.(enginesHeld := true), Making(Insert, name, conn))
    case Insert =>
      if name in g.table || !pick then
        if conn.Some? then Then2(g, UnlockEngines, Unbind(conn.value)) else Then1(g, UnlockEngines)
      else if conn.Some? then Then2(WithNewBucket(g, name), UnlockEngines, Binding(BindState, |g.handles|, conn.value))
      else Then2(WithNewBucket(g, name), Rel(|g.handles|), UnlockEngines)
  }

  /** Bind a connection to a handle a reference is held on, and drop what it was bound to. */
  function BindEffect(g: Globals, at: BindStep, h: nat, c: nat): Effect
    requires h < |g.handles| && c < |g.conns|
  {
    match at
    case BindState =>
      if g.handles[h].state == Running then Then1(g, Binding(BindRef, h, c)) else Then2(g, Unbind(c), Rel(h))
    case BindRef => Then1(AddRefs(g, h, 1), Binding(BindWrite, h, c))
    case BindWrite =>
      var before := g.conns[c].peh;
      var g' := SetConn(g, c, g.conns[c].(peh := Some(h)));
      if before.Some? then Then2(g', Rel(before.value), Rel(h)) else Then1(g', Rel(h))
  }

  function UnbindEffect(g: Globals, c: nat): Effect
    requires c < |g.conns|
  {
    var before := g.conns[c].peh;
    var g' := SetConn(g, c, g.conns[c].(peh := None));
    if before.Some? then Then1(g', Rel(before.value)) else Then0(g')
  }

  function RelEffect(g: Globals, h: nat): Effect
    requires h < |g.handles|
  {
    var g' := AddRefs(g, h, -1);
    if g.handles[h].refcount - 1 == 0 then Then1(g', LockBroadcast) else Then0(g')
  }

  /** The shutdown thread: destroy the engine and unlink the handle. */
  function ShutEffect(g: Globals, at: ShutStep, h: nat): Effect
    requires h < |g.handles|
  {
    match at
    case LockBegin => Then1(g.(shutdownHeld := true), Shutting(Begin, h))
    case Begin =>
      if g.inProgress then Then1(g, UnlockShutdown)
      else Then2(g.(counter := g.counter + 1), UnlockShutdown, Shutting(DestroyEngine, h))
    case DestroyEngine => Then1(g, Shutting(LockUnlink, h))
    case LockUnlink => Then1(g.(enginesHeld := true), Shutting(Unlink, h))
    case Unlink => Then2(Unlinked(g, g.handles[h].name), Rel(h), Shutting(ClearState, h))
    case ClearState => Then2(SetState(g, h, Null), UnlockEngines, Awaiting(LockCheck, h))
  }

  function Unlinked(g: Globals, name: Name): (r: Globals)
    ensures r == g.(table := r.table)
  {
    g.(table := g.table - {name})
  }

  /** Wait until the handle has no references, or the proxy stops, and free the handle. */
  function AwaitEffect(g: Globals, at: AwaitStep, h: nat): Effect
    requires h < |g.handles|
  {
    match at
    case LockCheck => Then1(g.(shutdownHeld := true), Awaiting(CheckRefs, h))
    case CheckRefs =>
      if g.handles[h].refcount > 0 && !g.inProgress then Then1(g, Awaiting(WaitRefs, h))
      else Then2(g, UnlockShutdown, Awaiting(FreeHandle, h))
    case WaitRefs => Then1(g.(shutdownHeld := false), Awaiting(Sleep, h))
    case Sleep => Then1(g, Awaiting(LockCheck, h))
    case FreeHandle => Then1(SetHandle(g, h, g.handles[h].(freed := true)), Finishing(LockEnd))
  }

  function FinishEffect(g: Globals, at: FinishStep): Effect {
    match at
    case LockEnd => Then1(g.(shutdownHeld := true), Finishing(End))
    case End =>
      Then1(g.(counter := g.counter - 1), if g.inProgress && g.counter - 1 == 0 then Finishing(Signal) else UnlockShutdown)
    case Signal => Then1(g, UnlockShutdown)
  }

  function StopEffect(g: Globals, at: StopStep): Effect {
    match at
    case LockStop => Then1(g.(shutdownHeld := true), StopAll(SetInProgress))
    case SetInProgress => Then1(g.(inProgress := true), StopAll(BroadcastAll))
    case BroadcastAll => Then1(g, StopAll(CheckCounter))
    case CheckCounter =>
      if g.counter > 0 then Then1(g.(shutdownHeld := false), StopAll(SleepStop))
      else Then1(g.(finalized := true), UnlockShutdown)
    case SleepStop => Then1(g, StopAll(LockCounter))
    case LockCounter => Then1(g.(shutdownHeld := true), StopAll(CheckCounter))
  }

  function EffectOf(g: Globals, i: Instr, pick: bool): Effect
    requires Ranged(g, i)
  {
    match i
    case Entering(at, h, why) => EnterEffect(g, at, h, why)
    case Inside(at, h, why) => InEffect(g, at, h, why, pick)
    case Leaving(at, h, why) => ExitEffect(g, at, h, why)
    case Settling(at, h, c) => SettleEffect(g, at, h, c)
    case Finding(at, name, p) => FindEffect(g, at, name, p)
    case Retaining(at, h, p) => RetainEffect(g, at, h, p)
    case Making(at, name, conn) => MakeEffect(g, at, name, conn, pick)
    case UnlockEngines => Then0(g.(enginesHeld := false))
    case Binding(at, h, c) => BindEffect(g, at, h, c)
    case Unbind(c) => UnbindEffect(g, c)
    case Rel(h) => RelEffect(g, h)
    case LockBroadcast => Then1(g.(shutdownHeld := true), Broadcast)
    case Broadcast => Then1(g, UnlockShutdown)
    case UnlockShutdown => Then0(g.(shutdownHeld := false))
    case Shutting(at, h) => ShutEffect(g, at, h)
    case Awaiting(at, h) => AwaitEffect(g, at, h)
    case Finishing(at) => FinishEffect(g, at)
    case StopAll(at) => StopEffect(g, at)
  }

  predicate TakesEnginesLock(i: Instr) {
    || (i.Finding? && i.find == LockFind)
    || (i.Making? && i.make == LockInsert)
    || (i.Shutting? && i.shut == LockUnlink)
  }

  predicate TakesShutdownLock(i: Instr) {
    || i.LockBroadcast?
    || (i.Shutting? && i.shut == LockBegin)
    || (i.Awaiting? && i.await == LockCheck)
    || (i.Finishing? && i.finish == LockEnd)
    || (i.StopAll? && (i.stop == LockStop || i.stop == LockCounter))
  }

  /** A connection with reservations must not change its bucket. */
  predicate ChangesBucket(g: Globals, i: Instr)
    requires Ranged(g, i)
  {
    || i.Unbind?
    || (i.Binding? && i.bind == BindState)
    || (i.Settling? && i.settle == DropOwn && g.conns[i.c].peh == Some(i.h))
  }

  predicate CanRun(g: Globals, i: Instr)
    requires Ranged(g, i)
  {
    && (TakesEnginesLock(i) ==> !g.enginesHeld)
    && (TakesShutdownLock(i) ==> !g.shutdownHeld)
    && (ChangesBucket(g, i) ==> g.conns[i.c].reserved == 0)
  }

  // ---------------------------------------------------------------- events

  datatype Event =
    | Run(t: nat, pick: bool)               // thread `t` makes its next access
    | NewThread
    | NewConn
    | Call(t: nat, c: nat)                  // an engine call on a connection
    | Delete(t: nat, c: nat, name: Name, forced: bool)
    | Select(t: nat, c: nat, name: Name, create: bool)   // also connect and authenticate
    | Create(t: nat, name: Name)
    | Disconnect(t: nat, c: nat)
    | ReleaseCookie(t: nat, c: nat)
    | Stop(t: nat)

  function Listed(o: Option<Instr>): seq<Instr> {
    if o.Some? then [o.value] else []
  }

  function After(s: State, t: nat, rest: seq<Instr>, e: Effect): State
    requires t < |s.threads|
  {
    s.(g := e.g,
       threads := s.threads[t := Listed(e.first) + Listed(e.second) + rest]
                  + (if e.spawned.Some? then [[e.spawned.value]] else []))
  }

  /** A broadcast wakes everyone asleep on the reference condition; waking up by itself is allowed too. */
  function Dozing(s: State, t: nat, i: Instr): set<nat> {
    if i == Broadcast || i == StopAll(BroadcastAll) then {}
    else if i.Awaiting? && i.await == WaitRefs then s.dozing + {t}
    else if i.Awaiting? && i.await == Sleep then s.dozing - {t}
    else s.dozing
  }

  function DozingStop(s: State, t: nat, i: Instr): set<nat> {
    if i == Finishing(Signal) then {}
    else if i == StopAll(CheckCounter) && s.g.counter > 0 then s.dozingStop + {t}
    else if i == StopAll(SleepStop) then s.dozingStop - {t}
    else s.dozingStop
  }

  /** No other operation runs on the connection. */
  predicate Idle(s: State, c: nat) {
    forall t, k | 0 <= t < |s.threads| && 0 <= k < |s.threads[t]| :: ConnOf(s.threads[t][k]) != Some(c)
  }

  predicate FreeThread(s: State, t: nat) {
    t < |s.threads| && s.threads[t] == []
  }

  predicate FreeConn(s: State, c: nat) {
    c < |s.g.conns| && s.g.conns[c].connected && Idle(s, c)
  }

  predicate Enabled(s: State, e: Event) {
    match e
    case Run(t, _) =>
      t < |s.threads| && s.threads[t] != [] && Ranged(s.g, s.threads[t][0]) && CanRun(s.g, s.threads[t][0])
    case NewThread => true
    case NewConn => true
    case Call(t, c) => FreeThread(s, t) && FreeConn(s, c) && s.g.conns[c].peh.Some?
    case Delete(t, c, _, _) => FreeThread(s, t) && FreeConn(s, c)
    case Select(t, c, _, _) => FreeThread(s, t) && FreeConn(s, c)
    case Create(t, _) => FreeThread(s, t)
    case Disconnect(t, c) => FreeThread(s, t) && FreeConn(s, c) && (s.g.conns[c].peh.None? ==> s.g.conns[c].reserved == 0)
    case ReleaseCookie(t, c) => FreeThread(s, t) && c < |s.g.conns| && s.g.conns[c].reserved > 0 && s.g.conns[c].peh.Some?
    case Stop(t) => FreeThread(s, t) && !s.g.stopCalled
  }

  /** What an operation starts with. */
  function StartEffect(s: State, e: Event): Effect
    requires Enabled(s, e) && !e.Run? && !e.NewThread? && !e.NewConn?
  {
    var g := s.g;
    match e
    case Call(_, c) => Then1(g, Entering(Bump, g.conns[c].peh.value, OnCall(c)))
    case Delete(_, c, name, forced) => Then1(g, Finding(LockFind, name, ToDelete(c, forced)))
    case Select(_, c, name, create) => Then1(g, Finding(LockFind, name, ToSelect(c, create)))
    case Create(_, name) => Then1(g, Making(LockInsert, name, None))
    case Disconnect(_, c) =>
      if g.conns[c].peh.Some? then Then1(g, Entering(Bump, g.conns[c].peh.value, OnDisconnect(c)))
      else Then0(SetConn(g, c, g.conns[c].(connected := false)))
    case ReleaseCookie(_, c) =>
      Then1(SetConn(g, c, g.conns[c].(reserved := g.conns[c].reserved - 1)), Rel(g.conns[c].peh.value))
    case Stop(_) => Then1(g.(stopCalled := true), StopAll(LockStop))
  }

  function Next(s: State, e: Event): State
    requires Enabled(s, e)
  {
    match e
    case Run(t, pick) =>
      var i := s.threads[t][0];
      After(s, t, s.threads[t][1..], EffectOf(s.g, i, pick)).(dozing := Dozing(s, t, i), dozingStop := DozingStop(s, t, i))
    case NewThread => s.(threads := s.threads + [[]])
    case NewConn => s.(g := s.g.(conns := s.g.conns + [Conn(None, true, 0)]))
    case _ => After(s, e.t, [], StartEffect(s, e))
  }

  function Initial(): State {
    State(Globals([], [], map[], false, false, false, 0, false, false), [], {}, {})
  }

  /** A run of enabled events. */
  predicate IsRun(s: State, es: seq<Event>)
    decreases |es|
  {
    es == [] || (Enabled(s, es[0]) && IsRun(Next(s, es[0]), es[1..]))
  }

  function StateAfter(s: State, es: seq<Event>): State
    requires IsRun(s, es)
    decreases |es|
  {
    if es == [] then s else StateAfter(Next(s, es[0]), es[1..])
  }
}
