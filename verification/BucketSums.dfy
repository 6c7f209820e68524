/** Counting the pending accesses of all threads by kind. */
module BucketSums {
  import opened Options
  import opened BucketProtocol

  /** A kind of pending access or duty. */
  datatype Kind =
    | Refs(of: nat)       // references to a handle held by an operation in flight
    | Bumps(of: nat)      // clients counted in a handle
    | Insiders(of: nat)   // inside the engine, or filling in who asked for the deletion, and not yet out
    | Writers(of: nat)    // filling in who asked for the deletion
    | Watchers(of: nat)   // between giving back the last client count and starting the shutdown
    | Starters(of: nat)   // about to start the shutdown
    | Shutters(of: nat)   // the shutdown thread of a handle that is not freed yet
    | Pcs(of: nat)        // the operation running on a connection
    | Engines             // holds the engines lock
    | Shutdown            // holds the shutdown mutex
    | Bodies              // counted as a running shutdown
    | Broadcasts          // a broadcast to the shutdown threads is pending
    | Signals             // a signal to the stopping thread is pending

  function One(b: bool): nat {
    if b then 1 else 0
  }

  function RefsIn(i: Instr, h: nat): nat {
    match i
    case Entering(_, x, g) => One(x == h && g.OnDelete?)
    case Inside(at, x, g) => One(x == h && (g.OnDelete? || at == ReserveCount))
    case Leaving(_, x, g) => One(x == h && g.OnDelete?)
    case Settling(at, x, _) => One(x == h && at == DropOwn)
    case Binding(at, x, _) => if x != h then 0 else if at == BindWrite then 2 else 1
    case Rel(x) => One(x == h)
    case _ => 0
  }

  predicate IsBump(i: Instr, h: nat) {
    match i
    case Entering(at, x, _) => x == h && at != Bump
    case Inside(_, x, _) => x == h
    case Leaving(at, x, _) => x == h && (at == Release || at == Dec)
    case _ => false
  }

  predicate HoldsEngines(i: Instr) {
    match i
    case Finding(at, _, _) => at == Find
    case Retaining(_, _, _) => true
    case Making(at, _, _) => at == Insert
    case UnlockEngines => true
    case Shutting(at, _) => at == Unlink || at == ClearState
    case _ => false
  }

  predicate HoldsShutdown(i: Instr) {
    match i
    case Broadcast => true
    case UnlockShutdown => true
    case Shutting(at, _) => at == Begin
    case Awaiting(at, _) => at == CheckRefs || at == WaitRefs
    case Finishing(at) => at == End || at == Signal
    case StopAll(at) => at == SetInProgress || at == BroadcastAll || at == CheckCounter
    case _ => false
  }

  predicate InBody(i: Instr) {
    match i
    case Shutting(at, _) => at != LockBegin && at != Begin
    case Awaiting(_, _) => true
    case Finishing(at) => at != Signal
    case _ => false
  }

  /** The thread was given the handle and has not released it. */
  predicate IsInsider(i: Instr, h: nat) {
    (i.Inside? || (i.Leaving? && i.exit == Release)) && i.h == h
  }

  function Of(k: Kind, i: Instr): nat {
    match k
    case Refs(h) => RefsIn(i, h)
    case Bumps(h) => One(IsBump(i, h))
    case Insiders(h) => One(IsInsider(i, h))
    case Writers(h) => One(i.Inside? && i.h == h && (i.inside == WriteCookie || i.inside == WriteForce))
    case Watchers(h) => One(i.Leaving? && i.h == h && i.exit != Release && i.exit != Dec && i.exit != Gone)
    case Starters(h) => One(i.Leaving? && i.h == h && i.exit == CasStopped)
    case Shutters(h) => One((i.Shutting? || i.Awaiting?) && i.h == h)
    case Pcs(c) => One(ConnOf(i) == Some(c))
    case Engines => One(HoldsEngines(i))
    case Shutdown => One(HoldsShutdown(i))
    case Bodies => One(InBody(i))
    case Broadcasts => One(i == LockBroadcast || i == Broadcast || i == StopAll(BroadcastAll))
    case Signals => One(i == Finishing(Signal))
  }

  function OfOption(k: Kind, o: Option<Instr>): nat {
    if o.Some? then Of(k, o.value) else 0
  }

  function Sum(todo: seq<Instr>, k: Kind): nat {
    if todo == [] then 0 else Of(k, todo[0]) + Sum(todo[1..], k)
  }

  function Total(threads: Threads, k: Kind): nat {
    if threads == [] then 0 else Sum(threads[0], k) + Total(threads[1..], k)
  }

  lemma {:induction false} SumConcat(a: seq<Instr>, b: seq<Instr>, k: Kind)
    ensures Sum(a + b, k) == Sum(a, k) + Sum(b, k)
  {
    hide Of;
    if a == [] {
      assert a + b == b;
    } else {
      assert (a + b)[1..] == a[1..] + b;
      SumConcat(a[1..], b, k);
    }
  }

  lemma {:induction false} SumListed(o: Option<Instr>, k: Kind)
    ensures Sum(Listed(o), k) == OfOption(k, o)
  {
    hide Of;
  }

  lemma {:induction false} TotalConcat(a: Threads, b: Threads, k: Kind)
    ensures Total(a + b, k) == Total(a, k) + Total(b, k)
  {
    hide Sum;
    if a == [] {
      assert a + b == b;
    } else {
      assert (a + b)[1..] == a[1..] + b;
      TotalConcat(a[1..], b, k);
    }
  }

  lemma {:induction false} TotalSplit(threads: Threads, t: nat, k: Kind)
    requires t < |threads|
    ensures Total(threads, k) == Total(threads[..t], k) + Sum(threads[t], k) + Total(threads[t + 1..], k)
  {
    hide Sum;
    assert threads == threads[..t] + threads[t..];
    TotalConcat(threads[..t], threads[t..], k);
    assert threads[t..][0] == threads[t] && threads[t..][1..] == threads[t + 1..];
  }

  lemma {:induction false} TotalUpdate(threads: Threads, t: nat, todo: seq<Instr>, k: Kind)
    requires t < |threads|
    ensures Total(threads[t := todo], k) == Total(threads, k) - Sum(threads[t], k) + Sum(todo, k)
  {
    hide Sum, Total;
    var r := threads[t := todo];
    TotalSplit(threads, t, k);
    TotalSplit(r, t, k);
    assert r[..t] == threads[..t] && r[t + 1..] == threads[t + 1..];
  }

  /** How a step changes a count: the access made goes, what it leaves behind comes. */
  lemma {:induction false} TotalAfter(s: State, t: nat, done: seq<Instr>, rest: seq<Instr>, e: Effect, k: Kind)
    requires t < |s.threads| && s.threads[t] == done + rest
    ensures Total(After(s, t, rest, e).threads, k)
            == Total(s.threads, k) - Sum(done, k) + OfOption(k, e.first) + OfOption(k, e.second) + OfOption(k, e.spawned)
  {
    hide Of, Total;
    var todo := Listed(e.first) + Listed(e.second) + rest;
    SumConcat(done, rest, k);
    SumConcat(Listed(e.first) + Listed(e.second), rest, k);
    SumConcat(Listed(e.first), Listed(e.second), k);
    SumListed(e.first, k);
    SumListed(e.second, k);
    TotalUpdate(s.threads, t, todo, k);
    var added: Threads := if e.spawned.Some? then [[e.spawned.value]] else [];
    TotalConcat(s.threads[t := todo], added, k);
    assert Total(added, k) == OfOption(k, e.spawned) by { TotalAdded(e.spawned, k); }
  }

  lemma {:induction false} TotalAdded(o: Option<Instr>, k: Kind)
    ensures Total(if o.Some? then [[o.value]] else [], k) == OfOption(k, o)
  {
    hide Of;
    if o.Some? {
      var added: Threads := [[o.value]];
      assert Sum(added[0], k) == Of(k, o.value);
      assert Total(added[1..], k) == 0;
      assert Total(added, k) == Of(k, o.value);
    }
  }

  // ---------------------------------------------------------------- counts and single accesses

  /** An access pending in some thread. */
  ghost predicate Pending(threads: Threads, i: Instr) {
    exists t, j :: 0 <= t < |threads| && 0 <= j < |threads[t]| && threads[t][j] == i
  }

  lemma {:induction false} SumAtLeast(todo: seq<Instr>, j: nat, k: Kind)
    requires j < |todo|
    ensures Sum(todo, k) >= Of(k, todo[j])
  {
    hide Of;
    if j > 0 {
      SumAtLeast(todo[1..], j - 1, k);
    }
  }

  lemma {:induction false} TotalAtLeast(threads: Threads, t: nat, j: nat, k: Kind)
    requires t < |threads| && j < |threads[t]|
    ensures Total(threads, k) >= Of(k, threads[t][j])
  {
    hide Of, Sum;
    TotalSplit(threads, t, k);
    SumAtLeast(threads[t], j, k);
  }

  lemma {:induction false} PendingCounts(threads: Threads, i: Instr, k: Kind)
    requires Pending(threads, i)
    ensures Total(threads, k) >= Of(k, i)
  {
    hide Of, Total;
    var t, j :| 0 <= t < |threads| && 0 <= j < |threads[t]| && threads[t][j] == i;
    TotalAtLeast(threads, t, j, k);
  }

  /** If a count is positive, some pending access is of that kind. */
  lemma {:induction false} SumPositive(todo: seq<Instr>, k: Kind) returns (j: nat)
    requires Sum(todo, k) > 0
    ensures j < |todo| && Of(k, todo[j]) > 0
  {
    hide Of;
    if Of(k, todo[0]) > 0 {
      j := 0;
    } else {
      var j' := SumPositive(todo[1..], k);
      j := j' + 1;
    }
  }

  lemma {:induction false} TotalPositive(threads: Threads, k: Kind) returns (i: Instr)
    requires Total(threads, k) > 0
    ensures Pending(threads, i) && Of(k, i) > 0
  {
    hide Of, Sum;
    if Sum(threads[0], k) > 0 {
      var j := SumPositive(threads[0], k);
      i := threads[0][j];
    } else {
      i := TotalPositive(threads[1..], k);
      var t, j :| 0 <= t < |threads[1..]| && 0 <= j < |threads[1..][t]| && threads[1..][t][j] == i;
      assert threads[t + 1][j] == i;
    }
  }

  /** A kind that is part of another is counted no more often. */
  lemma {:induction false} TotalMonotone(threads: Threads, a: Kind, b: Kind)
    requires forall i: Instr :: Of(a, i) <= Of(b, i)
    ensures Total(threads, a) <= Total(threads, b)
  {
    hide Of;
    if threads != [] {
      SumMonotone(threads[0], a, b);
      TotalMonotone(threads[1..], a, b);
    }
  }

  lemma {:induction false} SumMonotone(todo: seq<Instr>, a: Kind, b: Kind)
    requires forall i: Instr :: Of(a, i) <= Of(b, i)
    ensures Sum(todo, a) <= Sum(todo, b)
  {
    hide Of;
    if todo != [] {
      SumMonotone(todo[1..], a, b);
    }
  }

  /** Where the accesses of the next state come from. */
  lemma {:induction false} PendingAfter(s: State, t: nat, done: seq<Instr>, rest: seq<Instr>, e: Effect, i: Instr)
    requires t < |s.threads| && s.threads[t] == done + rest
    requires Pending(After(s, t, rest, e).threads, i)
    ensures Some(i) == e.first || Some(i) == e.second || Some(i) == e.spawned || Pending(Others(s, t, rest), i)
  {
    var next := After(s, t, rest, e).threads;
    var todo := Listed(e.first) + Listed(e.second) + rest;
    var u, j :| 0 <= u < |next| && 0 <= j < |next[u]| && next[u][j] == i;
    if u == t {
      assert next[u] == todo;
      var n := |Listed(e.first) + Listed(e.second)|;
      if j >= n {
        assert Others(s, t, rest)[t][j - n] == i;
      }
    } else if u < |s.threads| {
      assert next[u] == s.threads[u];
      assert Others(s, t, rest)[u][j] == i;
    }
  }

  /** The accesses that a step of thread `t` leaves alone. */
  function Others(s: State, t: nat, rest: seq<Instr>): Threads
    requires t < |s.threads|
  {
    s.threads[t := rest]
  }

  lemma {:induction false} OthersPending(s: State, t: nat, done: seq<Instr>, rest: seq<Instr>, i: Instr)
    requires t < |s.threads| && s.threads[t] == done + rest && Pending(Others(s, t, rest), i)
    ensures Pending(s.threads, i)
  {
    var o := Others(s, t, rest);
    var u, j :| 0 <= u < |o| && 0 <= j < |o[u]| && o[u][j] == i;
    if u == t {
      assert s.threads[t][|done| + j] == i;
    } else {
      assert s.threads[u][j] == i;
    }
  }

  /** What the others account for: the whole count less the accesses made. */
  lemma {:induction false} OthersTotal(s: State, t: nat, done: seq<Instr>, rest: seq<Instr>, k: Kind)
    requires t < |s.threads| && s.threads[t] == done + rest
    ensures Total(Others(s, t, rest), k) == Total(s.threads, k) - Sum(done, k)
  {
    hide Of, Total;
    SumConcat(done, rest, k);
    TotalUpdate(s.threads, t, rest, k);
  }
}
