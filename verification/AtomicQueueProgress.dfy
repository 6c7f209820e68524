/** A call that the others leave alone comes to its end, from any state. */
module AtomicQueueProgress {
  import opened AtomicQueueProtocol
  import opened AtomicQueueInvariant
  import opened AtomicQueueSteps
  import opened AtomicQueueTheorems
  import opened AtomicQueueDrain

  // ---------------------------------------------------------------- how far a call is from its end

  function Phase(th: Thread): nat {
    if Initializing(th.pc) then 4
    else if Stealing(th.pc) then 3
    else if Filling(th.pc) || th.pc == Loading || (th.pc == Draining && !th.loaded) then 2
    else if Collecting(th.pc) then 1
    else 0
  }

  function SlotsLeft(th: Thread): nat {
    if Phase(th) == 1 && th.next <= th.limit then th.limit - th.next else 0
  }

  /** A comparison that is going to fail costs one more reading. */
  function Near(g: Shared, th: Thread): nat {
    match th.pc
    case Allocating => 3
    case Indexing => 2
    case Installing => 1
    case Linking => 0
    case Reading => 1
    case Swapping => if Read(g, th.index) == th.seen then 0 else 2
    case Putting => 2
    case Counting => 1
    case Announcing => |th.todo| + 2
    case Moving => |th.todo| + 1
    case Draining => 4 + |At(g, th.held)|
    case Loading => 1
    case Peeking => 2
    case Trading => if Read(g, th.next) == th.seen then 1 else 3
    case ReadingBack => 3
    case Returning => 2
    case Subtracting => 1
    case Idle => 0
  }

  predicate Closer(g': Shared, th': Thread, g: Shared, th: Thread) {
    || Phase(th') < Phase(th)
    || (Phase(th') == Phase(th) && SlotsLeft(th') < SlotsLeft(th))
    || (Phase(th') == Phase(th) && SlotsLeft(th') == SlotsLeft(th) && Near(g', th') < Near(g, th))
  }

  lemma {:induction false} CollectsCloser(s: State, t: nat)
    requires Inv(s) && t < |s.threads| && Collecting(s.threads[t].pc)
    ensures var r := Act(s.g, t, s.threads[t]); Closer(r.g, r.th, s.g, s.threads[t])
  {
    hide Inv, Exchange, Read, At, TakeFront;
    var g, th := s.g, s.threads[t];
    Parts(s, t);
    if th.pc == Draining && At(g, th.held) != [] {
      TakeFrontShorter(g, th.held) by { NeverEmptyHanded(s, t); }
    }
  }

  lemma {:induction false} NeverEmptyHanded(s: State, t: nat)
    requires Inv(s) && t < |s.threads| && Collecting(s.threads[t].pc)
    ensures s.threads[t].held.To? && s.threads[t].held.id < |s.g.queues|
  {
    hide Inv;
    Parts(s, t);
  }

  lemma {:induction false} TakeFrontShorter(g: Shared, p: Ptr)
    requires p.To? && p.id < |g.queues| && At(g, p) != []
    ensures |At(TakeFront(g, p), p)| == |At(g, p)| - 1
  {
  }

  lemma {:induction false} GivesCloser(s: State, t: nat)
    requires Inv(s) && t < |s.threads| && Giving(s.threads[t].pc)
    ensures var r := Act(s.g, t, s.threads[t]); Closer(r.g, r.th, s.g, s.threads[t])
  {
    hide Inv, Exchange, At;
    Parts(s, t);
  }

  /** Each step of a call brings it closer to its end, as long as no other thread steps in between. */
  lemma {:induction false} Progress(s: State, t: nat)
    requires Inv(s) && t < |s.threads| && s.threads[t].pc != Idle
    ensures var r := Act(s.g, t, s.threads[t]); Closer(r.g, r.th, s.g, s.threads[t])
  {
    hide Inv, Exchange, Append, At, Closer;
    var g, th := s.g, s.threads[t];
    if Collecting(th.pc) {
      CollectsCloser(s, t);
    } else if Giving(th.pc) {
      GivesCloser(s, t);
    } else {
      FillsCloser(g, t, th);
    }
  }

  lemma {:induction false} FillsCloser(g: Shared, t: nat, th: Thread)
    requires Initializing(th.pc) || Stealing(th.pc) || Filling(th.pc)
    ensures var r := Act(g, t, th); Closer(r.g, r.th, g, th)
  {
    hide Exchange, Append, At, Store, Assign;
  }

  /** Whatever the other threads are in the middle of, a call that runs alone finishes. */
  lemma {:induction false} RunsToItsEnd(s: State, t: nat) returns (es: seq<Event>)
    requires Inv(s) && t < |s.threads|
    ensures IsRun(s, es) && AllBy(es, t) && StateAfter(s, es).threads[t].pc == Idle
    decreases Phase(s.threads[t]), SlotsLeft(s.threads[t]), Near(s.g, s.threads[t])
  {
    hide Inv, Act, Phase, SlotsLeft, Near;
    es := [];
    if s.threads[t].pc != Idle {
      Progress(s, t);
      NextKeepsInv(s, Run(t));
      RunNext(s, t);
      var rest := RunsToItsEnd(Next(s, Run(t)), t);
      es := [Run(t)] + rest;
      assert es[0] == Run(t) && es[1..] == rest;
    }
  }

  /** In every state any interleaving reaches, a call that the others leave alone comes to its end. */
  lemma {:induction false} CallsFinish(n: nat, s: State, t: nat) returns (es: seq<Event>)
    requires n <= MAX_THREADS && Reachable(n, s) && t < n && |s.threads| == n
    ensures IsRun(s, es) && AllBy(es, t) && StateAfter(s, es).threads[t].pc == Idle
  {
    hide Inv, Reachable, IsRun, StateAfter, AllBy;
    ReachableInv(n, s);
    es := RunsToItsEnd(s, t);
  }
}
