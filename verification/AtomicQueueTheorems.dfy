/** What holds in every state that any interleaving of the swapping queue can reach. */
module AtomicQueueTheorems {
  import opened AtomicQueueProtocol
  import opened AtomicQueueInvariant
  import opened AtomicQueueSteps
  import opened AtomicQueueCalls

  // ---------------------------------------------------------------- reachable states

  lemma {:induction false} InitialInv(n: nat)
    requires n <= MAX_THREADS
    ensures Inv(Initial(n))
  {
    hide Sum;
    var s := Initial(n);
    SumZero(Visible(s.g));
    SumZero(Weights(s.g, s.threads));
    SumZero(Drawn(s.threads));
    SumZero(Dues(s.threads));
  }

  lemma {:induction false} RunsKeepInv(s: State, es: seq<Event>)
    requires Inv(s) && IsRun(s, es)
    ensures Inv(StateAfter(s, es))
    decreases |es|
  {
    hide Inv, Enabled;
    if es != [] {
      NextKeepsInv(s, es[0]);
      RunsKeepInv(Next(s, es[0]), es[1..]);
    }
  }

  /** A state some interleaving of `n` threads leads to. */
  ghost predicate Reachable(n: nat, s: State) {
    exists es :: IsRun(Initial(n), es) && StateAfter(Initial(n), es) == s
  }

  lemma {:induction false} ReachableInv(n: nat, s: State)
    requires n <= MAX_THREADS && Reachable(n, s)
    ensures Inv(s) && |s.threads| == n
  {
    hide Inv, IsRun, StateAfter;
    var es :| IsRun(Initial(n), es) && StateAfter(Initial(n), es) == s;
    InitialInv(n);
    RunsKeepInv(Initial(n), es);
  }

  // ---------------------------------------------------------------- ownership

  /** Slot `i` or thread `t` refers to inner queue `k`. */
  predicate Refers(s: State, h: Holder, k: nat) {
    match h
    case InSlot(i) => i < |s.g.slots| && s.g.slots[i] == To(k)
    case Taken(t) => t < |s.threads| && s.threads[t].held == To(k)
  }

  /** Each inner queue is held by exactly one slot or one thread, at all times. */
  lemma {:induction false} OneHolder(n: nat, s: State, k: nat)
    requires n <= MAX_THREADS && Reachable(n, s) && k < |s.g.queues|
    ensures exists h :: Refers(s, h, k) && forall h' :: Refers(s, h', k) ==> h' == h
  {
    hide Reachable, Sum;
    ReachableInv(n, s);
    assert InPlace(s.g, s.threads, k);
    var h := s.g.holder[k];
    assert Refers(s, h, k);
    forall h' | Refers(s, h', k) ensures h' == h {
      assert h'.InSlot? ==> s.g.slots[h'.i].To?;
    }
  }

  /** Nothing refers to an inner queue that was never allocated. */
  lemma {:induction false} NoDanglingPointer(n: nat, s: State, h: Holder, k: nat)
    requires n <= MAX_THREADS && Reachable(n, s) && Refers(s, h, k)
    ensures k < |s.g.queues|
  {
    hide Reachable, Sum, InPlace;
    ReachableInv(n, s);
    if h.InSlot? {
      assert s.g.slots[h.i].To?;
    } else {
      assert s.threads[h.t].held.To?;
    }
  }

  /** Putting an inner queue back always replaces null, and never has to be tried again. */
  lemma {:induction false} ReturnDisplacesNull(n: nat, s: State, t: nat)
    requires n <= MAX_THREADS && Reachable(n, s) && t < |s.threads| && s.threads[t].pc == Returning
    ensures Read(s.g, s.threads[t].index) == Null && s.threads[t].held.To?
    ensures var s' := Next(s, Run(t)); s'.threads[t].held == Null && Read(s'.g, s.threads[t].index) == s.threads[t].held
  {
    hide Reachable, Inv, Exchange;
    ReachableInv(n, s);
    Parts(s, t);
    ExchangeParts(s.g, t, s.threads[t].index, s.threads[t].held);
  }

  /** Wherever the code dereferences the inner queue it took, there is one; its own slot is within the array. */
  lemma {:induction false} NeverNull(n: nat, s: State, t: nat)
    requires n <= MAX_THREADS && Reachable(n, s) && t < |s.threads|
    ensures Filling(s.threads[t].pc) || Collecting(s.threads[t].pc) ==> s.threads[t].held.To?
    ensures s.threads[t].pc == Swapping && Read(s.g, s.threads[t].index) == s.threads[t].seen ==> s.threads[t].seen.To?
    ensures s.threads[t].pc == Installing || s.threads[t].linked ==> s.threads[t].index < |s.g.slots|
    ensures s.threads[t].pc == Trading ==> s.threads[t].next < |s.g.slots|
  {
    hide Reachable, Inv;
    ReachableInv(n, s);
    Parts(s, t);
  }

  // ---------------------------------------------------------------- conservation

  lemma {:induction false} RunsAsked(s: State, es: seq<Event>, p: nat)
    requires Inv(s) && IsRun(s, es)
    ensures Only(StateAfter(s, es).g.pushed, p) + Left(StateAfter(s, es), p) == Only(s.g.pushed, p) + Left(s, p) + Asked(es, p)
    decreases |es|
  {
    hide Inv, Enabled, Only, Left, AskedBy;
    if es != [] {
      NextKeepsInv(s, es[0]);
      StepAsked(s, es[0], p);
      RunsAsked(Next(s, es[0]), es[1..], p);
    }
  }

  /** What a producer pushed, and what its call under way has yet to push, is what its calls asked for. */
  lemma {:induction false} PushedAsAsked(n: nat, es: seq<Event>, p: nat)
    requires n <= MAX_THREADS && IsRun(Initial(n), es)
    ensures var s := StateAfter(Initial(n), es); Only(s.g.pushed, p) + Left(s, p) == Asked(es, p)
  {
    hide Inv, IsRun, StateAfter;
    InitialInv(n);
    RunsAsked(Initial(n), es, p);
    assert Left(Initial(n), p) == [];
  }

  /** What the calls asked to push is what was output, what is queued and what is yet to be put: nothing lost, nothing twice. */
  lemma {:induction false} NothingLost(n: nat, es: seq<Event>, x: Item)
    requires n <= MAX_THREADS && IsRun(Initial(n), es)
    ensures var s := StateAfter(Initial(n), es);
            && multiset(s.g.pushed) == multiset(s.g.output) + multiset(Flat(s.g.queues))
            && multiset(Asked(es, x.producer))[x]
               == multiset(s.g.output)[x] + multiset(Flat(s.g.queues))[x] + multiset(Left(s, x.producer))[x]
  {
    hide IsRun, StateAfter, Sum, Flat, Only, Left, Asked;
    InitialInv(n);
    RunsKeepInv(Initial(n), es);
    PushedAsAsked(n, es, x.producer);
    OnlyCounts(StateAfter(Initial(n), es).g.pushed, x);
  }

  lemma {:induction false} WeightsNotNegative(g: Shared, ts: seq<Thread>)
    requires AllOk(g, ts)
    ensures forall u :: 0 <= u < |ts| ==> Weights(g, ts)[u] >= 0
  {
    hide Read, Indexed, LoopOk, SlotOk;
    forall u | 0 <= u < |ts| ensures Weights(g, ts)[u] >= 0 {
      assert LocalOk(g, ts[u]);
    }
  }

  /** The count of items is never less than the number of items in the slots, so it is never negative. */
  lemma {:induction false} SizeCoversVisible(n: nat, s: State)
    requires n <= MAX_THREADS && Reachable(n, s)
    ensures s.g.numItems >= Sum(Visible(s.g)) >= 0
  {
    hide Reachable, Sum, AllOk, Held, Conserved, Due, At, Indexed;
    ReachableInv(n, s);
    WeightsNotNegative(s.g, s.threads);
    SumNotNegative(Weights(s.g, s.threads));
    SumNotNegative(Visible(s.g));
  }

  /** When the queue says it is empty, no slot has an item. */
  lemma {:induction false} EmptyMeansEmpty(n: nat, s: State, i: nat)
    requires n <= MAX_THREADS && Reachable(n, s) && s.g.numItems == 0 && i < |s.g.slots|
    ensures At(s.g, s.g.slots[i]) == []
  {
    hide Reachable, Sum, At;
    SizeCoversVisible(n, s);
    SumAtLeast(Visible(s.g), i);
  }

  /** The count lags behind the items pushed and not yet output by exactly what each thread still owes. */
  lemma {:induction false} SizeIsExact(n: nat, s: State)
    requires n <= MAX_THREADS && Reachable(n, s)
    ensures s.g.numItems == |Flat(s.g.queues)| + Sum(Dues(s.threads))
  {
    hide Reachable, Sum, Flat, AllOk, Held, Due, At, Indexed;
    ReachableInv(n, s);
    assert |multiset(s.g.pushed)| == |s.g.pushed| && |multiset(s.g.output)| == |s.g.output|;
    assert |multiset(Flat(s.g.queues))| == |Flat(s.g.queues)|;
  }

  /** When no call is under way the count is the number of items queued, and all of them are in slots. */
  lemma {:induction false} QuietSizeIsExact(n: nat, s: State)
    requires n <= MAX_THREADS && Reachable(n, s)
    requires forall t :: 0 <= t < |s.threads| ==> s.threads[t].pc == Idle
    ensures s.g.numItems == |Flat(s.g.queues)| == |s.g.pushed| - |s.g.output| == Sum(Visible(s.g))
  {
    hide Reachable, Sum, Flat, Inv;
    ReachableInv(n, s);
    QuietWeights(s);
    SizeIsExact(n, s);
  }

  lemma {:induction false} QuietWeights(s: State)
    requires Inv(s) && forall t :: 0 <= t < |s.threads| ==> s.threads[t].pc == Idle
    ensures s.g.numItems == Sum(Visible(s.g)) == |s.g.pushed| - |s.g.output| && Sum(Dues(s.threads)) == 0
  {
    hide Sum, Held, Flat, Distinct;
    forall t | 0 <= t < |s.threads| ensures s.threads[t].held == Null {
      assert LocalOk(s.g, s.threads[t]);
    }
    SumZero(Weights(s.g, s.threads));
    SumZero(Dues(s.threads));
  }
}
