/** A collection that no other call overlaps takes every item there is. */
module AtomicQueueDrain {
  import opened AtomicQueueProtocol
  import opened AtomicQueueInvariant
  import opened AtomicQueueSteps
  import opened AtomicQueueCalls
  import opened AtomicQueueTheorems

  predicate AllIdleBut(ts: seq<Thread>, t: nat) {
    forall u :: 0 <= u < |ts| && u != t ==> ts[u].pc == Idle
  }

  /** The slots before `n` hold no item. */
  predicate EmptyBefore(g: Shared, n: nat) {
    forall i: nat :: i < n ==> At(g, Read(g, i)) == []
  }

  /** How many slots the lone collector has emptied. */
  function Emptied(g: Shared, th: Thread): nat {
    if th.pc == Peeking || th.pc == Trading || (th.pc == Draining && th.loaded) then th.next
    else if th.pc == ReadingBack || th.pc == Returning || th.pc == Subtracting || th.pc == Idle then g.counter
    else 0
  }

  predicate Lone(s: State, t: nat) {
    && t < |s.threads| && AllIdleBut(s.threads, t) && s.threads[t].job.GetAll?
    && (s.threads[t].pc == Peeking || s.threads[t].pc == Trading || (s.threads[t].pc == Draining && s.threads[t].loaded) ==>
          s.threads[t].limit == s.g.counter)
    && EmptyBefore(s.g, Emptied(s.g, s.threads[t]))
  }

  lemma {:induction false} SameEmpty(g: Shared, g': Shared, n: nat)
    requires EmptyBefore(g, n) && g'.slots == g.slots && g'.queues == g.queues
    ensures EmptyBefore(g', n)
  {
    forall i: nat | i < n ensures At(g', Read(g', i)) == [] {
      assert At(g, Read(g, i)) == [];
    }
  }

  lemma {:induction false} ExchangeEmpty(g: Shared, t: nat, i: nat, mine: Ptr, n: nat)
    requires i < |g.slots| && At(g, mine) == [] && (EmptyBefore(g, n) || (n > 0 && i == n - 1 && EmptyBefore(g, n - 1)))
    ensures EmptyBefore(Exchange(g, t, i, mine), n)
  {
    hide Exchange;
    var g' := Exchange(g, t, i, mine);
    ExchangeParts(g, t, i, mine);
    forall j: nat | j < n ensures At(g', Read(g', j)) == [] {
      if j != i {
        assert At(g, Read(g, j)) == [];
      }
    }
  }

  lemma {:induction false} TakeFrontEmpty(s: State, t: nat, n: nat)
    requires Inv(s) && t < |s.threads| && s.threads[t].held.To? && At(s.g, s.threads[t].held) != [] && EmptyBefore(s.g, n)
    ensures EmptyBefore(TakeFront(s.g, s.threads[t].held), n)
  {
    hide Sum, Flat, AllOk, SetAt;
    var p := s.threads[t].held;
    var g' := TakeFront(s.g, p);
    forall i: nat | i < n ensures At(g', Read(g', i)) == [] {
      assert At(s.g, Read(s.g, i)) == [];
      SetAtParts(s.g, p, At(s.g, p)[1..], Read(s.g, i));
    }
  }

  lemma {:induction false} ListedEmpty(g: Shared, i: nat)
    requires EmptyBefore(g, i) && Read(g, i) == Null
    ensures EmptyBefore(g, i + 1)
  {
  }

  lemma {:induction false} LoneTrades(s: State, t: nat)
    requires Inv(s) && Lone(s, t) && s.threads[t].pc == Trading && Read(s.g, s.threads[t].next) == s.threads[t].seen
    ensures Lone(Next(s, Run(t)), t)
  {
    hide Inv, EmptyBefore, Exchange;
    var g, th := s.g, s.threads[t];
    Parts(s, t);
    ExchangeParts(g, t, th.next, th.held);
    ExchangeEmpty(g, t, th.next, th.held, th.next + 1);
    NoneBefore(Exchange(g, t, th.next, th.held));
  }

  lemma {:induction false} LoneReturns(s: State, t: nat)
    requires Inv(s) && Lone(s, t) && s.threads[t].pc == Returning
    ensures Lone(Next(s, Run(t)), t)
  {
    hide Inv, EmptyBefore, Exchange;
    var g, th := s.g, s.threads[t];
    Parts(s, t);
    ExchangeParts(g, t, th.index, th.held);
    ExchangeEmpty(g, t, th.index, th.held, g.counter);
  }

  lemma {:induction false} LoneStarts(s: State, t: nat)
    requires Inv(s) && Lone(s, t) && (Initializing(s.threads[t].pc) || Stealing(s.threads[t].pc))
    ensures Lone(Next(s, Run(t)), t)
  {
    hide Inv, EmptyBefore, Exchange, Store, Assign;
    NoneBefore(Act(s.g, t, s.threads[t]).g);
  }

  lemma {:induction false} LoneDrains(s: State, t: nat)
    requires Inv(s) && Lone(s, t) && s.threads[t].pc == Draining && At(s.g, s.threads[t].held) != []
    ensures Lone(Next(s, Run(t)), t)
  {
    hide Inv, EmptyBefore, Exchange, TakeFront, Append, Read;
    var g, th := s.g, s.threads[t];
    Parts(s, t);
    TakeFrontParts(g, th.held);
    TakeFrontEmpty(s, t, Emptied(g, th));
  }

  /** Only the collector's local variables change. */
  lemma {:induction false} LoneMoves(s: State, t: nat, th': Thread)
    requires Lone(s, t) && th'.job.GetAll? && EmptyBefore(s.g, Emptied(s.g, th'))
    requires th'.pc == Peeking || th'.pc == Trading || (th'.pc == Draining && th'.loaded) ==> th'.limit == s.g.counter
    ensures Lone(State(s.g, s.threads[t := th']), t)
  {
    hide EmptyBefore, Emptied;
  }

  lemma {:induction false} LonePeeks(s: State, t: nat)
    requires Lone(s, t) && s.threads[t].pc == Peeking && s.threads[t].next <= s.threads[t].limit
    ensures Lone(Next(s, Run(t)), t)
  {
    hide EmptyBefore, Act, Next, Read, At, Lone;
    LoneParts(s, t);
    var g, th := s.g, s.threads[t];
    RunNext(s, t);
    PeekAct(g, t, th);
    if th.next >= th.limit {
      LoneMoves(s, t, th.(pc := ReadingBack));
    } else if Read(g, th.next) == Null {
      ListedEmpty(g, th.next);
      LoneMoves(s, t, th.(next := th.next + 1));
    } else {
      LoneMoves(s, t, th.(seen := Read(g, th.next), pc := Trading));
    }
  }

  lemma {:induction false} LoneParts(s: State, t: nat)
    requires Lone(s, t)
    ensures t < |s.threads| && s.threads[t].job.GetAll? && EmptyBefore(s.g, Emptied(s.g, s.threads[t]))
    ensures s.threads[t].pc == Peeking || s.threads[t].pc == Trading || (s.threads[t].pc == Draining && s.threads[t].loaded) ==>
              s.threads[t].limit == s.g.counter
  {
    hide EmptyBefore, Emptied;
  }

  lemma {:induction false} LoneCollects(s: State, t: nat)
    requires Inv(s) && Lone(s, t) && Collecting(s.threads[t].pc)
    requires !(s.threads[t].pc == Trading && Read(s.g, s.threads[t].next) == s.threads[t].seen)
    ensures Lone(Next(s, Run(t)), t)
  {
    hide Inv, EmptyBefore, Exchange, TakeFront, Append, Read, At, Lone;
    LoneParts(s, t);
    Parts(s, t);
    var g, th := s.g, s.threads[t];
    if th.pc == Draining && At(g, th.held) != [] {
      LoneDrains(s, t);
    } else if th.pc == Peeking {
      LonePeeks(s, t);
    } else {
      NoneBefore(g);
      LoneMoves(s, t, Act(g, t, th).th);
    }
  }

  lemma {:induction false} TakeFrontParts(g: Shared, p: Ptr)
    requires At(g, p) != []
    ensures TakeFront(g, p).counter == g.counter
  {
  }

  /** Whatever the lone collector does next, it stays on its way. */
  lemma {:induction false} LoneStep(s: State, t: nat)
    requires Inv(s) && Lone(s, t) && s.threads[t].pc != Idle
    ensures Lone(Next(s, Run(t)), t)
  {
    hide Inv, EmptyBefore, Act, At, Read;
    var g, th := s.g, s.threads[t];
    if Initializing(th.pc) || Stealing(th.pc) {
      LoneStarts(s, t);
    } else if Collecting(th.pc) {
      if th.pc == Trading && Read(g, th.next) == th.seen { LoneTrades(s, t); } else { LoneCollects(s, t); }
    } else if th.pc == Returning {
      LoneReturns(s, t);
    } else {
      LoneEnds(s, t);
    }
  }

  lemma {:induction false} LoneEnds(s: State, t: nat)
    requires Inv(s) && Lone(s, t) && s.threads[t].pc != Idle && s.threads[t].pc != Returning
    requires !Initializing(s.threads[t].pc) && !Stealing(s.threads[t].pc) && !Collecting(s.threads[t].pc)
    ensures Lone(Next(s, Run(t)), t)
  {
    hide Inv, EmptyBefore, Exchange, Append, Read, At;
    Parts(s, t);
    SameEmpty(s.g, Act(s.g, t, s.threads[t]).g, Emptied(s.g, s.threads[t]));
  }

  lemma {:induction false} NoneBefore(g: Shared)
    ensures EmptyBefore(g, 0)
  {
  }

  predicate AllBy(es: seq<Event>, t: nat) {
    forall k :: 0 <= k < |es| ==> es[k] == Run(t)
  }

  lemma {:induction false} LoneRun(s: State, t: nat, es: seq<Event>)
    requires Inv(s) && Lone(s, t) && IsRun(s, es) && AllBy(es, t)
    ensures Inv(StateAfter(s, es)) && Lone(StateAfter(s, es), t)
    decreases |es|
  {
    hide Inv, Lone, Act;
    if es != [] {
      assert es[0] == Run(t);
      NextKeepsInv(s, es[0]);
      LoneStep(s, t) by { LoneThread(s, t); }
      LoneRun(Next(s, es[0]), t, es[1..]);
    }
  }

  lemma {:induction false} LoneThread(s: State, t: nat)
    requires Lone(s, t)
    ensures t < |s.threads|
  {
  }

  lemma {:induction false} LoneCalls(s: State, t: nat)
    requires t < |s.threads| && forall u :: 0 <= u < |s.threads| ==> s.threads[u].pc == Idle
    ensures Lone(Next(s, Call(t, GetAll)), t)
  {
    NoneBefore(s.g);
  }

  /** Every item is in some slot, and a slot past the counter is null. */
  lemma {:induction false} NothingVisible(s: State)
    requires Inv(s) && EmptyBefore(s.g, s.g.counter)
    ensures Sum(Visible(s.g)) == 0
  {
    hide Sum, Flat, AllOk, Held;
    forall i | 0 <= i < |s.g.slots| ensures At(s.g, s.g.slots[i]) == [] {
      if i < s.g.counter {
        assert At(s.g, Read(s.g, i)) == [];
      }
    }
    SumZero(Visible(s.g));
  }

  /** After any run, a collection that runs alone to its end outputs everything that the calls asked to push. */
  lemma {:induction false} CollectsEverything(n: nat, before: seq<Event>, t: nat, es: seq<Event>)
    requires n <= MAX_THREADS && t < n && IsRun(Initial(n), before)
    requires forall u :: 0 <= u < n ==> StateAfter(Initial(n), before).threads[u].pc == Idle
    requires var s := StateAfter(Initial(n), before);
             && IsRun(Next(s, Call(t, GetAll)), es) && AllBy(es, t)
             && StateAfter(Next(s, Call(t, GetAll)), es).threads[t].pc == Idle
    ensures var s' := StateAfter(Next(StateAfter(Initial(n), before), Call(t, GetAll)), es);
            && s'.g.numItems == 0 && Flat(s'.g.queues) == [] && multiset(s'.g.output) == multiset(s'.g.pushed)
            && forall x: Item :: multiset(s'.g.output)[x] == multiset(Asked(before, x.producer))[x]
  {
    hide Inv, IsRun, StateAfter, Sum, Flat, EmptyBefore, Act, AllBy, Asked, Left;
    var s := StateAfter(Initial(n), before);
    InitialInv(n);
    RunsKeepInv(Initial(n), before);
    NextKeepsInv(s, Call(t, GetAll));
    LoneCalls(s, t);
    LoneRun(Next(s, Call(t, GetAll)), t, es);
    var s' := StateAfter(Next(s, Call(t, GetAll)), es);
    NothingVisible(s');
    QuietWeights(s');
    ConservedParts(s');
    forall x: Item ensures multiset(s'.g.output)[x] == multiset(Asked(before, x.producer))[x] {
      WholeRun(n, before, t, es, x.producer);
      NothingLost(n, before + [Call(t, GetAll)] + es, x);
      assert Left(s', x.producer) == [] by { QuietLeft(s', x.producer); }
    }
  }

  lemma {:induction false} QuietLeft(s: State, p: nat)
    requires forall u :: 0 <= u < |s.threads| ==> s.threads[u].pc == Idle
    ensures Left(s, p) == []
  {
  }

  /** The collection adds nothing to what was asked for. */
  lemma {:induction false} WholeRun(n: nat, before: seq<Event>, t: nat, es: seq<Event>, p: nat)
    requires IsRun(Initial(n), before) && Enabled(StateAfter(Initial(n), before), Call(t, GetAll)) && AllBy(es, t)
    requires IsRun(Next(StateAfter(Initial(n), before), Call(t, GetAll)), es)
    ensures var all := before + [Call(t, GetAll)] + es;
            && IsRun(Initial(n), all) && Asked(all, p) == Asked(before, p)
            && StateAfter(Initial(n), all) == StateAfter(Next(StateAfter(Initial(n), before), Call(t, GetAll)), es)
  {
    hide Enabled, Next, Asked;
    var rest := [Call(t, GetAll)] + es;
    assert rest[0] == Call(t, GetAll) && rest[1..] == es;
    RunConcat(Initial(n), before, rest);
    assert before + [Call(t, GetAll)] + es == before + rest;
    AskedConcat(before, rest, p);
    NothingAsked(rest, p);
  }

  lemma {:induction false} ConservedParts(s: State)
    requires Inv(s) && |s.g.pushed| == |s.g.output|
    ensures Flat(s.g.queues) == [] && multiset(s.g.output) == multiset(s.g.pushed)
  {
    hide Sum, Flat, AllOk, Held, Distinct;
    assert |multiset(s.g.pushed)| == |s.g.pushed| && |multiset(s.g.output)| == |s.g.output|;
    assert |multiset(Flat(s.g.queues))| == |Flat(s.g.queues)|;
  }
}
