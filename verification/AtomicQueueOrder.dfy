/** With one collecting thread, the items of each producer come out in the order they went in. */
module AtomicQueueOrder {
  import opened AtomicQueueProtocol
  import opened AtomicQueueInvariant
  import opened AtomicQueueSteps
  import opened AtomicQueueCalls
  import opened AtomicQueueTheorems

  // ---------------------------------------------------------------- one producer's items

  predicate AllBy(xs: seq<Item>, p: nat) {
    forall i :: 0 <= i < |xs| ==> xs[i].producer == p
  }

  lemma {:induction false} OnlyPure(xs: seq<Item>, u: nat, p: nat)
    requires AllBy(xs, u)
    ensures Only(xs, p) == if p == u then xs else []
    decreases |xs|
  {
    if xs != [] {
      OnlyPure(xs[..|xs| - 1], u, p);
    }
  }

  // ---------------------------------------------------------------- where a producer's items are

  /** What the thread's own slot holds. */
  function InOwnSlot(g: Shared, th: Thread): seq<Item> {
    if Indexed(th) then At(g, Read(g, th.index)) else []
  }

  /** What the thread has in hand as a producer. */
  function Unreturned(g: Shared, th: Thread): seq<Item> {
    if IsCollector(th) then [] else At(g, th.held)
  }

  /** What the thread has in hand as a collector. */
  function InHand(g: Shared, th: Thread): seq<Item> {
    if IsCollector(th) then At(g, th.held) else []
  }

  predicate Pure(g: Shared, u: nat, th: Thread) {
    AllBy(InOwnSlot(g, th), u) && AllBy(Unreturned(g, th), u)
  }

  predicate OneCollector(ts: seq<Thread>, c: nat) {
    forall u :: 0 <= u < |ts| && u != c && ts[u].job.GetAll? ==> ts[u].pc == Idle
  }

  ghost predicate HasOwner(ts: seq<Thread>, i: nat) {
    exists u :: 0 <= u < |ts| && Indexed(ts[u]) && ts[u].index == i
  }

  predicate InOrder(g: Shared, collector: Thread, p: nat, th: Thread) {
    Only(g.pushed, p) ==
    Only(g.output, p) + Only(InHand(g, collector), p) + Only(InOwnSlot(g, th), p) + Only(Unreturned(g, th), p)
  }

  ghost predicate OrderInv(s: State, c: nat) {
    && c < |s.threads| && OneCollector(s.threads, c)
    && (forall i :: 0 <= i < s.g.counter ==> HasOwner(s.threads, i))
    && (forall u :: 0 <= u < |s.threads| ==> Pure(s.g, u, s.threads[u]))
    && (forall p :: 0 <= p < |s.threads| ==> InOrder(s.g, s.threads[c], p, s.threads[p]))
  }

  // ---------------------------------------------------------------- small facts

  lemma {:induction false} StillOwned(ts: seq<Thread>, t: nat, th': Thread, i: nat)
    requires HasOwner(ts, i) && t < |ts| && (Indexed(ts[t]) ==> Indexed(th') && th'.index == ts[t].index)
    ensures HasOwner(ts[t := th'], i)
  {
    hide Indexed;
    var u :| 0 <= u < |ts| && Indexed(ts[u]) && ts[u].index == i;
    assert Indexed(ts[t := th'][u]) && ts[t := th'][u].index == i;
  }

  /** The thread's items are where they were. */
  predicate Undisturbed(g: Shared, g': Shared, th: Thread) {
    At(g', th.held) == At(g, th.held) && InOwnSlot(g', th) == InOwnSlot(g, th)
  }

  /** Every other thread is undisturbed, and what the collector has, what is pushed and what is output stay in balance. */
  lemma {:induction false} OneMoves(s: State, c: nat, t: nat, g': Shared, th': Thread)
    requires Inv(s) && OrderInv(s, c) && t < |s.threads|
    requires t != c && th'.job.GetAll? ==> th'.pc == Idle
    requires Indexed(s.threads[t]) ==> Indexed(th') && th'.index == s.threads[t].index
    requires g'.counter == s.g.counter || (g'.counter == s.g.counter + 1 && Indexed(th') && th'.index == s.g.counter)
    requires forall u :: 0 <= u < |s.threads| && u != t ==> Undisturbed(s.g, g', s.threads[u])
    requires Pure(g', t, th')
    requires var tc := if c == t then th' else s.threads[c];
             InOrder(g', tc, t, th')
             && forall p :: 0 <= p < |s.threads| && p != t ==>
                  Only(g'.output, p) + Only(InHand(g', tc), p) == Only(s.g.output, p) + Only(InHand(s.g, s.threads[c]), p)
                  && Only(g'.pushed, p) == Only(s.g.pushed, p)
    ensures OrderInv(State(g', s.threads[t := th']), c)
  {
    hide Only, AllBy, Indexed, IsCollector, At, Read, HasOwner, Inv;
    var ts' := s.threads[t := th'];
    forall i | 0 <= i < g'.counter ensures HasOwner(ts', i) {
      if i < s.g.counter {
        StillOwned(s.threads, t, th', i);
      } else {
        assert Indexed(ts'[t]) && ts'[t].index == i;
        Owns(ts', t);
      }
    }
    forall u | 0 <= u < |ts'| ensures Pure(g', u, ts'[u]) {
      if u != t {
        assert Undisturbed(s.g, g', s.threads[u]) && Pure(s.g, u, s.threads[u]);
      }
    }
    forall p | 0 <= p < |ts'| ensures InOrder(g', ts'[c], p, ts'[p]) {
      if p != t {
        assert Undisturbed(s.g, g', s.threads[p]) && InOrder(s.g, s.threads[c], p, s.threads[p]);
      }
    }
  }

  lemma {:induction false} Owns(ts: seq<Thread>, t: nat)
    requires t < |ts| && Indexed(ts[t])
    ensures HasOwner(ts, ts[t].index)
  {
    hide Indexed;
  }

  // ---------------------------------------------------------------- kinds of action

  lemma {:induction false} QuietOrder(s: State, c: nat, t: nat, g': Shared, th': Thread)
    requires Inv(s) && OrderInv(s, c) && t < |s.threads|
    requires g' == s.g.(numItems := g'.numItems, counter := g'.counter)
    requires t != c && th'.job.GetAll? ==> th'.pc == Idle
    requires Indexed(s.threads[t]) ==> Indexed(th') && th'.index == s.threads[t].index
    requires g'.counter == s.g.counter || (g'.counter == s.g.counter + 1 && Indexed(th') && th'.index == s.g.counter)
    requires th'.held == s.threads[t].held && (IsCollector(th') == IsCollector(s.threads[t]) || At(s.g, th'.held) == [])
    requires InOwnSlot(g', th') == InOwnSlot(s.g, s.threads[t])
    ensures OrderInv(State(g', s.threads[t := th']), c)
  {
    hide AllBy, Indexed, IsCollector, HasOwner, Inv;
    assert forall u :: 0 <= u < |s.threads| ==> Undisturbed(s.g, g', s.threads[u]);
    assert Pure(s.g, t, s.threads[t]);
    assert InOrder(s.g, s.threads[c], t, s.threads[t]);
    OneMoves(s, c, t, g', th') by { assert AllBy([], t) by { EmptyAllBy(t); } }
  }

  lemma {:induction false} EmptyAllBy(p: nat)
    ensures AllBy([], p)
  {
  }

  /** A thread takes its own queue or puts it back. */
  lemma {:induction false} OwnExchangeOrder(s: State, c: nat, t: nat, th': Thread)
    requires Inv(s) && OrderInv(s, c) && t < |s.threads| && Indexed(s.threads[t]) && s.threads[t].index < |s.g.slots|
    requires t != c && th'.job.GetAll? ==> th'.pc == Idle
    requires Indexed(th') && th'.index == s.threads[t].index && th'.held == s.g.slots[th'.index]
    requires s.threads[t].held == Null || th'.held == Null
    requires IsCollector(s.threads[t]) ==> At(s.g, s.threads[t].held) == []
    requires IsCollector(th') ==> t == c && (At(s.g, s.threads[t].held) == [] || IsCollector(s.threads[t]))
    ensures OrderInv(State(Exchange(s.g, t, th'.index, s.threads[t].held), s.threads[t := th']), c)
  {
    hide AllBy, Indexed, IsCollector, HasOwner, Inv, Exchange, Only, Read;
    var th, i := s.threads[t], th'.index;
    var g' := Exchange(s.g, t, i, th.held);
    ExchangeParts(s.g, t, i, th.held);
    assert Read(s.g, i) == th'.held && Read(g', i) == th.held by { ReadOne(s.g, s.g, i); ReadOne(g', g', i); }
    OthersUndisturbed(s, t, i);
    assert Pure(s.g, t, th);
    EmptyAllBy(t);
    assert InOrder(s.g, s.threads[c], t, th);
    assert forall p: nat :: Only([], p) == [] by { OnlyNone(); }
    if IsCollector(th') {
      forall p | 0 <= p < |s.threads| && p != t ensures Only(At(s.g, th'.held), p) == [] {
        OnlyPure(At(s.g, th'.held), t, p);
      }
    }
    OneMoves(s, c, t, g', th');
  }

  lemma {:induction false} OthersUndisturbed(s: State, t: nat, i: nat)
    requires Inv(s) && t < |s.threads| && Indexed(s.threads[t]) && s.threads[t].index == i < |s.g.slots|
    ensures var g' := Exchange(s.g, t, i, s.threads[t].held);
            forall u :: 0 <= u < |s.threads| && u != t ==> Undisturbed(s.g, g', s.threads[u])
  {
    hide Indexed, Inv, Exchange;
    var g' := Exchange(s.g, t, i, s.threads[t].held);
    ExchangeParts(s.g, t, i, s.threads[t].held);
    forall u | 0 <= u < |s.threads| && u != t ensures Undisturbed(s.g, g', s.threads[u]) {
      if Indexed(s.threads[u]) {
        OtherIndex(s.threads, t, u) by { DistinctIndices(s); }
      }
    }
  }

  lemma {:induction false} DistinctIndices(s: State)
    requires Inv(s)
    ensures Distinct(s.threads) && |s.g.slots| == MAX_THREADS
  {
    hide Distinct, Sum, Flat, AllOk, Held;
  }

  ghost predicate Trades(s: State, c: nat, u: nat, th': Thread) {
    && c < |s.threads| && s.threads[c].pc == Trading && s.threads[c].next < |s.g.slots|
    && u < |s.threads| && u != c && Indexed(s.threads[u]) && s.threads[u].index == s.threads[c].next
    && At(s.g, s.threads[c].held) == []
    && th' == s.threads[c].(held := s.g.slots[s.threads[c].next], next := th'.next, pc := Draining)
  }

  lemma {:induction false} TradeFacts(s: State, c: nat, u: nat, th': Thread, v: nat)
    requires Inv(s) && Trades(s, c, u, th') && v < |s.threads|
    ensures var g', ts' := Exchange(s.g, c, s.threads[c].next, s.threads[c].held), s.threads[c := th'];
            && InHand(s.g, s.threads[c]) == [] && InHand(g', th') == InOwnSlot(s.g, s.threads[u])
            && InOwnSlot(g', ts'[v]) == (if v == u then [] else InOwnSlot(s.g, s.threads[v]))
            && Unreturned(g', ts'[v]) == Unreturned(s.g, s.threads[v])
  {
    hide Inv, Exchange;
    ExchangeParts(s.g, c, s.threads[c].next, s.threads[c].held);
    if v != u && Indexed(s.threads[v]) {
      OtherIndex(s.threads, u, v) by { DistinctIndices(s); }
    }
  }

  /** The collector trades its empty queue for the queue in another thread's slot. */
  lemma {:induction false} TradeOrder(s: State, c: nat, u: nat, th': Thread)
    requires Inv(s) && OrderInv(s, c) && Trades(s, c, u, th')
    ensures OrderInv(State(Exchange(s.g, c, s.threads[c].next, s.threads[c].held), s.threads[c := th']), c)
  {
    hide AllBy, HasOwner, Inv, Exchange, Only, InHand, InOwnSlot, Unreturned, At, Read;
    var th, ts' := s.threads[c], s.threads[c := th'];
    var g' := Exchange(s.g, c, th.next, th.held);
    ExchangeParts(s.g, c, th.next, th.held);
    TradeOwned(s, c, th');
    assert Pure(s.g, u, s.threads[u]);
    OnlyNone();
    forall v | 0 <= v < |ts'| ensures Pure(g', v, ts'[v]) && InOrder(g', th', v, ts'[v]) {
      TradeFacts(s, c, u, th', v);
      assert Pure(s.g, v, s.threads[v]) && InOrder(s.g, th, v, s.threads[v]);
      EmptyAllBy(v);
      OnlyPure(InOwnSlot(s.g, s.threads[u]), u, v);
    }
  }

  lemma {:induction false} TradeOwned(s: State, c: nat, th': Thread)
    requires OrderInv(s, c) && Indexed(s.threads[c]) == Indexed(th') && th'.index == s.threads[c].index
    ensures var ts' := s.threads[c := th']; forall i :: 0 <= i < s.g.counter ==> HasOwner(ts', i)
  {
    hide Indexed, Only, AllBy;
    var ts' := s.threads[c := th'];
    forall i | 0 <= i < s.g.counter ensures HasOwner(ts', i) {
      StillOwned(s.threads, c, th', i);
    }
  }

  /** A thread pushes an item of its own. */
  lemma {:induction false} AppendOrder(s: State, c: nat, t: nat, x: Item, th': Thread)
    requires Inv(s) && OrderInv(s, c) && t < |s.threads| && x.producer == t && Away(s.threads[t].pc)
    requires !IsCollector(s.threads[t]) && !IsCollector(th') && !th'.job.GetAll?
    requires th'.held == s.threads[t].held && Indexed(th') == Indexed(s.threads[t]) && th'.index == s.threads[t].index
    ensures OrderInv(State(Append(s.g, s.threads[t].held, x), s.threads[t := th']), c)
  {
    hide AllBy, HasOwner, Inv, Only, IsCollector, At, Read, SetAt;
    var th := s.threads[t];
    var g' := Append(s.g, th.held, x);
    HandsApart(s, t, At(s.g, th.held) + [x], g');
    assert Pure(s.g, t, th) && InOrder(s.g, s.threads[c], t, th);
    assert Pure(g', t, th') by { MoreBy(At(s.g, th.held), x); }
    forall p: nat ensures Only(g'.pushed, p) == Only(s.g.pushed, p) + if p == t then [x] else [] {
      OneMore(s.g.pushed, x, p);
    }
    OneMore(At(s.g, th.held), x, t);
    OneMoves(s, c, t, g', th');
  }

  lemma {:induction false} MoreBy(xs: seq<Item>, x: Item)
    requires AllBy(xs, x.producer)
    ensures AllBy(xs + [x], x.producer)
  {
  }

  /** A thread away with its queue: no other hand or slot sees a change of its items. */
  lemma {:induction false} HandsApart(s: State, t: nat, items: seq<Item>, g': Shared)
    requires Inv(s) && t < |s.threads| && Away(s.threads[t].pc)
    requires g' == SetAt(s.g, s.threads[t].held, items).(pushed := g'.pushed, output := g'.output)
    ensures At(g', s.threads[t].held) == items
    ensures forall u :: 0 <= u < |s.threads| && u != t ==> Undisturbed(s.g, g', s.threads[u])
    ensures InOwnSlot(g', s.threads[t]) == InOwnSlot(s.g, s.threads[t])
  {
    hide Sum, Flat, SetAt, Read, Distinct;
    var p := s.threads[t].held;
    assert LocalOk(s.g, s.threads[t]);
    Alone(s.g, s.threads, t);
    SetAtParts(s.g, p, items, Null);
    forall q ensures q != p ==> At(g', q) == At(s.g, q) {
      SetAtParts(s.g, p, items, q);
    }
    forall i: nat ensures Read(g', i) == Read(s.g, i) != p {
      ReadOne(s.g, g', i);
    }
  }

  lemma {:induction false} ReadOne(g: Shared, g': Shared, i: nat)
    requires g'.slots == g.slots
    ensures Read(g', i) == Read(g, i) && (i < |g.slots| ==> Read(g, i) == g.slots[i]) && (i >= |g.slots| ==> Read(g, i) == Null)
  {
  }

  /** The collector outputs the next item of the queue in hand. */
  lemma {:induction false} TakeFrontOrder(s: State, c: nat, th': Thread)
    requires Inv(s) && OrderInv(s, c) && s.threads[c].pc == Draining && At(s.g, s.threads[c].held) != []
    requires th' == s.threads[c].(popped := th'.popped)
    ensures OrderInv(State(TakeFront(s.g, s.threads[c].held), s.threads[c := th']), c)
  {
    hide AllBy, HasOwner, Inv, Only, At, Read, SetAt;
    var th := s.threads[c];
    var q := At(s.g, th.held);
    var g' := TakeFront(s.g, th.held);
    HandsApart(s, c, q[1..], g');
    assert Pure(s.g, c, th) && InOrder(s.g, th, c, th);
    forall p: nat ensures Only(g'.output, p) + Only(q[1..], p) == Only(s.g.output, p) + Only(q, p) {
      OneMore(s.g.output, q[0], p);
      assert q == [q[0]] + q[1..];
      OnlyConcat([q[0]], q[1..], p);
      OneMore([], q[0], p);
      OnlyNone();
      assert [] + [q[0]] == [q[0]];
    }
    OneMoves(s, c, c, g', th');
  }

  lemma {:induction false} AllocateOrder(s: State, c: nat, t: nat)
    requires Inv(s) && OrderInv(s, c) && t < |s.threads| && s.threads[t].pc == Allocating
    ensures OrderInv(Next(s, Run(t)), c)
  {
    hide AllBy, HasOwner, Inv, Only;
    var g, th := s.g, s.threads[t];
    var g', th' := g.(queues := g.queues + [[]], holder := g.holder + [Taken(t)]), th.(held := To(|g.queues|), pc := Indexing);
    HeldBelow(g, s.threads) by { OnlyHeld(s); }
    Parts(s, t);
    assert Pure(s.g, t, th) && InOrder(s.g, s.threads[c], t, th);
    OneMoves(s, c, t, g', th');
  }

  lemma {:induction false} OnlyHeld(s: State)
    requires Inv(s)
    ensures Held(s.g, s.threads)
  {
    hide Held, Sum, AllOk, Flat;
  }

  // ---------------------------------------------------------------- all steps

  lemma {:induction false} Sole(s: State, c: nat, t: nat)
    requires OrderInv(s, c) && t < |s.threads|
    ensures t != c && s.threads[t].job.GetAll? ==> s.threads[t].pc == Idle
  {
    hide Only, AllBy, HasOwner;
  }

  lemma {:induction false} InitializeOrder(s: State, c: nat, t: nat)
    requires Inv(s) && OrderInv(s, c) && t < |s.threads| && Initializing(s.threads[t].pc)
    ensures OrderInv(Next(s, Run(t)), c)
  {
    hide Inv, OrderInv, Exchange;
    var g, th := s.g, s.threads[t];
    Parts(s, t);
    Sole(s, c, t);
    if th.pc == Allocating {
      AllocateOrder(s, c, t);
    } else if th.pc == Indexing {
      FreshSlot(s);
      QuietOrder(s, c, t, g.(counter := g.counter + 1), th.(index := g.counter, pc := Installing));
    } else if th.pc == Installing {
      InstallIsExchange(g, t, th.index, th.held);
      OwnExchangeOrder(s, c, t, th.(held := Null, pc := Linking));
    } else {
      QuietOrder(s, c, t, g, th.(linked := true, pc := Reading));
    }
  }

  lemma {:induction false} FreshSlot(s: State)
    requires Inv(s)
    ensures Read(s.g, s.g.counter) == Null
  {
    hide Held, Sum, AllOk, Flat;
  }

  lemma {:induction false} InstallIsExchange(g: Shared, t: nat, i: nat, mine: Ptr)
    requires Read(g, i) == Null
    ensures Assign(Store(g, i, mine), mine, InSlot(i)) == Exchange(g, t, i, mine)
  {
  }

  lemma {:induction false} StealOrder(s: State, c: nat, t: nat)
    requires Inv(s) && OrderInv(s, c) && t < |s.threads| && Stealing(s.threads[t].pc)
    ensures OrderInv(Next(s, Run(t)), c)
  {
    hide Inv, OrderInv, Exchange;
    var g, th := s.g, s.threads[t];
    Parts(s, t);
    Sole(s, c, t);
    if th.pc == Reading {
      QuietOrder(s, c, t, g, th.(seen := Read(g, th.index), pc := Swapping));
    } else if Read(g, th.index) == th.seen {
      OwnExchangeOrder(s, c, t, Begin(th.(held := th.seen)));
    } else {
      QuietOrder(s, c, t, g, th.(pc := Reading));
    }
  }

  lemma {:induction false} CountOrder(s: State, c: nat, t: nat)
    requires Inv(s) && OrderInv(s, c) && t < |s.threads| && Filling(s.threads[t].pc)
    requires s.threads[t].pc == Putting || s.threads[t].pc == Moving ==> s.threads[t].todo == []
    ensures OrderInv(Next(s, Run(t)), c)
  {
    hide Inv, OrderInv, Append, Exchange;
    Parts(s, t);
    Sole(s, c, t);
    var r := Act(s.g, t, s.threads[t]);
    QuietOrder(s, c, t, r.g, r.th);
  }

  lemma {:induction false} FillOrder(s: State, c: nat, t: nat)
    requires Inv(s) && OrderInv(s, c) && t < |s.threads| && Filling(s.threads[t].pc)
    ensures OrderInv(Next(s, Run(t)), c)
  {
    hide Inv, OrderInv, Append, Exchange, At, Read;
    var g, th := s.g, s.threads[t];
    if (th.pc == Putting || th.pc == Moving) && th.todo != [] {
      Parts(s, t);
      Sole(s, c, t);
      AppendOrder(s, c, t, Item(t, th.todo[0]), Act(g, t, th).th);
    } else {
      CountOrder(s, c, t);
    }
  }

  lemma {:induction false} SameSlot(g: Shared, g': Shared, th: Thread)
    requires g'.slots == g.slots && g'.queues == g.queues
    ensures At(g', Read(g', th.index)) == At(g, Read(g, th.index))
  {
  }

  lemma {:induction false} TradingOrder(s: State, c: nat)
    requires c < |s.threads| && Inv(s) && OrderInv(s, c) && s.threads[c].pc == Trading && Read(s.g, s.threads[c].next) == s.threads[c].seen
    ensures OrderInv(Next(s, Run(c)), c)
  {
    hide Inv, OrderInv, Exchange, Act, Next, Indexed;
    var th := s.threads[c];
    Parts(s, c);
    RunNext(s, c);
    TradeAct(s.g, c, th);
    OwnerOf(s, c, th.next);
    var u :| 0 <= u < |s.threads| && Indexed(s.threads[u]) && s.threads[u].index == th.next;
    TradeOrder(s, c, u, th.(held := th.seen, next := th.next + 1, pc := Draining));
  }

  lemma {:induction false} OwnerOf(s: State, c: nat, i: nat)
    requires OrderInv(s, c) && i < s.g.counter
    ensures exists u :: 0 <= u < |s.threads| && Indexed(s.threads[u]) && s.threads[u].index == i
  {
    hide Only, AllBy, Indexed;
    assert HasOwner(s.threads, i);
  }

  lemma {:induction false} CollectOrder(s: State, c: nat, t: nat)
    requires Inv(s) && OrderInv(s, c) && t < |s.threads| && Collecting(s.threads[t].pc)
    ensures OrderInv(Next(s, Run(t)), c)
  {
    hide Inv, OrderInv, Exchange, TakeFront;
    var g, th := s.g, s.threads[t];
    Parts(s, t);
    Sole(s, c, t);
    if th.pc == Draining && At(g, th.held) != [] {
      TakeFrontOrder(s, c, th.(popped := th.popped + 1));
    } else if th.pc == Trading && Read(g, th.next) == th.seen {
      TradingOrder(s, c);
    } else {
      QuietOrder(s, c, t, g, Act(g, t, th).th);
    }
  }

  lemma {:induction false} ReturningOrder(s: State, c: nat, t: nat)
    requires Inv(s) && OrderInv(s, c) && t < |s.threads| && s.threads[t].pc == Returning
    ensures OrderInv(Next(s, Run(t)), c)
  {
    hide Inv, OrderInv, Exchange;
    var th := s.threads[t];
    Parts(s, t);
    Sole(s, c, t);
    OwnExchangeOrder(s, c, t, th.(held := th.seen, pc := if th.job.GetAll? then Subtracting else Idle));
  }

  lemma {:induction false} ReadingBackOrder(s: State, c: nat, t: nat)
    requires Inv(s) && OrderInv(s, c) && t < |s.threads| && s.threads[t].pc == ReadingBack
    ensures OrderInv(Next(s, Run(t)), c)
  {
    hide Inv, OrderInv, Exchange, Read, At;
    Sole(s, c, t);
    QuietOrder(s, c, t, s.g, s.threads[t].(seen := Read(s.g, s.threads[t].index), pc := Returning));
  }

  lemma {:induction false} SubtractingOrder(s: State, c: nat, t: nat)
    requires Inv(s) && OrderInv(s, c) && t < |s.threads| && s.threads[t].pc == Subtracting
    ensures OrderInv(Next(s, Run(t)), c)
  {
    hide Inv, OrderInv, Next, Read, At, IsCollector;
    var g, th := s.g, s.threads[t];
    var g', th' := g.(numItems := g.numItems - th.popped), th.(popped := 0, pc := Idle);
    SubtractingNext(s, t);
    SubtractingEmpty(s, t);
    SameSlot(g, g', th);
    QuietOrder(s, c, t, g', th');
  }

  lemma {:induction false} SubtractingNext(s: State, t: nat)
    requires t < |s.threads| && s.threads[t].pc == Subtracting
    ensures Next(s, Run(t)) == State(s.g.(numItems := s.g.numItems - s.threads[t].popped), s.threads[t := s.threads[t].(popped := 0, pc := Idle)])
  {
  }

  lemma {:induction false} SubtractingEmpty(s: State, t: nat)
    requires Inv(s) && t < |s.threads| && s.threads[t].pc == Subtracting
    ensures At(s.g, s.threads[t].held) == [] && s.threads[t].linked
  {
    hide Inv, Read, LoopOk;
    Parts(s, t);
  }

  /** Only thread `c` ever collects. */
  predicate OnlyCollects(es: seq<Event>, c: nat) {
    forall k :: 0 <= k < |es| && es[k].Call? && es[k].job.GetAll? ==> es[k].t == c
  }

  lemma {:induction false} NextKeepsOrder(s: State, c: nat, e: Event)
    requires Inv(s) && OrderInv(s, c) && Enabled(s, e) && (e.Call? && e.job.GetAll? ==> e.t == c)
    ensures OrderInv(Next(s, e), c)
  {
    hide Inv, OrderInv, Act;
    var t, th := e.t, s.threads[e.t];
    if e.Call? {
      Parts(s, t);
      QuietOrder(s, c, t, s.g, Called(th, e.job));
      assert State(s.g, s.threads[t := Called(th, e.job)]) == Next(s, e);
    } else if Initializing(th.pc) {
      InitializeOrder(s, c, t);
    } else if Stealing(th.pc) {
      StealOrder(s, c, t);
    } else if Filling(th.pc) {
      FillOrder(s, c, t);
    } else if Collecting(th.pc) {
      CollectOrder(s, c, t);
    } else if th.pc == Returning {
      ReturningOrder(s, c, t);
    } else if th.pc == ReadingBack {
      ReadingBackOrder(s, c, t);
    } else {
      SubtractingOrder(s, c, t);
    }
  }

  lemma {:induction false} RunsKeepOrder(s: State, c: nat, es: seq<Event>)
    requires Inv(s) && OrderInv(s, c) && IsRun(s, es) && OnlyCollects(es, c)
    ensures OrderInv(StateAfter(s, es), c)
    decreases |es|
  {
    hide Inv, OrderInv, Enabled, Act;
    if es != [] {
      NextKeepsInv(s, es[0]);
      NextKeepsOrder(s, c, es[0]);
      RunsKeepOrder(Next(s, es[0]), c, es[1..]);
    }
  }

  lemma {:induction false} InitialOrder(n: nat, c: nat)
    requires c < n
    ensures OrderInv(Initial(n), c)
  {
  }

  /** With one collector, what came out of each producer's items is a prefix of what its calls asked to push. */
  lemma {:induction false} FirstInFirstOut(n: nat, es: seq<Event>, c: nat, p: nat)
    requires n <= MAX_THREADS && c < n && p < n && IsRun(Initial(n), es) && OnlyCollects(es, c)
    ensures var s := StateAfter(Initial(n), es); Only(s.g.output, p) <= Only(s.g.pushed, p) <= Asked(es, p)
  {
    hide Inv, IsRun, StateAfter, Only, OnlyCollects, HasOwner, AllBy, Asked;
    InitialInv(n);
    InitialOrder(n, c);
    RunsKeepOrder(Initial(n), c, es);
    PushedAsAsked(n, es, p);
    var s := StateAfter(Initial(n), es);
    assert InOrder(s.g, s.threads[c], p, s.threads[p]);
  }
}
