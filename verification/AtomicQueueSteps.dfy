/** Every action of every thread keeps the invariant of the swapping queue. */
module AtomicQueueSteps {
  import opened AtomicQueueProtocol
  import opened AtomicQueueInvariant

  // ---------------------------------------------------------------- kinds of action

  /** Only local variables and the count of items change. */
  lemma {:induction false} QuietStep(s: State, t: nat, g': Shared, th': Thread)
    requires Inv(s) && t < |s.threads| && g' == s.g.(numItems := g'.numItems)
    requires th'.held == s.threads[t].held && Indexed(th') == Indexed(s.threads[t]) && th'.index == s.threads[t].index
    requires LocalOk(s.g, th') && g'.numItems - s.g.numItems == Due(th') - Due(s.threads[t])
    ensures Inv(State(g', s.threads[t := th']))
  {
    hide AllOk, Distinct, Held, LocalOk, Indexed, Due, Sum, Flat;
    StaysOk(s.g, g', th');
    OneOk(s.g, g', s.threads, t, th');
    OneWeight(s.g, s.threads, g', t, th');
    OneDrawn(s.threads, t, th');
    StillDistinct(s.threads, t, th');
    StillHeld(g', s.threads, t, th') by { SameHeld(s.g, g', s.threads); }
    assert Visible(g') == Visible(s.g);
  }

  lemma {:induction false} SameHeld(g: Shared, g': Shared, ts: seq<Thread>)
    requires Held(g, ts) && g'.queues == g.queues && g'.holder == g.holder && g'.slots == g.slots
    ensures Held(g', ts)
  {
    forall k | 0 <= k < |g'.queues| ensures InPlace(g', ts, k) {
      assert InPlace(g, ts, k);
    }
  }

  /** The thread exchanges its inner queue with a slot. */
  lemma {:induction false} ExchangeStep(s: State, t: nat, i: nat, th': Thread)
    requires Inv(s) && t < |s.threads| && i < s.g.counter && i < |s.g.slots| && th'.held == s.g.slots[i]
    requires Indexed(th') == Indexed(s.threads[t]) && th'.index == s.threads[t].index
    requires Due(th') == Due(s.threads[t]) && LocalOk(Exchange(s.g, t, i, s.threads[t].held), th')
    requires (Indexed(s.threads[t]) && s.threads[t].index == i) || (s.threads[t].held.To? && s.g.slots[i].To?)
    ensures Inv(State(Exchange(s.g, t, i, s.threads[t].held), s.threads[t := th']))
  {
    hide AllOk, Distinct, Held, LocalOk, Indexed, Due, Sum, Flat, Exchange;
    var mine := s.threads[t].held;
    var g' := Exchange(s.g, t, i, mine);
    ExchangeParts(s.g, t, i, mine);
    forall u | 0 <= u < |s.threads| && u != t
      ensures At(g', s.threads[u].held) == At(s.g, s.threads[u].held)
      ensures Indexed(s.threads[u]) ==> (Read(g', s.threads[u].index) == Null <==> Read(s.g, s.threads[u].index) == Null)
    {
      if Indexed(s.threads[u]) && Indexed(s.threads[t]) {
        OtherIndex(s.threads, t, u);
      }
    }
    OneOk(s.g, g', s.threads, t, th');
    OneWeight(s.g, s.threads, g', t, th');
    OneDrawn(s.threads, t, th');
    StillDistinct(s.threads, t, th');
    ExchangeHeld(s.g, s.threads, t, i, th');
    ExchangeVisible(s.g, t, i, mine);
  }

  /** The items of the inner queue the thread has taken change. */
  lemma {:induction false} ItemsStep(s: State, t: nat, items: seq<Item>, g': Shared, th': Thread)
    requires Inv(s) && t < |s.threads| && s.threads[t].held.To?
    requires g' == SetAt(s.g, s.threads[t].held, items).(pushed := g'.pushed, output := g'.output)
    requires th'.held == s.threads[t].held && Indexed(th') == Indexed(s.threads[t]) && th'.index == s.threads[t].index
    requires LocalOk(g', th') && |items| + Due(th') == |At(s.g, th'.held)| + Due(s.threads[t])
    requires |g'.pushed| - |g'.output| + Due(th') == |s.g.pushed| - |s.g.output| + Due(s.threads[t]) && Conserved(g')
    ensures Inv(State(g', s.threads[t := th']))
  {
    hide AllOk, Distinct, Held, LocalOk, Indexed, Due, Sum, Conserved, SetAt;
    var was := SetAt(s.g, s.threads[t].held, items);
    SetAtVisible(s.g, s.threads, t, items);
    assert forall p :: At(g', p) == At(was, p);
    assert forall i: nat :: Read(g', i) == Read(s.g, i);
    OneOk(s.g, g', s.threads, t, th');
    OneWeight(s.g, s.threads, g', t, th');
    OneDrawn(s.threads, t, th');
    StillDistinct(s.threads, t, th');
    SetAtHeld(s.g, s.threads, s.threads[t].held, items);
    StillHeld(g', s.threads, t, th') by { SameHeld(was, g', s.threads); }
    assert Visible(g') == Visible(was);
  }

  lemma {:induction false} Cancel(a: multiset<Item>, b: multiset<Item>, c: multiset<Item>)
    requires a + c == b + c
    ensures a == b
  {
    forall x ensures a[x] == b[x] {
      assert (a + c)[x] == a[x] + c[x] && (b + c)[x] == b[x] + c[x];
    }
  }

  lemma {:induction false} AppendConserved(g: Shared, p: Ptr, x: Item)
    requires Conserved(g) && p.To? && p.id < |g.queues|
    ensures Conserved(Append(g, p, x))
  {
    hide Flat;
    var q, qs' := g.queues[p.id], g.queues[p.id := g.queues[p.id] + [x]];
    FlatUpdate(g.queues, p.id, q + [x]);
    assert multiset(Flat(qs')) == multiset(Flat(g.queues)) + multiset{x} by {
      assert multiset(q + [x]) == multiset{x} + multiset(q);
      Cancel(multiset(Flat(qs')), multiset(Flat(g.queues)) + multiset{x}, multiset(q));
    }
    assert multiset(g.pushed + [x]) == multiset(g.pushed) + multiset{x};
  }

  lemma {:induction false} TakeFrontConserved(g: Shared, p: Ptr)
    requires Conserved(g) && p.To? && p.id < |g.queues| && At(g, p) != []
    ensures Conserved(TakeFront(g, p))
  {
    hide Flat;
    var q, qs' := g.queues[p.id], g.queues[p.id := g.queues[p.id][1..]];
    FlatUpdate(g.queues, p.id, q[1..]);
    assert multiset(Flat(qs')) + multiset{q[0]} == multiset(Flat(g.queues)) by {
      assert q == [q[0]] + q[1..];
      assert multiset(q) == multiset{q[0]} + multiset(q[1..]);
      Cancel(multiset(Flat(qs')) + multiset{q[0]}, multiset(Flat(g.queues)), multiset(q[1..]));
    }
    assert multiset(g.output + [q[0]]) == multiset(g.output) + multiset{q[0]};
  }

  lemma {:induction false} Parts(s: State, t: nat)
    requires Inv(s) && t < |s.threads|
    ensures LocalOk(s.g, s.threads[t]) && s.g.counter <= |s.threads| <= MAX_THREADS && |s.g.slots| == MAX_THREADS
    ensures s.threads[t].held.To? ==> s.threads[t].held.id < |s.g.queues|
  {
    hide LocalOk, Sum, Indexed, Due, Flat, InPlace;
    SumOfBits(Drawn(s.threads));
  }

  lemma {:induction false} RunNext(s: State, t: nat)
    requires t < |s.threads| && s.threads[t].pc != Idle
    ensures var r := Act(s.g, t, s.threads[t]); Next(s, Run(t)) == State(r.g, s.threads[t := r.th])
  {
    hide Act;
  }

  lemma {:induction false} PeekAct(g: Shared, t: nat, th: Thread)
    requires th.pc == Peeking
    ensures Act(g, t, th) ==
            After(g, if th.next >= th.limit then th.(pc := ReadingBack)
                     else if Read(g, th.next) == Null then th.(next := th.next + 1)
                     else th.(seen := Read(g, th.next), pc := Trading))
  {
    hide Read, At;
  }

  lemma {:induction false} TradeAct(g: Shared, t: nat, th: Thread)
    requires th.pc == Trading && Read(g, th.next) == th.seen
    ensures Act(g, t, th) ==
            After(Exchange(g, t, th.next, th.held), th.(held := th.seen, next := th.next + 1, pc := Draining))
  {
    hide Read, At, Exchange;
  }

  // ---------------------------------------------------------------- first use

  lemma {:induction false} AllocatingStep(s: State, t: nat)
    requires Inv(s) && t < |s.threads| && s.threads[t].pc == Allocating
    ensures Inv(Next(s, Run(t)))
  {
    hide Distinct, Sum, Held, AllOk;
    var g, ts, th := s.g, s.threads, s.threads[t];
    var g', th' := g.(queues := g.queues + [[]], holder := g.holder + [Taken(t)]), th.(held := To(|g.queues|), pc := Indexing);
    Parts(s, t);
    HeldBelow(g, ts);
    forall p ensures p != To(|g.queues|) ==> At(g', p) == At(g, p) {
    }
    OneOk(g, g', ts, t, th');
    OneWeight(g, ts, g', t, th');
    OneDrawn(ts, t, th');
    StillDistinct(ts, t, th');
    AllocatingHeld(g, ts, t, th');
    assert Visible(g') == Visible(g);
    assert Flat(g'.queues) == Flat(g.queues) by { assert g'.queues[..|g'.queues| - 1] == g.queues; }
  }

  lemma {:induction false} HeldBelow(g: Shared, ts: seq<Thread>)
    requires Held(g, ts)
    ensures forall u :: 0 <= u < |ts| ==> ts[u].held != To(|g.queues|)
    ensures forall i :: 0 <= i < |g.slots| ==> g.slots[i] != To(|g.queues|)
  {
    hide InPlace;
  }

  lemma {:induction false} AllocatingHeld(g: Shared, ts: seq<Thread>, t: nat, th': Thread)
    requires Held(g, ts) && t < |ts| && ts[t].held == Null && th'.held == To(|g.queues|)
    ensures Held(g.(queues := g.queues + [[]], holder := g.holder + [Taken(t)]), ts[t := th'])
  {
    var g', ts' := g.(queues := g.queues + [[]], holder := g.holder + [Taken(t)]), ts[t := th'];
    forall k | 0 <= k < |g'.queues| ensures InPlace(g', ts', k) {
      if k < |g.queues| {
        assert InPlace(g, ts, k);
      }
    }
  }

  lemma {:induction false} IndexingStep(s: State, t: nat)
    requires Inv(s) && t < |s.threads| && s.threads[t].pc == Indexing
    ensures Inv(Next(s, Run(t)))
  {
    hide Sum, Held, AllOk, Act, Next, LocalOk, Flat, Distinct;
    var g, ts, th := s.g, s.threads, s.threads[t];
    var g', th' := g.(counter := g.counter + 1), th.(index := g.counter, pc := Installing);
    RunNext(s, t);
    IndexAct(g, t, th);
    Parts(s, t);
    OneDrawn(ts, t, th') by { IndexedNow(g, th); }
    SumOfBits(Drawn(ts[t := th']));
    IndexedNow(g, th);
    OneOk(g, g', ts, t, th');
    OneWeight(g, ts, g', t, th');
    NewIndex(g, ts, t, th');
    StillHeld(g', ts, t, th') by { SameHeld(g, g', ts); }
    assert Visible(g') == Visible(g);
  }

  lemma {:induction false} IndexAct(g: Shared, t: nat, th: Thread)
    requires th.pc == Indexing
    ensures Act(g, t, th) == After(g.(counter := g.counter + 1), th.(index := g.counter, pc := Installing))
  {
  }

  lemma {:induction false} IndexedNow(g: Shared, th: Thread)
    requires LocalOk(g, th) && th.pc == Indexing && Shape(g)
    ensures var g', th' := g.(counter := g.counter + 1), th.(index := g.counter, pc := Installing);
            LocalOk(g', th') && Indexed(th') && !Indexed(th) && Due(th') == Due(th)
  {
  }

  lemma {:induction false} NewIndex(g: Shared, ts: seq<Thread>, t: nat, th': Thread)
    requires AllOk(g, ts) && Distinct(ts) && t < |ts| && th'.index == g.counter
    ensures Distinct(ts[t := th'])
  {
    hide Indexed, JobOk, LoopOk, HandOk;
    forall u | 0 <= u < |ts| && Indexed(ts[u]) ensures ts[u].index < g.counter {
      assert LocalOk(g, ts[u]);
    }
  }

  lemma {:induction false} InstallingStep(s: State, t: nat)
    requires Inv(s) && t < |s.threads| && s.threads[t].pc == Installing
    ensures Inv(Next(s, Run(t)))
  {
    hide Sum, Held, AllOk, Distinct, Inv;
    var th := s.threads[t];
    Parts(s, t);
    assert s.g.slots[th.index] == Null;
    assert Assign(Store(s.g, th.index, th.held), th.held, InSlot(th.index)) == Exchange(s.g, t, th.index, th.held);
    ExchangeStep(s, t, th.index, th.(held := Null, pc := Linking));
  }

  lemma {:induction false} LinkingStep(s: State, t: nat)
    requires Inv(s) && t < |s.threads| && s.threads[t].pc == Linking
    ensures Inv(Next(s, Run(t)))
  {
    hide Inv;
    Parts(s, t);
    QuietStep(s, t, s.g, s.threads[t].(linked := true, pc := Reading));
  }

  // ---------------------------------------------------------------- taking the own queue

  lemma {:induction false} StealStep(s: State, t: nat)
    requires Inv(s) && t < |s.threads| && Stealing(s.threads[t].pc)
    ensures Inv(Next(s, Run(t)))
  {
    hide Inv, Exchange;
    var th := s.threads[t];
    Parts(s, t);
    if th.pc == Reading {
      QuietStep(s, t, s.g, th.(seen := Read(s.g, th.index), pc := Swapping));
    } else if Read(s.g, th.index) == th.seen {
      ExchangeParts(s.g, t, th.index, Null);
      ExchangeStep(s, t, th.index, Begin(th.(held := th.seen)));
    } else {
      QuietStep(s, t, s.g, th.(pc := Reading));
    }
  }

  // ---------------------------------------------------------------- pushing

  lemma {:induction false} AppendStep(s: State, t: nat, th': Thread)
    requires Inv(s) && t < |s.threads| && (s.threads[t].pc == Putting || s.threads[t].pc == Moving) && s.threads[t].todo != []
    requires th' == s.threads[t].(todo := s.threads[t].todo[1..], pc := if s.threads[t].pc == Putting then Counting else Moving)
    ensures Inv(State(Append(s.g, s.threads[t].held, Item(t, s.threads[t].todo[0])), s.threads[t := th']))
  {
    hide Inv, Conserved;
    var th := s.threads[t];
    var x := Item(t, th.todo[0]);
    Parts(s, t);
    assert Conserved(s.g) by { OnlyConserved(s); }
    AppendConserved(s.g, th.held, x);
    ItemsStep(s, t, At(s.g, th.held) + [x], Append(s.g, th.held, x), th');
  }

  lemma {:induction false} OnlyConserved(s: State)
    requires Inv(s)
    ensures Conserved(s.g)
  {
    hide Conserved, Sum, AllOk, Held;
  }

  lemma {:induction false} CountingStep(s: State, t: nat)
    requires Inv(s) && t < |s.threads| && s.threads[t].pc == Counting
    ensures Inv(Next(s, Run(t)))
  {
    hide Inv, Append, Read, Exchange;
    Parts(s, t);
    QuietStep(s, t, s.g.(numItems := s.g.numItems + 1), s.threads[t].(pc := ReadingBack));
  }

  lemma {:induction false} AnnouncingStep(s: State, t: nat)
    requires Inv(s) && t < |s.threads| && s.threads[t].pc == Announcing
    ensures Inv(Next(s, Run(t)))
  {
    hide Inv, Append, Read, Exchange;
    Parts(s, t);
    QuietStep(s, t, s.g.(numItems := s.g.numItems + |s.threads[t].todo|), s.threads[t].(pc := Moving));
  }

  lemma {:induction false} FillStep(s: State, t: nat)
    requires Inv(s) && t < |s.threads| && Filling(s.threads[t].pc)
    ensures Inv(Next(s, Run(t)))
  {
    hide Inv, Append;
    var g, th := s.g, s.threads[t];
    if th.pc == Counting {
      CountingStep(s, t);
      return;
    } else if th.pc == Announcing {
      AnnouncingStep(s, t);
      return;
    }
    Parts(s, t);
    if th.pc == Putting {
      AppendStep(s, t, th.(todo := th.todo[1..], pc := Counting));
    } else if th.todo == [] {
      QuietStep(s, t, g, th.(pc := ReadingBack));
    } else {
      AppendStep(s, t, th.(todo := th.todo[1..], pc := Moving));
    }
  }

  // ---------------------------------------------------------------- collecting

  lemma {:induction false} TakeFrontStep(s: State, t: nat)
    requires Inv(s) && t < |s.threads| && s.threads[t].pc == Draining && At(s.g, s.threads[t].held) != []
    ensures Inv(Next(s, Run(t)))
  {
    hide Inv, Conserved;
    var th := s.threads[t];
    Parts(s, t);
    OnlyConserved(s);
    TakeFrontConserved(s.g, th.held);
    ItemsStep(s, t, At(s.g, th.held)[1..], TakeFront(s.g, th.held), th.(popped := th.popped + 1));
  }

  lemma {:induction false} TradeDone(s: State, t: nat)
    requires Inv(s) && t < |s.threads| && s.threads[t].pc == Trading && Read(s.g, s.threads[t].next) == s.threads[t].seen
    ensures Inv(Next(s, Run(t)))
  {
    hide Inv, Exchange, Act, Next;
    var th := s.threads[t];
    Parts(s, t);
    RunNext(s, t);
    TradeAct(s.g, t, th);
    ExchangeParts(s.g, t, th.next, th.held);
    ExchangeStep(s, t, th.next, th.(held := th.seen, next := th.next + 1, pc := Draining));
  }

  lemma {:induction false} TradeAgain(s: State, t: nat)
    requires Inv(s) && t < |s.threads| && s.threads[t].pc == Trading && Read(s.g, s.threads[t].next) != s.threads[t].seen
    ensures Inv(Next(s, Run(t)))
  {
    hide Inv, Exchange, Append, At, Read;
    Parts(s, t);
    QuietStep(s, t, s.g, s.threads[t].(pc := Peeking));
  }

  lemma {:induction false} TradingStep(s: State, t: nat)
    requires Inv(s) && t < |s.threads| && s.threads[t].pc == Trading
    ensures Inv(Next(s, Run(t)))
  {
    hide Inv, Next, Read;
    if Read(s.g, s.threads[t].next) == s.threads[t].seen {
      TradeDone(s, t);
    } else {
      TradeAgain(s, t);
    }
  }

  lemma {:induction false} DrainedStep(s: State, t: nat)
    requires Inv(s) && t < |s.threads|
    requires s.threads[t].pc == Loading || (s.threads[t].pc == Draining && At(s.g, s.threads[t].held) == [])
    ensures Inv(Next(s, Run(t)))
  {
    hide Inv;
    var g, th := s.g, s.threads[t];
    Parts(s, t);
    if th.pc == Draining {
      QuietStep(s, t, g, th.(pc := if th.loaded then Peeking else Loading));
    } else {
      QuietStep(s, t, g, th.(loaded := true, limit := g.counter, next := 0, pc := Peeking));
    }
  }

  lemma {:induction false} CollectStep(s: State, t: nat)
    requires Inv(s) && t < |s.threads| && Collecting(s.threads[t].pc)
    ensures Inv(Next(s, Run(t)))
  {
    hide Inv, Next;
    var g, th := s.g, s.threads[t];
    if th.pc == Draining && At(g, th.held) != [] {
      TakeFrontStep(s, t);
    } else if th.pc == Draining || th.pc == Loading {
      DrainedStep(s, t);
    } else if th.pc == Trading {
      TradingStep(s, t);
    } else {
      PeekingStep(s, t);
    }
  }

  lemma {:induction false} LoopEnds(s: State, t: nat)
    requires Inv(s) && t < |s.threads| && s.threads[t].pc == Peeking && s.threads[t].next >= s.threads[t].limit
    ensures Inv(Next(s, Run(t)))
  {
    hide Inv, Exchange, At, Append, Read;
    Parts(s, t);
    QuietStep(s, t, s.g, s.threads[t].(pc := ReadingBack));
  }

  lemma {:induction false} SlotSkipped(s: State, t: nat)
    requires Inv(s) && t < |s.threads| && s.threads[t].pc == Peeking && s.threads[t].next < s.threads[t].limit
    requires Read(s.g, s.threads[t].next) == Null
    ensures Inv(Next(s, Run(t)))
  {
    hide Inv, Exchange, At, Append, Read;
    Parts(s, t);
    QuietStep(s, t, s.g, s.threads[t].(next := s.threads[t].next + 1));
  }

  lemma {:induction false} SlotSeen(s: State, t: nat)
    requires Inv(s) && t < |s.threads| && s.threads[t].pc == Peeking && s.threads[t].next < s.threads[t].limit
    requires Read(s.g, s.threads[t].next) != Null
    ensures Inv(Next(s, Run(t)))
  {
    hide Inv, Exchange, At, Append, Read;
    Parts(s, t);
    QuietStep(s, t, s.g, s.threads[t].(seen := Read(s.g, s.threads[t].next), pc := Trading));
  }

  lemma {:induction false} PeekingStep(s: State, t: nat)
    requires Inv(s) && t < |s.threads| && s.threads[t].pc == Peeking
    ensures Inv(Next(s, Run(t)))
  {
    hide Inv, Next, Read;
    if s.threads[t].next >= s.threads[t].limit {
      LoopEnds(s, t);
    } else if Read(s.g, s.threads[t].next) == Null {
      SlotSkipped(s, t);
    } else {
      SlotSeen(s, t);
    }
  }

  // ---------------------------------------------------------------- giving back

  lemma {:induction false} ReadingBackStep(s: State, t: nat)
    requires Inv(s) && t < |s.threads| && s.threads[t].pc == ReadingBack
    ensures Inv(Next(s, Run(t)))
  {
    hide Inv, Exchange;
    Parts(s, t);
    QuietStep(s, t, s.g, s.threads[t].(seen := Read(s.g, s.threads[t].index), pc := Returning));
  }

  lemma {:induction false} SubtractingStep(s: State, t: nat)
    requires Inv(s) && t < |s.threads| && s.threads[t].pc == Subtracting
    ensures Inv(Next(s, Run(t)))
  {
    hide Inv, Exchange, Read;
    Parts(s, t);
    QuietStep(s, t, s.g.(numItems := s.g.numItems - s.threads[t].popped), s.threads[t].(popped := 0, pc := Idle));
  }

  lemma {:induction false} ReturningStep(s: State, t: nat)
    requires Inv(s) && t < |s.threads| && s.threads[t].pc == Returning
    ensures Inv(Next(s, Run(t)))
  {
    hide Inv, Exchange;
    var g, th := s.g, s.threads[t];
    Parts(s, t);
    ExchangeParts(g, t, th.index, th.held);
    ExchangeStep(s, t, th.index, th.(held := th.seen, pc := if th.job.GetAll? then Subtracting else Idle));
  }

  // ---------------------------------------------------------------- all steps

  lemma {:induction false} NextKeepsInv(s: State, e: Event)
    requires Inv(s) && Enabled(s, e)
    ensures Inv(Next(s, e))
  {
    hide Inv, Act, Next, Called;
    var t, th := e.t, s.threads[e.t];
    if e.Call? {
      CallStep(s, t, e.job);
    } else if Initializing(th.pc) {
      if th.pc == Allocating { AllocatingStep(s, t); }
      else if th.pc == Indexing { IndexingStep(s, t); }
      else if th.pc == Installing { InstallingStep(s, t); }
      else { LinkingStep(s, t); }
    } else if Stealing(th.pc) {
      StealStep(s, t);
    } else if Filling(th.pc) {
      FillStep(s, t);
    } else if Collecting(th.pc) {
      CollectStep(s, t);
    } else {
      if th.pc == ReadingBack { ReadingBackStep(s, t); }
      else if th.pc == Returning { ReturningStep(s, t); }
      else { SubtractingStep(s, t); }
    }
  }

  lemma {:induction false} CallStep(s: State, t: nat, job: Job)
    requires Inv(s) && t < |s.threads| && s.threads[t].pc == Idle
    ensures Inv(Next(s, Call(t, job)))
  {
    hide Inv;
    Parts(s, t);
    QuietStep(s, t, s.g, Called(s.threads[t], job));
    assert State(s.g, s.threads[t := Called(s.threads[t], job)]) == Next(s, Call(t, job));
  }
}
