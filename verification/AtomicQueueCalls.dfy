/** The items of each producer, and how they follow from the calls that were made. */
module AtomicQueueCalls {
  import opened AtomicQueueProtocol
  import opened AtomicQueueInvariant
  import opened AtomicQueueSteps

  // ---------------------------------------------------------------- one producer's items

  /** The items of one producer, in order. */
  function Only(xs: seq<Item>, p: nat): seq<Item> {
    if xs == [] then []
    else Only(xs[..|xs| - 1], p) + if xs[|xs| - 1].producer == p then [xs[|xs| - 1]] else []
  }

  lemma {:induction false} OnlyConcat(xs: seq<Item>, ys: seq<Item>, p: nat)
    ensures Only(xs + ys, p) == Only(xs, p) + Only(ys, p)
    decreases |ys|
  {
    if ys == [] {
      assert xs + ys == xs;
    } else {
      OnlyConcat(xs, ys[..|ys| - 1], p);
      assert (xs + ys)[..|xs + ys| - 1] == xs + ys[..|ys| - 1];
    }
  }

  lemma {:induction false} OnlyNone()
    ensures forall p: nat :: Only([], p) == []
  {
  }

  lemma {:induction false} OneMore(xs: seq<Item>, x: Item, p: nat)
    ensures Only(xs + [x], p) == Only(xs, p) + if p == x.producer then [x] else []
  {
    assert (xs + [x])[..|xs + [x]| - 1] == xs;
  }

  lemma {:induction false} OnlyCounts(xs: seq<Item>, x: Item)
    ensures multiset(Only(xs, x.producer))[x] == multiset(xs)[x]
    decreases |xs|
  {
    if xs != [] {
      OnlyCounts(xs[..|xs| - 1], x);
      assert xs == xs[..|xs| - 1] + [xs[|xs| - 1]];
    }
  }

  // ---------------------------------------------------------------- what the calls ask for

  function Items(p: nat, values: seq<int>): seq<Item> {
    seq(|values|, i requires 0 <= i < |values| => Item(p, values[i]))
  }

  function Values(job: Job): seq<int> {
    match job
    case Push(v) => [v]
    case PushQueue(vs) => vs
    case GetAll => []
  }

  function AskedBy(e: Event, p: nat): seq<Item> {
    if e.Call? && e.t == p then Items(p, Values(e.job)) else []
  }

  /** The items that the calls of one thread ask to push, in the order of the calls. */
  function Asked(es: seq<Event>, p: nat): seq<Item> {
    if es == [] then [] else AskedBy(es[0], p) + Asked(es[1..], p)
  }

  /** The values the call under way has yet to put into the queue. */
  function Yet(th: Thread): seq<int> {
    if Initializing(th.pc) || Stealing(th.pc) then Values(th.job)
    else if Filling(th.pc) && th.pc != Counting then th.todo
    else []
  }

  function Left(s: State, p: nat): seq<Item> {
    if p < |s.threads| then Items(p, Yet(s.threads[p])) else []
  }

  // ---------------------------------------------------------------- one step

  lemma {:induction false} FirstItem(p: nat, values: seq<int>)
    requires values != []
    ensures Items(p, values) == [Item(p, values[0])] + Items(p, values[1..])
  {
  }

  /** Beginning a call keeps what it has to put; a step that does not fill puts nothing. */
  lemma {:induction false} PutsNothing(g: Shared, t: nat, th: Thread)
    requires th.pc != Idle && !Filling(th.pc)
    ensures Act(g, t, th).g.pushed == g.pushed && Yet(Act(g, t, th).th) == Yet(th)
  {
    hide Yet, Initialize, Steal, Collect, GiveBack;
    if Initializing(th.pc) {
      InitializePutsNothing(g, t, th);
    } else if Stealing(th.pc) {
      StealPutsNothing(g, t, th);
    } else if Collecting(th.pc) {
      CollectPutsNothing(g, t, th);
    } else {
      GivePutsNothing(g, t, th);
    }
  }

  lemma {:induction false} InitializePutsNothing(g: Shared, t: nat, th: Thread)
    requires Initializing(th.pc)
    ensures Initialize(g, t, th).g.pushed == g.pushed && Yet(Initialize(g, t, th).th) == Yet(th)
  {
  }

  lemma {:induction false} StealPutsNothing(g: Shared, t: nat, th: Thread)
    requires Stealing(th.pc)
    ensures Steal(g, t, th).g.pushed == g.pushed && Yet(Steal(g, t, th).th) == Yet(th)
  {
    hide Read, Exchange;
    ExchangePushed(g, t, th.index, Null);
  }

  lemma {:induction false} CollectPutsNothing(g: Shared, t: nat, th: Thread)
    requires Collecting(th.pc)
    ensures Collect(g, t, th).g.pushed == g.pushed && Yet(Collect(g, t, th).th) == Yet(th) == []
  {
    hide Read, At, Exchange, SetAt;
    ExchangePushed(g, t, th.next, th.held);
  }

  lemma {:induction false} GivePutsNothing(g: Shared, t: nat, th: Thread)
    requires Giving(th.pc)
    ensures GiveBack(g, t, th).g.pushed == g.pushed && Yet(GiveBack(g, t, th).th) == Yet(th) == []
  {
    hide Read, Exchange;
    ExchangePushed(g, t, th.index, th.held);
  }

  lemma {:induction false} ExchangePushed(g: Shared, t: nat, i: nat, mine: Ptr)
    ensures Exchange(g, t, i, mine).pushed == g.pushed
  {
  }

  /** A step that fills puts what it takes off the list, if anything. */
  lemma {:induction false} PutsOne(g: Shared, t: nat, th: Thread)
    requires Filling(th.pc) && JobOk(th)
    ensures var r := Act(g, t, th);
            if r.g.pushed == g.pushed then Yet(r.th) == Yet(th)
            else Yet(th) != [] && r.g.pushed == g.pushed + [Item(t, Yet(th)[0])] && Yet(r.th) == Yet(th)[1..]
  {
    hide At, SetAt;
  }

  /** What a producer has pushed and has yet to push grows exactly by what it is asked to. */
  lemma {:induction false} StepAsked(s: State, e: Event, p: nat)
    requires Inv(s) && Enabled(s, e)
    ensures Only(Next(s, e).g.pushed, p) + Left(Next(s, e), p) == Only(s.g.pushed, p) + Left(s, p) + AskedBy(e, p)
  {
    hide Inv, Act, Only, Yet, Items;
    var g, t, th := s.g, e.t, s.threads[e.t];
    if e.Call? {
      CallYet(th, e.job, p);
    } else if Filling(th.pc) {
      Parts(s, t);
      PutsOne(g, t, th);
      var r := Act(g, t, th);
      if r.g.pushed != g.pushed {
        OneMore(g.pushed, Item(t, Yet(th)[0]), p);
        FirstItem(p, Yet(th));
      }
    } else {
      PutsNothing(g, t, th);
    }
  }

  lemma {:induction false} CallYet(th: Thread, job: Job, p: nat)
    requires th.pc == Idle
    ensures Items(p, Yet(th)) == [] && Yet(Called(th, job)) == Values(job)
  {
  }

  // ---------------------------------------------------------------- sequences of calls

  lemma {:induction false} AskedConcat(a: seq<Event>, b: seq<Event>, p: nat)
    ensures Asked(a + b, p) == Asked(a, p) + Asked(b, p)
    decreases |a|
  {
    hide AskedBy;
    if a == [] {
      assert a + b == b;
    } else {
      assert (a + b)[1..] == a[1..] + b;
      AskedConcat(a[1..], b, p);
    }
  }

  lemma {:induction false} NothingAsked(es: seq<Event>, p: nat)
    requires forall k :: 0 <= k < |es| ==> es[k].Run? || es[k].job.GetAll?
    ensures Asked(es, p) == []
    decreases |es|
  {
    if es != [] {
      NothingAsked(es[1..], p);
    }
  }

  lemma {:induction false} RunConcat(s: State, a: seq<Event>, b: seq<Event>)
    requires IsRun(s, a) && IsRun(StateAfter(s, a), b)
    ensures IsRun(s, a + b) && StateAfter(s, a + b) == StateAfter(StateAfter(s, a), b)
    decreases |a|
  {
    hide Enabled, Next;
    if a == [] {
      assert a + b == b;
    } else {
      assert (a + b)[1..] == a[1..] + b && (a + b)[0] == a[0];
      RunConcat(Next(s, a[0]), a[1..], b);
    }
  }
}
