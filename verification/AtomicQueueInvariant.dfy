/** The invariant of the swapping queue and how its basic changes to shared memory keep it. */
module AtomicQueueInvariant {
  import opened AtomicQueueProtocol

  // ---------------------------------------------------------------- sums and contents

  function Sum(xs: seq<int>): int {
    if xs == [] then 0 else Sum(xs[..|xs| - 1]) + xs[|xs| - 1]
  }

  lemma {:induction false} SumUpdate(xs: seq<int>, i: nat, v: int)
    requires i < |xs|
    ensures Sum(xs[i := v]) == Sum(xs) - xs[i] + v
    decreases |xs|
  {
    var ys := xs[i := v];
    if i == |xs| - 1 {
      assert ys[..|ys| - 1] == xs[..|xs| - 1];
    } else {
      SumUpdate(xs[..|xs| - 1], i, v);
      assert ys[..|ys| - 1] == xs[..|xs| - 1][i := v];
    }
  }

  lemma {:induction false} SumOfBits(xs: seq<int>)
    requires forall i :: 0 <= i < |xs| ==> 0 <= xs[i] <= 1
    ensures 0 <= Sum(xs) <= |xs|
    decreases |xs|
  {
    if xs != [] {
      SumOfBits(xs[..|xs| - 1]);
    }
  }

  lemma {:induction false} SumAtLeast(xs: seq<int>, i: nat)
    requires i < |xs| && forall j :: 0 <= j < |xs| ==> xs[j] >= 0
    ensures Sum(xs) >= xs[i]
  {
    var ys := xs[i := 0];
    SumUpdate(xs, i, 0);
    SumNotNegative(ys);
  }

  lemma {:induction false} SumNotNegative(xs: seq<int>)
    requires forall i :: 0 <= i < |xs| ==> xs[i] >= 0
    ensures Sum(xs) >= 0
    decreases |xs|
  {
    if xs != [] {
      SumNotNegative(xs[..|xs| - 1]);
    }
  }

  lemma {:induction false} SumZero(xs: seq<int>)
    requires forall i :: 0 <= i < |xs| ==> xs[i] == 0
    ensures Sum(xs) == 0
    decreases |xs|
  {
    if xs != [] {
      SumZero(xs[..|xs| - 1]);
    }
  }

  /** Everything in the inner queues. */
  function Flat(qs: seq<seq<Item>>): seq<Item> {
    if qs == [] then [] else Flat(qs[..|qs| - 1]) + qs[|qs| - 1]
  }

  lemma {:induction false} FlatUpdate(qs: seq<seq<Item>>, k: nat, q: seq<Item>)
    requires k < |qs|
    ensures multiset(Flat(qs[k := q])) + multiset(qs[k]) == multiset(Flat(qs)) + multiset(q)
    decreases |qs|
  {
    hide Flat;
    var rs, m := qs[k := q], |qs| - 1;
    FlatLast(qs);
    FlatLast(rs);
    if k == m {
      assert rs[..m] == qs[..m];
    } else {
      FlatUpdate(qs[..m], k, q);
      assert rs[..m] == qs[..m][k := q];
      Swapped(multiset(Flat(rs[..m])), multiset(qs[m]), multiset(qs[k]), multiset(Flat(qs[..m])), multiset(q));
    }
  }

  lemma {:induction false} Swapped(a: multiset<Item>, l: multiset<Item>, b: multiset<Item>, c: multiset<Item>, d: multiset<Item>)
    requires a + b == c + d
    ensures a + l + b == c + l + d
  {
    assert a + l + b == (a + b) + l;
    assert c + l + d == (c + d) + l;
  }

  lemma {:induction false} FlatLast(qs: seq<seq<Item>>)
    requires qs != []
    ensures multiset(Flat(qs)) == multiset(Flat(qs[..|qs| - 1])) + multiset(qs[|qs| - 1])
  {
  }

  // ---------------------------------------------------------------- the invariant

  /** The thread has drawn an index. */
  predicate Indexed(th: Thread) {
    th.linked || th.pc == Installing || th.pc == Linking
  }

  /** The thread has taken its own inner queue out of its slot. */
  predicate Away(pc: Pc) {
    Filling(pc) || Collecting(pc) || pc == ReadingBack || pc == Returning
  }

  predicate Carries(pc: Pc) {
    Away(pc) || pc == Indexing || pc == Installing
  }

  predicate IsCollector(th: Thread) {
    Collecting(th.pc) || (Giving(th.pc) && th.job.GetAll?)
  }

  /** What the thread has taken must be empty here. */
  predicate EmptyHanded(th: Thread) {
    || th.pc == Indexing || th.pc == Installing || th.pc == Loading || th.pc == Peeking || th.pc == Trading
    || ((th.pc == ReadingBack || th.pc == Returning) && th.job.GetAll?)
  }

  predicate JobOk(th: Thread) {
    && (th.pc == Putting || th.pc == Counting ==> th.job.Push?)
    && (th.pc == Announcing || th.pc == Moving ==> th.job.PushQueue?)
    && (Collecting(th.pc) || th.pc == Subtracting ==> th.job.GetAll?)
    && (th.pc == Putting ==> |th.todo| == 1)
    && (th.pc == Trading ==> th.seen.To?) && (th.pc == Returning ==> th.seen == Null)
    && (th.pc == Peeking || th.pc == Trading ==> th.loaded)
  }

  predicate LoopOk(g: Shared, th: Thread) {
    && (th.pc == Peeking || th.pc == Trading || (th.pc == Draining && th.loaded) ==> th.next <= th.limit <= g.counter)
    && (th.pc == Trading ==> th.next < th.limit)
  }

  predicate SlotOk(g: Shared, th: Thread) {
    && (Initializing(th.pc) ==> !th.linked) && (th.pc != Idle && !Initializing(th.pc) ==> th.linked)
    && (Indexed(th) ==> th.index < g.counter)
    && (Indexed(th) ==> (Read(g, th.index) == Null <==> Away(th.pc) || th.pc == Installing))
  }

  predicate HandOk(g: Shared, th: Thread) {
    && (th.held.To? <==> Carries(th.pc))
    && (th.pc == Counting ==> At(g, th.held) != [])
    && (EmptyHanded(th) ==> At(g, th.held) == [])
  }

  predicate LocalOk(g: Shared, th: Thread) {
    JobOk(th) && LoopOk(g, th) && SlotOk(g, th) && HandOk(g, th)
  }

  predicate AllOk(g: Shared, ts: seq<Thread>) {
    forall u :: 0 <= u < |ts| ==> LocalOk(g, ts[u])
  }

  predicate Shape(g: Shared) {
    && |g.slots| == MAX_THREADS && |g.holder| == |g.queues|
    && (forall i :: g.counter <= i < |g.slots| ==> g.slots[i] == Null)
  }

  predicate Distinct(ts: seq<Thread>) {
    forall u, v :: 0 <= u < v < |ts| && Indexed(ts[u]) && Indexed(ts[v]) ==> ts[u].index != ts[v].index
  }

  /** Every inner queue is in exactly the place its holder says, and nowhere else. */
  predicate Held(g: Shared, ts: seq<Thread>) {
    && |g.holder| == |g.queues|
    && (forall i :: 0 <= i < |g.slots| && g.slots[i].To? ==>
          g.slots[i].id < |g.queues| && g.holder[g.slots[i].id] == InSlot(i))
    && (forall t :: 0 <= t < |ts| && ts[t].held.To? ==>
          ts[t].held.id < |g.queues| && g.holder[ts[t].held.id] == Taken(t))
    && (forall k :: 0 <= k < |g.queues| ==> InPlace(g, ts, k))
  }

  predicate InPlace(g: Shared, ts: seq<Thread>, k: nat)
    requires k < |g.holder|
  {
    match g.holder[k]
    case InSlot(i) => i < |g.slots| && g.slots[i] == To(k)
    case Taken(t) => t < |ts| && ts[t].held == To(k)
  }

  /** What the count of items has yet to be told about the thread's work. */
  function Due(th: Thread): int {
    if th.pc == Counting then -1
    else if th.pc == Moving then |th.todo|
    else if IsCollector(th) then th.popped
    else 0
  }

  function Weights(g: Shared, ts: seq<Thread>): (r: seq<int>)
    ensures |r| == |ts|
  {
    seq(|ts|, u requires 0 <= u < |ts| => |At(g, ts[u].held)| + Due(ts[u]))
  }

  /** The number of items in each slot's inner queue. */
  function Visible(g: Shared): (r: seq<int>)
    ensures |r| == |g.slots|
  {
    seq(|g.slots|, i requires 0 <= i < |g.slots| => |At(g, g.slots[i])|)
  }

  function Drawn(ts: seq<Thread>): (r: seq<int>)
    ensures |r| == |ts|
  {
    seq(|ts|, u requires 0 <= u < |ts| => if Indexed(ts[u]) then 1 else 0)
  }

  function Dues(ts: seq<Thread>): (r: seq<int>)
    ensures |r| == |ts|
  {
    seq(|ts|, u requires 0 <= u < |ts| => Due(ts[u]))
  }

  /** The count of items, once by where they are and once by what was pushed and output. */
  predicate Counted(g: Shared, ts: seq<Thread>) {
    && g.numItems == Sum(Visible(g)) + Sum(Weights(g, ts))
    && g.numItems == |g.pushed| - |g.output| + Sum(Dues(ts))
  }

  predicate Conserved(g: Shared) {
    multiset(g.pushed) == multiset(g.output) + multiset(Flat(g.queues))
  }

  predicate Inv(s: State) {
    && |s.threads| <= MAX_THREADS && Shape(s.g) && s.g.counter == Sum(Drawn(s.threads))
    && AllOk(s.g, s.threads) && Distinct(s.threads) && Held(s.g, s.threads)
    && Counted(s.g, s.threads) && Conserved(s.g)
  }

  // ---------------------------------------------------------------- one thread changes

  lemma {:induction false} OneWeight(g: Shared, ts: seq<Thread>, g': Shared, t: nat, th': Thread)
    requires t < |ts|
    requires forall u :: 0 <= u < |ts| && u != t ==> At(g', ts[u].held) == At(g, ts[u].held)
    ensures Sum(Weights(g', ts[t := th'])) == Sum(Weights(g, ts)) - |At(g, ts[t].held)| - Due(ts[t]) + |At(g', th'.held)| + Due(th')
    ensures Sum(Dues(ts[t := th'])) == Sum(Dues(ts)) - Due(ts[t]) + Due(th')
  {
    hide At, Due, Sum;
    SumUpdate(Dues(ts), t, Due(th'));
    assert Dues(ts[t := th']) == Dues(ts)[t := Due(th')];
    var xs := Weights(g, ts);
    SumUpdate(xs, t, |At(g', th'.held)| + Due(th'));
    assert Weights(g', ts[t := th']) == xs[t := |At(g', th'.held)| + Due(th')];
  }

  lemma {:induction false} OneDrawn(ts: seq<Thread>, t: nat, th': Thread)
    requires t < |ts|
    ensures Indexed(th') == Indexed(ts[t]) ==> Sum(Drawn(ts[t := th'])) == Sum(Drawn(ts))
    ensures Indexed(th') && !Indexed(ts[t]) ==> Sum(Drawn(ts[t := th'])) == Sum(Drawn(ts)) + 1
  {
    hide Indexed, Sum;
    var v := if Indexed(th') then 1 else 0;
    SumUpdate(Drawn(ts), t, v);
    assert Drawn(ts[t := th']) == Drawn(ts)[t := v];
  }

  lemma {:induction false} StillDistinct(ts: seq<Thread>, t: nat, th': Thread)
    requires Distinct(ts) && t < |ts| && (Indexed(th') ==> Indexed(ts[t]) && th'.index == ts[t].index)
    ensures Distinct(ts[t := th'])
  {
    hide Indexed;
  }

  lemma {:induction false} OtherIndex(ts: seq<Thread>, t: nat, u: nat)
    requires Distinct(ts) && t < |ts| && u < |ts| && t != u && Indexed(ts[t]) && Indexed(ts[u])
    ensures ts[t].index != ts[u].index
  {
    hide Indexed;
    if t < u {
      assert ts[t].index != ts[u].index;
    }
  }

  /** A thread is content as long as its slot stays null or not null and its queue keeps its items. */
  lemma {:induction false} StaysOk(g: Shared, g': Shared, th: Thread)
    requires LocalOk(g, th) && g'.counter >= g.counter && At(g', th.held) == At(g, th.held)
    requires Indexed(th) ==> (Read(g', th.index) == Null <==> Read(g, th.index) == Null)
    ensures LocalOk(g', th)
  {
    hide Indexed, Away, Read, At, Carries, EmptyHanded;
  }

  lemma {:induction false} OneOk(g: Shared, g': Shared, ts: seq<Thread>, t: nat, th': Thread)
    requires AllOk(g, ts) && t < |ts| && g'.counter >= g.counter && LocalOk(g', th')
    requires forall u :: 0 <= u < |ts| && u != t ==>
               At(g', ts[u].held) == At(g, ts[u].held)
               && (Indexed(ts[u]) ==> (Read(g', ts[u].index) == Null <==> Read(g, ts[u].index) == Null))
    ensures AllOk(g', ts[t := th'])
  {
    hide LocalOk, Indexed, Read, At;
    var ts' := ts[t := th'];
    forall u | 0 <= u < |ts| ensures LocalOk(g', ts'[u]) {
      if u != t {
        StaysOk(g, g', ts[u]);
      }
    }
  }

  // ---------------------------------------------------------------- inner queues change hands

  lemma {:induction false} StillHeld(g: Shared, ts: seq<Thread>, t: nat, th': Thread)
    requires Held(g, ts) && t < |ts| && th'.held == ts[t].held
    ensures Held(g, ts[t := th'])
  {
    var ts' := ts[t := th'];
    forall k | 0 <= k < |g.queues| ensures InPlace(g, ts', k) {
      assert InPlace(g, ts, k);
    }
  }

  /** A holder is alone: no other place refers to the same inner queue. */
  lemma {:induction false} Alone(g: Shared, ts: seq<Thread>, t: nat)
    requires Held(g, ts) && t < |ts| && ts[t].held.To?
    ensures ts[t].held.id < |g.queues|
    ensures forall u :: 0 <= u < |ts| && u != t ==> ts[u].held != ts[t].held
    ensures forall i :: 0 <= i < |g.slots| ==> g.slots[i] != ts[t].held
  {
    hide InPlace;
  }

  lemma {:induction false} ExchangeParts(g: Shared, t: nat, i: nat, mine: Ptr)
    requires i < |g.slots|
    ensures Exchange(g, t, i, mine).slots == g.slots[i := mine]
    ensures Exchange(g, t, i, mine) == g.(slots := g.slots[i := mine], holder := Exchange(g, t, i, mine).holder)
    ensures |Exchange(g, t, i, mine).holder| == |g.holder|
  {
  }

  lemma {:induction false} ExchangeHolder(g: Shared, t: nat, i: nat, mine: Ptr, k: nat)
    requires i < |g.slots| && k < |g.holder|
    ensures Exchange(g, t, i, mine).holder[k] ==
            if mine == To(k) then InSlot(i) else if g.slots[i] == To(k) then Taken(t) else g.holder[k]
  {
  }

  lemma {:induction false} ExchangeHeld(g: Shared, ts: seq<Thread>, t: nat, i: nat, th': Thread)
    requires Held(g, ts) && t < |ts| && i < |g.slots| && th'.held == g.slots[i]
    ensures Held(Exchange(g, t, i, ts[t].held), ts[t := th'])
  {
    hide Exchange, InPlace;
    var mine := ts[t].held;
    var g' := Exchange(g, t, i, mine);
    var ts' := ts[t := th'];
    ExchangeParts(g, t, i, mine);
    forall j | 0 <= j < |g'.slots| && g'.slots[j].To?
      ensures g'.slots[j].id < |g'.queues| && g'.holder[g'.slots[j].id] == InSlot(j)
    {
      ExchangeHolder(g, t, i, mine, g'.slots[j].id);
    }
    forall u | 0 <= u < |ts'| && ts'[u].held.To?
      ensures ts'[u].held.id < |g'.queues| && g'.holder[ts'[u].held.id] == Taken(u)
    {
      ExchangeHolder(g, t, i, mine, ts'[u].held.id);
    }
    forall k | 0 <= k < |g'.queues| ensures InPlace(g', ts', k) {
      assert InPlace(g, ts, k);
      ExchangePlace(g, ts, t, i, th', k);
    }
  }

  lemma {:induction false} ExchangePlace(g: Shared, ts: seq<Thread>, t: nat, i: nat, th': Thread, k: nat)
    requires t < |ts| && i < |g.slots| && th'.held == g.slots[i] && k < |g.holder| && InPlace(g, ts, k)
    ensures |Exchange(g, t, i, ts[t].held).holder| == |g.holder|
    ensures InPlace(Exchange(g, t, i, ts[t].held), ts[t := th'], k)
  {
    hide Exchange;
    ExchangeParts(g, t, i, ts[t].held);
    ExchangeHolder(g, t, i, ts[t].held, k);
  }

  lemma {:induction false} ExchangeVisible(g: Shared, t: nat, i: nat, mine: Ptr)
    requires i < |g.slots|
    ensures Sum(Visible(Exchange(g, t, i, mine))) == Sum(Visible(g)) - |At(g, g.slots[i])| + |At(g, mine)|
  {
    hide Sum, Exchange;
    var g' := Exchange(g, t, i, mine);
    ExchangeParts(g, t, i, mine);
    SumUpdate(Visible(g), i, |At(g, mine)|);
    assert Visible(g') == Visible(g)[i := |At(g, mine)|];
  }

  // ---------------------------------------------------------------- an inner queue's items change

  lemma {:induction false} SetAtParts(g: Shared, p: Ptr, items: seq<Item>, q: Ptr)
    ensures p.To? && p.id < |g.queues| ==> At(SetAt(g, p, items), p) == items
    ensures q != p ==> At(SetAt(g, p, items), q) == At(g, q)
  {
  }

  lemma {:induction false} SetAtHeld(g: Shared, ts: seq<Thread>, p: Ptr, items: seq<Item>)
    requires Held(g, ts)
    ensures Held(SetAt(g, p, items), ts)
  {
    forall k | 0 <= k < |g.queues| ensures InPlace(SetAt(g, p, items), ts, k) {
      assert InPlace(g, ts, k);
    }
  }

  lemma {:induction false} SetAtVisible(g: Shared, ts: seq<Thread>, t: nat, items: seq<Item>)
    requires Held(g, ts) && t < |ts| && ts[t].held.To?
    ensures Visible(SetAt(g, ts[t].held, items)) == Visible(g)
    ensures forall u :: 0 <= u < |ts| && u != t ==> At(SetAt(g, ts[t].held, items), ts[u].held) == At(g, ts[u].held)
    ensures At(SetAt(g, ts[t].held, items), ts[t].held) == items
  {
    hide Held, SetAt, At;
    Alone(g, ts, t);
    var g' := SetAt(g, ts[t].held, items);
    forall q ensures q != ts[t].held ==> At(g', q) == At(g, q) {
      SetAtParts(g, ts[t].held, items, q);
    }
    SetAtParts(g, ts[t].held, items, Null);
    assert forall i :: 0 <= i < |g.slots| ==> Visible(g')[i] == Visible(g)[i];
  }
}
