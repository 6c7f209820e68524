/**
 The multi-producer queue that keeps one inner queue per thread and works by swapping whole inner
 queues between the threads' slots, as a transition system.  Each step is one atomic action of one
 thread: a read of a shared word, a compare-and-swap, an atomic addition, or one operation on an
 inner queue the thread has taken for itself.
 */
module AtomicQueueProtocol {

  const MAX_THREADS: nat := 100

  /** A pointer to an inner queue. */
  datatype Ptr = Null | To(id: nat)

  datatype Item = Item(producer: nat, value: int)

  datatype Job = Push(value: int) | PushQueue(values: seq<int>) | GetAll

  /** The next action of a thread. */
  datatype Pc =
    | Idle
    | Allocating | Indexing | Installing | Linking
    | Reading | Swapping
    | Putting | Counting
    | Announcing | Moving
    | Draining | Loading | Peeking | Trading
    | ReadingBack | Returning | Subtracting

  /**
   A thread and its local variables: its thread-local slot pointer (as an index), the index it drew,
   the inner queue it has taken, the word it read last, the values it has yet to push, the number of
   items it has taken out and not yet subtracted, and the loop over the slots.
   */
  datatype Thread = Thread(pc: Pc, job: Job, linked: bool, index: nat, held: Ptr, seen: Ptr,
                           todo: seq<int>, popped: nat, loaded: bool, limit: nat, next: nat)

  datatype Holder = InSlot(i: nat) | Taken(t: nat)

  /**
   The shared words and the inner queues.  The last three fields only record history: who holds each
   inner queue, everything pushed so far and everything output so far.
   */
  datatype Shared = Shared(slots: seq<Ptr>, counter: nat, numItems: int, queues: seq<seq<Item>>,
                           holder: seq<Holder>, pushed: seq<Item>, output: seq<Item>)

  datatype State = State(g: Shared, threads: seq<Thread>)

  datatype Event = Call(t: nat, job: Job) | Run(t: nat)

  // ---------------------------------------------------------------- shared memory

  function Read(g: Shared, i: nat): Ptr {
    if i < |g.slots| then g.slots[i] else Null
  }

  function Store(g: Shared, i: nat, p: Ptr): (r: Shared)
    ensures r == g.(slots := r.slots) && |r.slots| == |g.slots|
  {
    if i < |g.slots| then g.(slots := g.slots[i := p]) else g
  }

  /** What an inner queue holds. */
  function At(g: Shared, p: Ptr): seq<Item> {
    if p.To? && p.id < |g.queues| then g.queues[p.id] else []
  }

  function SetAt(g: Shared, p: Ptr, items: seq<Item>): (r: Shared)
    ensures r == g.(queues := r.queues) && |r.queues| == |g.queues|
  {
    if p.To? && p.id < |g.queues| then g.(queues := g.queues[p.id := items]) else g
  }

  function Assign(g: Shared, p: Ptr, h: Holder): (r: Shared)
    ensures r == g.(holder := r.holder) && |r.holder| == |g.holder|
  {
    if p.To? && p.id < |g.holder| then g.(holder := g.holder[p.id := h]) else g
  }

  /** Slot `i` gets what the thread has taken, and the thread gets what slot `i` had. */
  function Exchange(g: Shared, t: nat, i: nat, mine: Ptr): Shared {
    Assign(Assign(Store(g, i, mine), Read(g, i), Taken(t)), mine, InSlot(i))
  }

  // ---------------------------------------------------------------- the actions

  datatype After = After(g: Shared, th: Thread)

  /** A thread's first use: a new inner queue, an index, the slot, the thread-local pointer. */
  function Initialize(g: Shared, t: nat, th: Thread): After {
    match th.pc
    case Allocating =>
      After(g.(queues := g.queues + [[]], holder := g.holder + [Taken(t)]), th.(held := To(|g.queues|), pc := Indexing))
    case Indexing =>
      After(g.(counter := g.counter + 1), th.(index := g.counter, pc := Installing))
    case Installing =>
      After(Assign(Store(g, th.index, th.held), th.held, InSlot(th.index)), th.(held := Null, pc := Linking))
    case _ =>
      After(g, th.(linked := true, pc := Reading))
  }

  /** Where a thread goes on with the inner queue it has just taken. */
  function Begin(th: Thread): Thread {
    match th.job
    case Push(v) => th.(todo := [v], pc := Putting)
    case PushQueue(vs) => th.(todo := vs, pc := Announcing)
    case GetAll => th.(popped := 0, loaded := false, pc := Draining)
  }

  /** Take the thread's own inner queue, leaving null: read the slot, then compare and swap. */
  function Steal(g: Shared, t: nat, th: Thread): After {
    if th.pc == Reading then
      After(g, th.(seen := Read(g, th.index), pc := Swapping))
    else if Read(g, th.index) == th.seen then
      After(Exchange(g, t, th.index, Null), Begin(th.(held := th.seen)))
    else
      After(g, th.(pc := Reading))
  }

  function Append(g: Shared, p: Ptr, x: Item): Shared {
    SetAt(g, p, At(g, p) + [x]).(pushed := g.pushed + [x])
  }

  /** Push one value and count it; or count a whole queue and then push its values. */
  function Fill(g: Shared, t: nat, th: Thread): After {
    match th.pc
    case Putting =>
      if th.todo == [] then After(g, th.(pc := Counting))
      else After(Append(g, th.held, Item(t, th.todo[0])), th.(todo := th.todo[1..], pc := Counting))
    case Counting =>
      After(g.(numItems := g.numItems + 1), th.(pc := ReadingBack))
    case Announcing =>
      After(g.(numItems := g.numItems + |th.todo|), th.(pc := Moving))
    case _ =>
      if th.todo == [] then After(g, th.(pc := ReadingBack))
      else After(Append(g, th.held, Item(t, th.todo[0])), th.(todo := th.todo[1..]))
  }

  function TakeFront(g: Shared, p: Ptr): Shared
    requires At(g, p) != []
  {
    SetAt(g, p, At(g, p)[1..]).(output := g.output + [At(g, p)[0]])
  }

  /** Empty the queue in hand, then trade the empty queue for each slot's queue and empty that. */
  function Collect(g: Shared, t: nat, th: Thread): After {
    match th.pc
    case Draining =>
      if At(g, th.held) == [] then After(g, th.(pc := if th.loaded then Peeking else Loading))
      else After(TakeFront(g, th.held), th.(popped := th.popped + 1))
    case Loading =>
      After(g, th.(loaded := true, limit := g.counter, next := 0, pc := Peeking))
    case Peeking =>
      if th.next >= th.limit then After(g, th.(pc := ReadingBack))
      else if Read(g, th.next) == Null then After(g, th.(next := th.next + 1))
      else After(g, th.(seen := Read(g, th.next), pc := Trading))
    case _ =>
      if Read(g, th.next) == th.seen then
        After(Exchange(g, t, th.next, th.held), th.(held := th.seen, next := th.next + 1, pc := Draining))
      else After(g, th.(pc := Peeking))
  }

  /** Put the inner queue back into the thread's own slot; a collector then subtracts what it took. */
  function GiveBack(g: Shared, t: nat, th: Thread): After {
    if th.pc == ReadingBack then
      After(g, th.(seen := Read(g, th.index), pc := Returning))
    else if th.pc == Subtracting then
      After(g.(numItems := g.numItems - th.popped), th.(popped := 0, pc := Idle))
    else if Read(g, th.index) == th.seen then
      After(Exchange(g, t, th.index, th.held), th.(held := th.seen, pc := if th.job.GetAll? then Subtracting else Idle))
    else
      After(g, th.(pc := ReadingBack))
  }

  predicate Initializing(pc: Pc) { pc == Allocating || pc == Indexing || pc == Installing || pc == Linking }

  predicate Stealing(pc: Pc) { pc == Reading || pc == Swapping }

  predicate Filling(pc: Pc) { pc == Putting || pc == Counting || pc == Announcing || pc == Moving }

  predicate Collecting(pc: Pc) { pc == Draining || pc == Loading || pc == Peeking || pc == Trading }

  predicate Giving(pc: Pc) { pc == ReadingBack || pc == Returning || pc == Subtracting }

  function Act(g: Shared, t: nat, th: Thread): After
    requires th.pc != Idle
  {
    if Initializing(th.pc) then Initialize(g, t, th)
    else if Stealing(th.pc) then Steal(g, t, th)
    else if Filling(th.pc) then Fill(g, t, th)
    else if Collecting(th.pc) then Collect(g, t, th)
    else GiveBack(g, t, th)
  }

  /** A call begins with the thread's own slot, which the first call has to set up. */
  function Called(th: Thread, job: Job): Thread {
    th.(job := job, pc := if th.linked then Reading else Allocating)
  }

  // ---------------------------------------------------------------- runs

  predicate Enabled(s: State, e: Event) {
    e.t < |s.threads| && (e.Call? <==> s.threads[e.t].pc == Idle)
  }

  function Next(s: State, e: Event): (r: State)
    requires Enabled(s, e)
    ensures |r.threads| == |s.threads|
  {
    if e.Call? then s.(threads := s.threads[e.t := Called(s.threads[e.t], e.job)])
    else
      var r := Act(s.g, e.t, s.threads[e.t]);
      State(r.g, s.threads[e.t := r.th])
  }

  function NewThread(): Thread {
    Thread(Idle, GetAll, false, 0, Null, Null, [], 0, false, 0, 0)
  }

  /** An empty queue and `n` threads that have not used it yet. */
  function Initial(n: nat): State {
    State(Shared(seq(MAX_THREADS, i => Null), 0, 0, [], [], [], []), seq(n, i => NewThread()))
  }

  predicate IsRun(s: State, es: seq<Event>)
    decreases |es|
  {
    es == [] || (Enabled(s, es[0]) && IsRun(Next(s, es[0]), es[1..]))
  }

  function StateAfter(s: State, es: seq<Event>): (r: State)
    requires IsRun(s, es)
    ensures |r.threads| == |s.threads|
    decreases |es|
  {
    if es == [] then s else StateAfter(Next(s, es[0]), es[1..])
  }
}
