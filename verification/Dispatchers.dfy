/**
 The dispatcher: one thread that runs tasks from two priority queues, one ordered by due date for
 tasks that are not due yet and one ordered by priority for tasks that are.
 */
module Dispatchers {
  import opened Options

  datatype DispatcherState = DispatcherRunning | DispatcherStopping | DispatcherStopped

  /** What the main loop does with the next task. */
  datatype Choice = Runs | Sleeps | Drops

  class Task {
    const priority: int
    const isDaemonTask: bool
    // Must complete during shutdown.
    const blockShutdown: bool
    var waketime: nat
    var dead: bool

    constructor (priority: int, waketime: nat, isDaemon: bool, mustComplete: bool)
      ensures this.priority == priority && this.waketime == waketime && !dead
      ensures isDaemonTask == isDaemon && blockShutdown == mustComplete
    {
      this.priority, this.waketime, this.dead := priority, waketime, false;
      isDaemonTask, blockShutdown := isDaemon, mustComplete;
    }
  }

  // ---------------------------------------------------------------- the two orders

  /** A task that no other is due before. */
  predicate Earliest(q: seq<Task>, i: nat)
    reads q
  {
    i < |q| && forall j :: 0 <= j < |q| ==> q[i].waketime <= q[j].waketime
  }

  /** A task that none has a smaller priority number than. */
  predicate MostUrgent(q: seq<Task>, i: nat) {
    i < |q| && forall j :: 0 <= j < |q| ==> q[i].priority <= q[j].priority
  }

  lemma {:induction false} SomeEarliest(q: seq<Task>)
    requires q != []
    ensures exists i: nat :: Earliest(q, i)
    decreases |q|
  {
    if |q| == 1 {
      assert Earliest(q, 0);
    } else {
      SomeEarliest(q[1..]);
      var i: nat :| Earliest(q[1..], i);
      assert forall j :: 1 <= j < |q| ==> q[j] == q[1..][j - 1];
      assert Earliest(q, if q[0].waketime <= q[i + 1].waketime then 0 else i + 1);
    }
  }

  lemma {:induction false} SomeUrgent(q: seq<Task>)
    requires q != []
    ensures exists i: nat :: MostUrgent(q, i)
    decreases |q|
  {
    if |q| == 1 {
      assert MostUrgent(q, 0);
    } else {
      SomeUrgent(q[1..]);
      var i: nat :| MostUrgent(q[1..], i);
      assert forall j :: 1 <= j < |q| ==> q[j] == q[1..][j - 1];
      assert MostUrgent(q, if q[0].priority <= q[i + 1].priority then 0 else i + 1);
    }
  }

  function Without(q: seq<Task>, i: nat): (r: seq<Task>)
    requires i < |q|
    ensures |r| == |q| - 1
  {
    q[..i] + q[i + 1..]
  }

  predicate Within(q: seq<Task>, whole: seq<Task>) {
    forall t :: t in q ==> t in whole
  }

  lemma {:induction false} WithinSelf(q: seq<Task>)
    ensures Within(q, q)
  {
  }

  lemma {:induction false} WithoutOne(q: seq<Task>, i: nat)
    requires i < |q|
    ensures multiset(q) == multiset(Without(q, i)) + multiset{q[i]}
    ensures Within(Without(q, i), q)
  {
    assert q == q[..i] + [q[i]] + q[i + 1..];
  }

  // ---------------------------------------------------------------- accounting

  predicate Distinct(all: seq<Task>) {
    forall i, j :: 0 <= i < j < |all| ==> all[i] != all[j]
  }

  lemma {:induction false} DistinctCount(all: seq<Task>, t: Task)
    requires Distinct(all)
    ensures multiset(all)[t] == if t in all then 1 else 0
    decreases |all|
  {
    if all != [] {
      DistinctCount(all[1..], t);
      assert all == [all[0]] + all[1..];
    }
  }

  /** Everything scheduled is in one of the two queues or among the rest, and nothing else is. */
  predicate Accounted(all: seq<Task>, ready: seq<Task>, future: seq<Task>, rest: seq<Task>) {
    multiset(all) == multiset(ready) + multiset(future) + multiset(rest)
  }

  lemma {:induction false} AccountNew(all: seq<Task>, ready: seq<Task>, future: seq<Task>, rest: seq<Task>, t: Task)
    requires Accounted(all, ready, future, rest)
    ensures Accounted(all + [t], ready, future + [t], rest)
  {
  }

  /** The two queues together hold the same tasks as two others. */
  predicate SameTasks(ready: seq<Task>, future: seq<Task>, ready': seq<Task>, future': seq<Task>) {
    multiset(ready) + multiset(future) == multiset(ready') + multiset(future')
  }

  lemma {:induction false} SameSelf(ready: seq<Task>, future: seq<Task>)
    ensures SameTasks(ready, future, ready, future)
  {
  }

  lemma {:induction false} SameMoved(ready: seq<Task>, future: seq<Task>, ready': seq<Task>, future': seq<Task>, i: nat)
    requires SameTasks(ready, future, ready', future') && i < |future'|
    ensures SameTasks(ready, future, ready' + [future'[i]], Without(future', i))
  {
    WithoutOne(future', i);
  }

  lemma {:induction false} SameIn(ready: seq<Task>, future: seq<Task>, ready': seq<Task>, future': seq<Task>, t: Task)
    requires SameTasks(ready, future, ready', future')
    ensures t in ready || t in future <==> t in ready' || t in future'
  {
    var m := multiset(ready) + multiset(future);
    assert t in ready || t in future <==> m[t] > 0;
    assert t in ready' || t in future' <==> m[t] > 0;
  }

  /** Taking one task out of one of the queues. */
  predicate TakenFrom(ready: seq<Task>, future: seq<Task>, task: Task, ready': seq<Task>, future': seq<Task>) {
    multiset(ready) + multiset(future) == multiset(ready') + multiset(future') + multiset{task}
  }

  lemma {:induction false} TakenAfterMove(ready: seq<Task>, future: seq<Task>, ready1: seq<Task>, future1: seq<Task>, task: Task, ready2: seq<Task>, future2: seq<Task>)
    requires SameTasks(ready, future, ready1, future1) && TakenFrom(ready1, future1, task, ready2, future2)
    ensures TakenFrom(ready, future, task, ready2, future2)
  {
  }

  lemma {:induction false} TakenUrgent(ready: seq<Task>, future: seq<Task>, i: nat)
    requires i < |ready|
    ensures TakenFrom(ready, future, ready[i], Without(ready, i), future)
  {
    WithoutOne(ready, i);
  }

  lemma {:induction false} TakenDue(ready: seq<Task>, future: seq<Task>, i: nat)
    requires i < |future|
    ensures TakenFrom(ready, future, future[i], ready, Without(future, i))
  {
    WithoutOne(future, i);
  }

  lemma {:induction false} AccountReady(all: seq<Task>, ready: seq<Task>, future: seq<Task>, rest: seq<Task>, i: nat)
    requires Accounted(all, ready, future, rest) && i < |future|
    ensures Accounted(all, ready + [future[i]], Without(future, i), rest)
  {
    WithoutOne(future, i);
  }

  /** A task leaves the ready queue for the rest. */
  lemma {:induction false} AccountUrgent(all: seq<Task>, ready: seq<Task>, future: seq<Task>, rest: seq<Task>, i: nat, rest': seq<Task>)
    requires Accounted(all, ready, future, rest) && i < |ready| && multiset(rest') == multiset(rest) + multiset{ready[i]}
    ensures Accounted(all, Without(ready, i), future, rest')
  {
    WithoutOne(ready, i);
  }

  /** A task leaves the future queue for the rest. */
  lemma {:induction false} AccountDue(all: seq<Task>, ready: seq<Task>, future: seq<Task>, rest: seq<Task>, i: nat, rest': seq<Task>)
    requires Accounted(all, ready, future, rest) && i < |future| && multiset(rest') == multiset(rest) + multiset{future[i]}
    ensures Accounted(all, ready, Without(future, i), rest')
  {
    WithoutOne(future, i);
  }

  /** Tasks in no queue. */
  function RestOf(running: Task?, finished: seq<Task>, dropped: seq<Task>): seq<Task> {
    (if running == null then [] else [running]) + finished + dropped
  }

  lemma {:induction false} RestMore(finished: seq<Task>, dropped: seq<Task>, t: Task)
    ensures multiset(RestOf(t, finished, dropped)) == multiset(RestOf(null, finished, dropped)) + multiset{t}
    ensures multiset(RestOf(null, finished + [t], dropped)) == multiset(RestOf(null, finished, dropped)) + multiset{t}
    ensures multiset(RestOf(null, finished, dropped + [t])) == multiset(RestOf(null, finished, dropped)) + multiset{t}
  {
  }

  /** The ready tasks were scheduled and are due. */
  ghost predicate ReadyOk(q: seq<Task>, all: seq<Task>, clock: nat)
    reads all
  {
    forall i :: 0 <= i < |q| ==> q[i] in all && q[i].waketime < clock
  }

  predicate Outside(q: seq<Task>, other: seq<Task>) {
    forall t :: t in q ==> t !in other
  }

  lemma {:induction false} StillOutside(q: seq<Task>, q': seq<Task>, other: seq<Task>)
    requires Outside(q, other) && Within(q', q)
    ensures Outside(q', other)
  {
  }

  lemma {:induction false} WithinAgain(a: seq<Task>, b: seq<Task>, c: seq<Task>)
    requires Within(a, b) && Within(b, c)
    ensures Within(a, c)
  {
  }

  /** The tasks run so far come before all that are queued. */
  ghost predicate RunsBefore(ready: seq<Task>, ran: seq<Task>, queue: seq<Task>, future: seq<Task>)
    reads ran, queue, future
  {
    && (forall a, b :: 0 <= a < |ran| && 0 <= b < |queue| ==> Before(ready, ran[a], queue[b]))
    && (forall a, b :: 0 <= a < |ran| && 0 <= b < |future| ==> Before(ready, ran[a], future[b]))
  }

  ghost predicate InRunOrder(ready: seq<Task>, ran: seq<Task>)
    reads ran
  {
    forall a, b :: 0 <= a < b < |ran| ==> Before(ready, ran[a], ran[b])
  }

  lemma {:induction false} NothingRan(queue: seq<Task>, future: seq<Task>)
    ensures RunsBefore(queue, [], queue, future) && InRunOrder(queue, [])
  {
  }

  lemma {:induction false} MoreRan(
      ready: seq<Task>, ran: seq<Task>, task: Task, queue: seq<Task>, future: seq<Task>, queue': seq<Task>, future': seq<Task>)
    requires RunsBefore(ready, ran, queue, future) && InRunOrder(ready, ran) && RunsBefore(ready, [task], queue, future)
    requires (task in queue || task in future) && Within(queue', queue) && Within(future', future)
    ensures RunsBefore(ready, ran, queue', future') && RunsBefore(ready, ran + [task], queue', future') && InRunOrder(ready, ran + [task])
  {
    hide Before;
    assert [task][0] == task;
    assert forall b :: 0 <= b < |queue'| ==> queue'[b] in queue;
    assert forall b :: 0 <= b < |future'| ==> future'[b] in future;
  }

  lemma {:induction false} StillReady(q: seq<Task>, i: nat, all: seq<Task>, clock: nat)
    requires i < |q| && ReadyOk(q, all, clock)
    ensures ReadyOk(Without(q, i), all, clock)
  {
    assert forall j :: 0 <= j < |Without(q, i)| ==> Without(q, i)[j] == q[if j < i then j else j + 1];
  }

  lemma {:induction false} AccountDone(all: seq<Task>, ready: seq<Task>, future: seq<Task>, finished: seq<Task>, dropped: seq<Task>, t: Task)
    requires Accounted(all, ready, future, RestOf(t, finished, dropped))
    ensures Accounted(all, ready, future + [t], RestOf(null, finished, dropped))
    ensures Accounted(all, ready, future, RestOf(null, finished + [t], dropped))
  {
    hide RestOf;
    RestMore(finished, dropped, t);
  }

  /** The tasks taken out so far and the two queues are all there was. */
  predicate AllTaken(ready: seq<Task>, future: seq<Task>, taken: seq<Task>, ready': seq<Task>, future': seq<Task>) {
    multiset(ready) + multiset(future) == multiset(taken) + multiset(ready') + multiset(future')
  }

  lemma {:induction false} NoneTaken(ready: seq<Task>, future: seq<Task>)
    ensures AllTaken(ready, future, [], ready, future)
  {
  }

  lemma {:induction false} OneTaken(ready: seq<Task>, future: seq<Task>, taken: seq<Task>, ready1: seq<Task>, future1: seq<Task>, t: Task, ready2: seq<Task>, future2: seq<Task>)
    requires AllTaken(ready, future, taken, ready1, future1) && TakenFrom(ready1, future1, t, ready2, future2)
    ensures AllTaken(ready, future, taken + [t], ready2, future2)
  {
    assert multiset(taken + [t]) == multiset(taken) + multiset{t};
    var a, b := multiset(ready1) + multiset(future1), multiset(ready2) + multiset(future2);
    assert multiset(taken) + multiset(ready1) + multiset(future1) == multiset(taken) + a;
    assert multiset(taken) + a == multiset(taken) + multiset{t} + b;
  }

  lemma {:induction false} EveryTaken(ready: seq<Task>, future: seq<Task>, taken: seq<Task>, t: Task)
    requires AllTaken(ready, future, taken, [], [])
    ensures t in taken <==> t in ready || t in future
  {
    var m := multiset(ready) + multiset(future);
    assert t in taken <==> m[t] > 0;
    assert t in ready || t in future <==> m[t] > 0;
  }

  /** The order of shutdown: ready tasks by priority, then the others by due date. */
  predicate Before(ready: seq<Task>, t: Task, u: Task)
    reads t, u
  {
    if t in ready then u in ready ==> t.priority <= u.priority
    else u !in ready && t.waketime <= u.waketime
  }

  /** All that holds when a ready task leaves for the rest. */
  lemma {:induction false} PopUrgent(
      all: seq<Task>, ready: seq<Task>, future: seq<Task>, rest: seq<Task>, i: nat, rest': seq<Task>, clock: nat)
    requires Accounted(all, ready, future, rest) && ReadyOk(ready, all, clock) && i < |ready|
    requires multiset(rest') == multiset(rest) + multiset{ready[i]}
    ensures Accounted(all, Without(ready, i), future, rest') && ReadyOk(Without(ready, i), all, clock)
    ensures TakenFrom(ready, future, ready[i], Without(ready, i), future) && Within(Without(ready, i), ready)
  {
    hide Accounted, TakenFrom, Without, Within, ReadyOk;
    TakenUrgent(ready, future, i);
    AccountUrgent(all, ready, future, rest, i, rest');
    WithoutOne(ready, i);
    StillReady(ready, i, all, clock);
  }

  /** All that holds when a future task leaves for the rest. */
  lemma {:induction false} PopDue(all: seq<Task>, ready: seq<Task>, future: seq<Task>, rest: seq<Task>, i: nat, rest': seq<Task>)
    requires Accounted(all, ready, future, rest) && i < |future|
    requires multiset(rest') == multiset(rest) + multiset{future[i]}
    ensures Accounted(all, ready, Without(future, i), rest')
    ensures TakenFrom(ready, future, future[i], ready, Without(future, i)) && Within(Without(future, i), future)
  {
    hide Accounted, TakenFrom, Without, Within;
    TakenDue(ready, future, i);
    AccountDue(all, ready, future, rest, i, rest');
    WithoutOne(future, i);
  }

  lemma {:induction false} FutureIn(all: seq<Task>, ready: seq<Task>, future: seq<Task>, rest: seq<Task>, i: nat)
    requires Accounted(all, ready, future, rest) && i < |future|
    ensures future[i] in all
  {
    assert future[i] in multiset(all);
  }

  // ---------------------------------------------------------------- dropped tasks

  /** A task that need not be run: it was cancelled, or the dispatcher stops and may leave it out. */
  predicate Excused(t: Task, state: DispatcherState, force: bool)
    reads t
  {
    t.dead || (state != DispatcherRunning && (t.isDaemonTask || (!t.blockShutdown && force)))
  }

  ghost predicate DroppedOk(dropped: seq<Task>, all: seq<Task>, state: DispatcherState, force: bool)
    reads all
  {
    forall i :: 0 <= i < |dropped| ==> dropped[i] in all && Excused(dropped[i], state, force)
  }

  lemma {:induction false} OneDropped(dropped: seq<Task>, all: seq<Task>, state: DispatcherState, force: bool, t: Task)
    requires DroppedOk(dropped, all, state, force) && t in all && Excused(t, state, force)
    ensures DroppedOk(dropped + [t], all, state, force)
  {
  }

  /** What other threads ask of a dispatcher; a task is named by its place in the order of scheduling. */
  datatype Ask =
    | AskSchedule(priority: int, waketime: nat, isDaemon: bool, mustComplete: bool)
    | AskCancel(task: nat)
    | AskSnooze(task: nat, waketime: nat)
    | AskStop(force: bool)

  /** A turn of the main loop: what is asked before it, the time it reads, what is asked while a task runs, and whether the task wants to run again. */
  datatype Turn = Turn(asks: seq<Ask>, tv: nat, during: seq<Ask>, again: bool)

  // ---------------------------------------------------------------- what the requests amount to

  /** A task as the other threads know it. */
  datatype Entry = Entry(priority: int, isDaemon: bool, mustComplete: bool, cancelled: bool)

  /** The tasks handed out, in the order of scheduling, and how to stop, once that is decided. */
  datatype Book = Book(tasks: seq<Entry>, stop: Option<bool>)

  function Noted(b: Book, ask: Ask): Book {
    match ask
    case AskSchedule(priority, _, isDaemon, mustComplete) =>
      b.(tasks := b.tasks + [Entry(priority, isDaemon, mustComplete, false)])
    case AskCancel(n) => if n < |b.tasks| then b.(tasks := b.tasks[n := b.tasks[n].(cancelled := true)]) else b
    case AskSnooze(_, _) => b
    case AskStop(force) => if b.stop.None? then b.(stop := Some(force)) else b
  }

  function AllNoted(b: Book, asks: seq<Ask>): Book {
    if asks == [] then b else Noted(AllNoted(b, asks[..|asks| - 1]), asks[|asks| - 1])
  }

  /** A task that is not queued wakes when the last request to snooze it says. */
  function Snoozed(waketime: nat, n: nat, asks: seq<Ask>): nat {
    if asks == [] then waketime
    else
      var last := asks[|asks| - 1];
      if last.AskSnooze? && last.task == n then last.waketime else Snoozed(waketime, n, asks[..|asks| - 1])
  }

  lemma {:induction false} NoneSnoozed(asks: seq<Ask>)
    ensures forall n: nat, w: nat :: Snoozed(w, n, asks[..0]) == w
  {
  }

  lemma {:induction false} SnoozedMore(waketime: nat, n: nat, asks: seq<Ask>, k: nat)
    requires k < |asks|
    ensures Snoozed(waketime, n, asks[..k + 1]) == Snoozed(Snoozed(waketime, n, asks[..k]), n, [asks[k]])
  {
    assert asks[..k + 1][..k] == asks[..k];
  }

  /** The requests that reached the dispatcher: those before each turn, and those during it if the turn ran a task. */
  function Served(turns: seq<Turn>, ran: seq<bool>): seq<Ask>
    requires |ran| <= |turns|
  {
    if ran == [] then []
    else
      var n := |ran| - 1;
      Served(turns, ran[..n]) + turns[n].asks + if ran[n] then turns[n].during else []
  }

  lemma {:induction false} Apart(q: seq<Task>, n: nat)
    requires Distinct(q) && n < |q|
    ensures forall i :: 0 <= i < |q| && i != n ==> q[i] != q[n]
  {
  }

  predicate Queued(t: Task, readyQueue: seq<Task>, futureQueue: seq<Task>) {
    t in readyQueue || t in futureQueue
  }

  function EntryOf(t: Task): Entry
    reads t
  {
    Entry(t.priority, t.isDaemonTask, t.blockShutdown, t.dead)
  }

  function Entries(q: seq<Task>): (r: seq<Entry>)
    reads q
    ensures |r| == |q| && forall i :: 0 <= i < |q| ==> r[i] == EntryOf(q[i])
  {
    if q == [] then [] else Entries(q[..|q| - 1]) + [EntryOf(q[|q| - 1])]
  }

  lemma {:induction false} NotedInTwo(b: Book, first: seq<Ask>, more: seq<Ask>)
    ensures AllNoted(b, first + more) == AllNoted(AllNoted(b, first), more)
    decreases |more|
  {
    if more == [] {
      assert first + more == first;
    } else {
      NotedInTwo(b, first, more[..|more| - 1]);
      assert (first + more)[..|first + more| - 1] == first + more[..|more| - 1];
    }
  }

  predicate AsksStop(asks: seq<Ask>) {
    exists i :: 0 <= i < |asks| && asks[i].AskStop?
  }

  /** The first stop decides how, whatever is asked after it; and only a stop stops. */
  lemma {:induction false} FirstStopDecides(b: Book, asks: seq<Ask>)
    ensures AllNoted(b, asks).stop.None? <==> b.stop.None? && !AsksStop(asks)
    ensures b.stop.Some? ==> AllNoted(b, asks).stop == b.stop
    ensures forall i :: 0 <= i < |asks| && asks[i].AskStop? && b.stop.None? && !AsksStop(asks[..i]) ==>
              AllNoted(b, asks).stop == Some(asks[i].force)
    decreases |asks|
  {
    if asks != [] {
      var n := |asks| - 1;
      FirstStopDecides(b, asks[..n]);
      assert AsksStop(asks[..n]) ==> AsksStop(asks);
      assert AsksStop(asks) <==> AsksStop(asks[..n]) || asks[n].AskStop?;
      forall i | 0 <= i < |asks| && asks[i].AskStop? && b.stop.None? && !AsksStop(asks[..i])
        ensures AllNoted(b, asks).stop == Some(asks[i].force)
      {
        if i < n {
          assert asks[..n][i] == asks[i] && asks[..n][..i] == asks[..i];
        }
      }
    }
  }

  /** No task is lost or changed but by cancelling it, and a task is cancelled exactly if its number was given for that. */
  lemma {:induction false} TasksKept(b: Book, asks: seq<Ask>)
    ensures |b.tasks| <= |AllNoted(b, asks).tasks|
    ensures forall n :: 0 <= n < |b.tasks| ==>
              AllNoted(b, asks).tasks[n] == b.tasks[n].(cancelled := b.tasks[n].cancelled || AskCancel(n) in asks)
    decreases |asks|
  {
    if asks != [] {
      TasksKept(b, asks[..|asks| - 1]);
      assert asks == asks[..|asks| - 1] + [asks[|asks| - 1]];
    }
  }

  /** A stop that is asked between turns reaches the dispatcher. */
  lemma {:induction false} StopServed(turns: seq<Turn>, ran: seq<bool>, a: nat)
    requires a < |ran| <= |turns| && AsksStop(turns[a].asks)
    ensures AsksStop(Served(turns, ran))
    decreases |ran|
  {
    var n := |ran| - 1;
    var before := Served(turns, ran[..n]);
    if a < n {
      StopServed(turns, ran[..n], a);
      var i :| 0 <= i < |before| && before[i].AskStop?;
      assert Served(turns, ran)[i] == before[i];
    } else {
      var i :| 0 <= i < |turns[n].asks| && turns[n].asks[i].AskStop?;
      assert Served(turns, ran)[|before| + i] == turns[n].asks[i];
    }
  }

  lemma {:induction false} ServedMore(turns: seq<Turn>, ran: seq<bool>, r: bool, b: Book)
    requires |ran| < |turns|
    ensures var turn := turns[|ran|];
            AllNoted(b, Served(turns, ran + [r]))
            == AllNoted(AllNoted(AllNoted(b, Served(turns, ran)), turn.asks), if r then turn.during else [])
  {
    var turn := turns[|ran|];
    assert (ran + [r])[..|ran|] == ran;
    NotedInTwo(b, Served(turns, ran), turn.asks);
    NotedInTwo(b, Served(turns, ran) + turn.asks, if r then turn.during else []);
  }

  lemma {:induction false} NothingServed(turns: seq<Turn>, b: Book)
    ensures AllNoted(b, Served(turns, [])) == b
  {
  }

  lemma {:induction false} NothingNoted(b: Book)
    ensures AllNoted(b, []) == b
  {
  }

  lemma {:induction false} NoStopServed(turns: seq<Turn>, ran: seq<bool>, b: Book)
    requires |ran| == |turns| && AllNoted(b, Served(turns, ran)).stop.None?
    ensures forall a :: 0 <= a < |turns| ==> !AsksStop(turns[a].asks)
  {
    hide AllNoted, Served, AsksStop;
    FirstStopDecides(b, Served(turns, ran));
    forall a | 0 <= a < |turns| ensures !AsksStop(turns[a].asks) {
      if AsksStop(turns[a].asks) {
        StopServed(turns, ran, a);
      }
    }
  }

  // ---------------------------------------------------------------- the dispatcher

  class Dispatcher {
    var readyQueue: seq<Task>
    var futureQueue: seq<Task>
    var running: Task?
    var state: DispatcherState
    var forceTermination: bool
    var notifications: nat
    // Every task id handed out, the last time read, and what became of the tasks.
    var scheduled: seq<Task>
    ghost var clock: nat
    ghost var finished: seq<Task>
    ghost var dropped: seq<Task>

    /** Every task ever scheduled is in one place, once; tasks in the ready queue are due; a dropped task need not be run. */
    ghost predicate Valid()
      reads this, scheduled
    {
      && Accounted(scheduled, readyQueue, futureQueue, RestOf(running, finished, dropped)) && Distinct(scheduled)
      && ReadyOk(readyQueue, scheduled, clock)
      && DroppedOk(dropped, scheduled, state, forceTermination)
    }

    /** What the other threads have asked for so far. */
    ghost function Books(): Book
      reads this`scheduled, this`state, this`forceTermination, scheduled
    {
      Book(Entries(scheduled), if state == DispatcherRunning then None else Some(forceTermination))
    }

    constructor ()
      ensures Valid() && scheduled == [] && state == DispatcherRunning && running == null && clock == 0
    {
      readyQueue, futureQueue, running, state := [], [], null, DispatcherRunning;
      forceTermination, notifications, clock := false, 0, 0;
      scheduled, finished, dropped := [], [], [];
    }

    /** A scheduled task is queued, running, finished or dropped, and never two of these. */
    lemma {:induction false} OnePlace(t: Task)
      requires Valid() && t in scheduled
      ensures multiset(readyQueue)[t] + multiset(futureQueue)[t] + (if running == t then 1 else 0)
              + multiset(finished)[t] + multiset(dropped)[t] == 1
    {
      DistinctCount(scheduled, t);
      assert multiset(scheduled)[t] == multiset(readyQueue)[t] + multiset(futureQueue)[t] + multiset(RestOf(running, finished, dropped))[t];
    }

    lemma {:induction false} RunningOnly()
      requires Valid() && running != null
      ensures running in scheduled && !Queued(running, readyQueue, futureQueue)
    {
      assert running in multiset(RestOf(running, finished, dropped));
      assert running in multiset(scheduled);
      OnePlace(running);
    }

    method Schedule(priority: int, waketime: nat, isDaemon: bool, mustComplete: bool) returns (t: Task)
      requires Valid()
      modifies this
      ensures Valid() && fresh(t) && t.waketime == waketime && EntryOf(t) == Entry(priority, isDaemon, mustComplete, false)
      ensures scheduled == old(scheduled) + [t] && futureQueue == old(futureQueue) + [t] && readyQueue == old(readyQueue)
      ensures running == old(running) && finished == old(finished) && dropped == old(dropped)
      ensures notifications == old(notifications) + 1 && state == old(state) && clock == old(clock)
      ensures forceTermination == old(forceTermination)
    {
      hide Accounted;
      t := new Task(priority, waketime, isDaemon, mustComplete);
      AccountNew(scheduled, readyQueue, futureQueue, RestOf(running, finished, dropped), t);
      futureQueue := futureQueue + [t];
      notifications := notifications + 1;
      scheduled := scheduled + [t];
    }

    /** A cancelled task stays where it is; it is dropped when its turn comes. */
    method Cancel(t: Task)
      requires Valid()
      modifies t`dead
      ensures Valid() && t.dead
    {
      t.dead := true;
    }

    /** Put a task that is not queued to sleep until a later time. */
    method Snooze(t: Task, waketime: nat)
      requires Valid() && t !in readyQueue && t !in futureQueue
      modifies t`waketime
      ensures Valid() && t.waketime == waketime
    {
      t.waketime := waketime;
    }

    /** Move every task that is due into the ready queue. */
    method MoveReadyTasks(tv: nat)
      requires Valid() && clock <= tv
      modifies this`readyQueue, this`futureQueue, this`clock
      ensures Valid() && clock == tv
      ensures SameTasks(old(readyQueue), old(futureQueue), readyQueue, futureQueue)
      ensures forall i :: 0 <= i < |futureQueue| ==> futureQueue[i].waketime >= tv
      ensures forall i :: 0 <= i < |readyQueue| ==> readyQueue[i].waketime < tv
    {
      hide Accounted, Distinct, SameTasks, Without, DroppedOk, RestOf;
      assert SameTasks(readyQueue, futureQueue, readyQueue, futureQueue) by { SameSelf(readyQueue, futureQueue); }
      clock := tv;
      while futureQueue != []
        invariant Valid() && clock == tv
        invariant SameTasks(old(readyQueue), old(futureQueue), readyQueue, futureQueue)
        decreases |futureQueue|
      {
        SomeEarliest(futureQueue);
        var i: nat :| Earliest(futureQueue, i);
        if futureQueue[i].waketime < tv {
          AccountReady(scheduled, readyQueue, futureQueue, RestOf(running, finished, dropped), i);
          SameMoved(old(readyQueue), old(futureQueue), readyQueue, futureQueue, i);
          FutureIn(scheduled, readyQueue, futureQueue, RestOf(running, finished, dropped), i);
          readyQueue, futureQueue := readyQueue + [futureQueue[i]], Without(futureQueue, i);
        } else {
          return;
        }
      }
    }

    /** The next task: the most urgent one that is ready, or else the one that is due first. */
    method NextTask() returns (task: Task, i: nat)
      requires readyQueue != [] || futureQueue != []
      ensures readyQueue != [] ==> MostUrgent(readyQueue, i) && task == readyQueue[i]
      ensures readyQueue == [] ==> Earliest(futureQueue, i) && task == futureQueue[i]
    {
      if readyQueue == [] {
        SomeEarliest(futureQueue);
        i :| Earliest(futureQueue, i);
        task := futureQueue[i];
      } else {
        SomeUrgent(readyQueue);
        i :| MostUrgent(readyQueue, i);
        task := readyQueue[i];
      }
    }

    lemma {:induction false} NextScheduled(task: Task, i: nat)
      requires Valid()
      requires if readyQueue != [] then i < |readyQueue| && task == readyQueue[i] else i < |futureQueue| && task == futureQueue[i]
      ensures task in scheduled
    {
      hide Accounted, Distinct, RestOf, DroppedOk;
      if readyQueue == [] {
        FutureIn(scheduled, readyQueue, futureQueue, RestOf(running, finished, dropped), i);
      }
    }

    /** Take the next task out of its queue; it is run now, finished at once or dropped. */
    method PopNext(task: Task, i: nat, run: bool, ghost drop: bool)
      requires Valid() && running == null
      requires if readyQueue != [] then i < |readyQueue| && task == readyQueue[i] else i < |futureQueue| && task == futureQueue[i]
      requires !run && drop ==> Excused(task, state, forceTermination)
      modifies this`readyQueue, this`futureQueue, this`running, this`finished, this`dropped
      ensures Valid() && TakenFrom(old(readyQueue), old(futureQueue), task, readyQueue, futureQueue)
      ensures |readyQueue| + |futureQueue| == |old(readyQueue)| + |old(futureQueue)| - 1
      ensures Within(readyQueue, old(readyQueue)) && Within(futureQueue, old(futureQueue))
      ensures running == if run then task else null
      ensures dropped == if !run && drop then old(dropped) + [task] else old(dropped)
      ensures finished == if !run && !drop then old(finished) + [task] else old(finished)
    {
      hide Accounted, Distinct, TakenFrom, Without, RestOf, Within, ReadyOk, DroppedOk;
      NextScheduled(task, i);
      ghost var was := RestOf(null, finished, dropped);
      WithinSelf(readyQueue);
      WithinSelf(futureQueue);
      RestMore(finished, dropped, task);
      if run {
        running := task;
      } else if drop {
        OneDropped(dropped, scheduled, state, forceTermination, task);
        dropped := dropped + [task];
      } else {
        finished := finished + [task];
      }
      if readyQueue != [] {
        PopUrgent(scheduled, readyQueue, futureQueue, was, i, RestOf(running, finished, dropped), clock);
        readyQueue := Without(readyQueue, i);
      } else {
        PopDue(scheduled, readyQueue, futureQueue, was, i, RestOf(running, finished, dropped));
        futureQueue := Without(futureQueue, i);
      }
    }

    /**
     One turn of the main loop, up to the call of the task.  Of the queued tasks due before the time
     read, the chosen one has the smallest priority number; a task that runs is due; and the
     dispatcher sleeps only when nothing is due.
     */
    method Choose(tv: nat) returns (choice: Choice, task: Task)
      requires Valid() && running == null && state == DispatcherRunning && clock <= tv
      requires readyQueue != [] || futureQueue != []
      modifies this`readyQueue, this`futureQueue, this`running, this`dropped, this`finished, this`clock
      ensures Valid() && clock == tv && finished == old(finished)
      ensures task in old(readyQueue) || task in old(futureQueue)
      ensures forall t :: t in old(readyQueue) || t in old(futureQueue) ==>
                t.waketime < tv ==> choice != Sleeps && task.waketime < tv && task.priority <= t.priority
      ensures choice == Runs ==> running == task && !task.dead && task.waketime <= tv && dropped == old(dropped)
      ensures choice == Drops ==> task.dead && dropped == old(dropped) + [task] && running == null
      ensures choice == Sleeps ==> running == null && !task.dead && dropped == old(dropped)
      ensures choice == Sleeps ==>
                forall t :: t in old(readyQueue) || t in old(futureQueue) ==> tv < task.waketime <= t.waketime
      ensures if choice == Sleeps then SameTasks(old(readyQueue), old(futureQueue), readyQueue, futureQueue)
              else TakenFrom(old(readyQueue), old(futureQueue), task, readyQueue, futureQueue)
    {
      hide Accounted, Distinct, TakenFrom, SameTasks, RestOf, DroppedOk;
      MoveReadyTasks(tv);
      ghost var ready, future := readyQueue, futureQueue;
      forall t ensures t in old(readyQueue) || t in old(futureQueue) <==> t in ready || t in future {
        SameIn(old(readyQueue), old(futureQueue), ready, future, t);
      }
      assert readyQueue != [] || futureQueue != [] by {
        assert old(readyQueue) != [] ==> old(readyQueue)[0] in old(readyQueue);
        assert old(futureQueue) != [] ==> old(futureQueue)[0] in old(futureQueue);
      }
      var i;
      task, i := NextTask();
      if task.dead {
        choice := Drops;
        PopNext(task, i, false, true);
        TakenAfterMove(old(readyQueue), old(futureQueue), ready, future, task, readyQueue, futureQueue);
      } else if tv < task.waketime {
        choice := Sleeps;
      } else {
        choice := Runs;
        PopNext(task, i, true, false);
        TakenAfterMove(old(readyQueue), old(futureQueue), ready, future, task, readyQueue, futureQueue);
      }
    }

    /** The task came back: queue it again if it asks for that; a task that threw does not. */
    method Done(again: bool)
      requires Valid() && running != null
      modifies this`running, this`futureQueue, this`finished, this`notifications
      ensures Valid() && running == null
      ensures futureQueue == old(futureQueue) + if again then [old(running)] else []
      ensures finished == old(finished) + if again then [] else [old(running)]
      ensures notifications == old(notifications) + if again then 1 else 0
    {
      hide Accounted, Distinct, RestOf;
      var task: Task := running;
      RestMore(finished, dropped, task);
      AccountDone(scheduled, readyQueue, futureQueue, finished, dropped, task);
      running := null;
      if again {
        futureQueue := futureQueue + [task];
        notifications := notifications + 1;
        assert finished + [] == finished;
      } else {
        finished := finished + [task];
        assert futureQueue + [] == futureQueue;
      }
    }

    /** Only the first stop decides how; what need not be run because of an earlier one still need not. */
    method Stop(force: bool)
      requires Valid()
      modifies this`state, this`forceTermination, this`notifications
      ensures Valid() && state != DispatcherRunning
      ensures old(state) != DispatcherRunning ==> state == old(state) && forceTermination == old(forceTermination)
      ensures old(state) == DispatcherRunning ==> state == DispatcherStopping && forceTermination == force && notifications > old(notifications)
    {
      hide Accounted, Distinct, RestOf, ReadyOk;
      if state == DispatcherStopped || state == DispatcherStopping {
        return;
      }
      forceTermination := force;
      state := DispatcherStopping;
      notifications := notifications + 1;
    }

    /** A task that shutdown has to run. */
    predicate MustRun(t: Task)
      reads this`forceTermination, t
    {
      !t.isDaemonTask && (t.blockShutdown || !forceTermination) && !t.dead
    }

    lemma {:induction false} MustMeans(t: Task)
      ensures MustRun(t) <==> !t.dead && !t.isDaemonTask && (t.blockShutdown || !forceTermination)
    {
    }

    lemma {:induction false} NotMust(t: Task)
      requires state != DispatcherRunning && !MustRun(t)
      ensures Excused(t, state, forceTermination)
    {
    }

    /** The next task of a shutdown comes before all that are queued. */
    lemma {:induction false} NextComesFirst(ready: seq<Task>, task: Task, i: nat)
      requires readyQueue != [] || futureQueue != []
      requires Within(readyQueue, ready) && Outside(futureQueue, ready)
      requires readyQueue != [] ==> MostUrgent(readyQueue, i) && task == readyQueue[i]
      requires readyQueue == [] ==> Earliest(futureQueue, i) && task == futureQueue[i]
      ensures (task in readyQueue || task in futureQueue) && RunsBefore(ready, [task], readyQueue, futureQueue)
    {
      if readyQueue != [] {
        assert task in readyQueue;
      } else {
        assert task in futureQueue;
      }
    }

    /** No task is in both queues. */
    lemma {:induction false} QueuesApart(t: Task)
      requires Valid() && t in futureQueue
      ensures t !in readyQueue
    {
      hide RestOf;
      DistinctCount(scheduled, t);
      assert multiset(scheduled)[t] >= multiset(readyQueue)[t] + multiset(futureQueue)[t];
    }

    /** A task finishes at most once. */
    lemma {:induction false} FinishedOnce(a: nat, b: nat)
      requires Valid() && a < b < |finished|
      ensures finished[a] != finished[b]
    {
      var t := finished[a];
      DistinctCount(scheduled, t);
      assert multiset(scheduled)[t] >= multiset(RestOf(running, finished, dropped))[t] >= multiset(finished)[t];
      assert finished == finished[..b] + [finished[b]] + finished[b + 1..];
      assert t in finished[..b];
    }

    /**
     Shutdown: both queues are emptied, and exactly the live tasks that must run are run to their end,
     each once, ready ones first.
     */
    method CompleteNonDaemonTasks() returns (ran: seq<Task>)
      requires Valid() && running == null && state != DispatcherRunning
      modifies this`readyQueue, this`futureQueue, this`running, this`finished, this`dropped
      ensures Valid() && running == null && readyQueue == [] && futureQueue == [] && finished == old(finished) + ran
      ensures forall t :: t in ran <==>
                (t in old(readyQueue) || t in old(futureQueue)) && !t.dead && !t.isDaemonTask && (t.blockShutdown || !forceTermination)
      ensures InRunOrder(old(readyQueue), ran) && forall a, b :: 0 <= a < b < |ran| ==> ran[a] != ran[b]
    {
      hide Accounted, Distinct, TakenFrom, AllTaken, RestOf, Before, MustRun, MostUrgent, Earliest, DroppedOk, Excused, ReadyOk,
           Within, RunsBefore, InRunOrder;
      ran := [];
      ghost var taken := [];
      assert Outside(futureQueue, readyQueue) by {
        forall t | t in futureQueue ensures t !in readyQueue {
          QueuesApart(t);
        }
      }
      WithinSelf(readyQueue);
      NothingRan(readyQueue, futureQueue);
      NoneTaken(readyQueue, futureQueue);
      assert finished == finished + ran;
      while readyQueue != [] || futureQueue != []
        invariant Valid() && running == null && finished == old(finished) + ran
        invariant AllTaken(old(readyQueue), old(futureQueue), taken, readyQueue, futureQueue)
        invariant Within(readyQueue, old(readyQueue)) && Outside(futureQueue, old(readyQueue))
        invariant forall t :: t in ran <==> t in taken && MustRun(t)
        invariant RunsBefore(old(readyQueue), ran, readyQueue, futureQueue) && InRunOrder(old(readyQueue), ran)
        decreases |readyQueue| + |futureQueue|
      {
        var task, i := NextTask();
        var must := MustRun(task);
        ghost var ready, future := readyQueue, futureQueue;
        NextComesFirst(old(readyQueue), task, i);
        if !must {
          NotMust(task);
        }
        PopNext(task, i, false, !must);
        OneTaken(old(readyQueue), old(futureQueue), taken, ready, future, task, readyQueue, futureQueue);
        StillOutside(future, futureQueue, old(readyQueue));
        WithinAgain(readyQueue, ready, old(readyQueue));
        MoreRan(old(readyQueue), ran, task, ready, future, readyQueue, futureQueue);
        taken := taken + [task];
        if must {
          ran := ran + [task];
        }
      }
      forall t ensures t in taken <==> t in old(readyQueue) || t in old(futureQueue) {
        EveryTaken(old(readyQueue), old(futureQueue), taken, t);
      }
      forall t | t in taken
        ensures MustRun(t) <==> !t.dead && !t.isDaemonTask && (t.blockShutdown || !forceTermination)
      {
        MustMeans(t);
      }
      forall a, b | 0 <= a < b < |ran| ensures ran[a] != ran[b] {
        FinishedOnce(|old(finished)| + a, |old(finished)| + b);
      }
    }

    /** One request of another thread; one that names no task, or would snooze a queued one, is left out. */
    method ServeOne(ask: Ask)
      requires Valid()
      modifies this, scheduled
      ensures Valid() && running == old(running) && clock == old(clock)
      ensures finished == old(finished) && dropped == old(dropped)
      ensures readyQueue == old(readyQueue) && old(futureQueue) <= futureQueue
      ensures state == old(state) || state == DispatcherStopping
      ensures old(scheduled) <= scheduled
      ensures forall i :: |old(futureQueue)| <= i < |futureQueue| ==> fresh(futureQueue[i])
      ensures forall i :: |old(scheduled)| <= i < |scheduled| ==> fresh(scheduled[i])
      ensures Books() == Noted(old(Books()), ask)
      ensures forall n: nat :: n < |old(scheduled)| ==>
                scheduled[n].waketime == if Queued(scheduled[n], old(readyQueue), old(futureQueue)) then old(scheduled[n].waketime)
                else Snoozed(old(scheduled[n].waketime), n, [ask])
    {
      hide Accounted, Distinct, RestOf, ReadyOk, DroppedOk, Entries;
      ghost var entries := Entries(scheduled);
      match ask
      case AskSchedule(priority, waketime, isDaemon, mustComplete) =>
        var t := Schedule(priority, waketime, isDaemon, mustComplete);
        assert Entries(scheduled) == entries + [EntryOf(t)];
      case AskCancel(n) =>
        if n < |scheduled| {
          Apart(scheduled, n);
          Cancel(scheduled[n]);
          assert Entries(scheduled) == entries[n := entries[n].(cancelled := true)];
        }
      case AskSnooze(n, waketime) =>
        if n < |scheduled| && scheduled[n] !in readyQueue && scheduled[n] !in futureQueue {
          Apart(scheduled, n);
          Snooze(scheduled[n], waketime);
          assert Entries(scheduled) == entries;
        }
      case AskStop(force) =>
        Stop(force);
    }

    /** What other threads ask, in turn. */
    method Serve(asks: seq<Ask>)
      requires Valid()
      modifies this, scheduled
      ensures Valid() && running == old(running) && clock == old(clock)
      ensures finished == old(finished) && dropped == old(dropped)
      ensures state == old(state) || state == DispatcherStopping
      ensures old(scheduled) <= scheduled
      ensures forall i :: |old(scheduled)| <= i < |scheduled| ==> fresh(scheduled[i])
      ensures Books() == AllNoted(old(Books()), asks)
      ensures forall n: nat :: n < |old(scheduled)| ==>
                scheduled[n].waketime == if Queued(scheduled[n], old(readyQueue), old(futureQueue)) then old(scheduled[n].waketime)
                else Snoozed(old(scheduled[n].waketime), n, asks)
    {
      hide Accounted, Distinct, RestOf, ReadyOk, DroppedOk, Noted, Entries, Snoozed;
      assert forall n: nat, w: nat :: Snoozed(w, n, asks[..0]) == w by { NoneSnoozed(asks); }
      for k := 0 to |asks|
        invariant Valid() && running == old(running) && clock == old(clock)
        invariant finished == old(finished) && dropped == old(dropped)
        invariant state == old(state) || state == DispatcherStopping
        invariant old(scheduled) <= scheduled && readyQueue == old(readyQueue) && old(futureQueue) <= futureQueue
        invariant forall i :: |old(scheduled)| <= i < |scheduled| ==> fresh(scheduled[i])
        invariant forall i :: |old(futureQueue)| <= i < |futureQueue| ==> fresh(futureQueue[i])
        invariant Books() == AllNoted(old(Books()), asks[..k])
        invariant forall n: nat :: n < |old(scheduled)| ==>
                    scheduled[n].waketime == if Queued(scheduled[n], old(readyQueue), old(futureQueue)) then old(scheduled[n].waketime)
                    else Snoozed(old(scheduled[n].waketime), n, asks[..k])
      {
        assert asks[..k + 1][..k] == asks[..k];
        forall n: nat | n < |old(scheduled)|
          ensures Queued(scheduled[n], readyQueue, futureQueue) <==> Queued(scheduled[n], old(readyQueue), old(futureQueue))
          ensures Snoozed(old(scheduled[n].waketime), n, asks[..k + 1]) == Snoozed(Snoozed(old(scheduled[n].waketime), n, asks[..k]), n, [asks[k]])
        {
          SnoozedMore(old(scheduled[n].waketime), n, asks, k);
        }
        ServeOne(asks[k]);
      }
      assert asks[..|asks|] == asks;
    }

    /**
     One turn of the main loop, and the task that ran, if one did: a live one that is due and most urgent
     among those due. Nothing due is passed over but for dropping a cancelled task.
     */
    method TakeTurn(turn: Turn) returns (task: Task?)
      requires Valid() && running == null && clock <= turn.tv && state == DispatcherRunning
      modifies this, scheduled
      ensures Valid() && running == null && (clock == old(clock) || clock == turn.tv)
      ensures state == DispatcherRunning || state == DispatcherStopping
      ensures old(scheduled) <= scheduled
      ensures forall i :: |old(scheduled)| <= i < |scheduled| ==> fresh(scheduled[i])
      ensures Books() == AllNoted(old(Books()), if task != null then turn.during else [])
      ensures finished == old(finished) + if task != null && !turn.again then [task] else []
      ensures task != null ==> old(allocated(task)) && !old(task.dead) && old(task.waketime) <= turn.tv && dropped == old(dropped)
      ensures task != null ==> Queued(task, old(readyQueue), old(futureQueue)) && (turn.again ==> task in futureQueue)
      ensures task != null ==> forall n: nat :: n < |old(scheduled)| && old(scheduled)[n] == task ==>
                task.waketime == Snoozed(old(task.waketime), n, turn.during)
      ensures forall t :: t in old(readyQueue) || t in old(futureQueue) ==> old(t.waketime) < turn.tv ==>
                if task != null then task.priority <= t.priority
                else |dropped| == |old(dropped)| + 1 && old(dropped) <= dropped && dropped[|old(dropped)|].dead
    {
      hide Accounted, Distinct, RestOf, ReadyOk, DroppedOk, TakenFrom, SameTasks, Entries, AllNoted, Snoozed;
      task := null;
      NothingNoted(Books());
      if readyQueue != [] || futureQueue != [] {
        var choice, next := Choose(turn.tv);
        if choice == Runs {
          task := next;
          RunningOnly();
          Serve(turn.during);
          Done(turn.again);
        }
      }
    }

    /**
     The thread of the dispatcher: turns of the main loop until it is asked to stop, and then the
     shutdown. Every request that reaches it is honoured, so that a stop is never missed and the first
     one decides how; and once the dispatcher has stopped, every task ever scheduled has been finished
     or need not be run.
     */
    method Run(turns: seq<Turn>) returns (ghost ran: seq<bool>)
      requires Valid() && running == null && state != DispatcherStopped
      requires forall a, b :: 0 <= a < b < |turns| ==> turns[a].tv <= turns[b].tv
      requires forall a :: 0 <= a < |turns| ==> clock <= turns[a].tv
      modifies this, scheduled
      ensures Valid() && running == null && (state == DispatcherRunning || state == DispatcherStopped)
      ensures |ran| <= |turns| && Books() == AllNoted(old(Books()), Served(turns, ran))
      ensures state == DispatcherRunning ==> |ran| == |turns|
      ensures ran != [] ==> AllNoted(old(Books()), Served(turns, ran[..|ran| - 1])).stop.None?
      ensures old(scheduled) <= scheduled && old(finished) <= finished
      ensures old(state) == DispatcherStopping ==> state == DispatcherStopped && forceTermination == old(forceTermination)
      ensures (exists a :: 0 <= a < |turns| && AsksStop(turns[a].asks)) ==> state == DispatcherStopped
      ensures state == DispatcherStopped ==> readyQueue == [] && futureQueue == []
      ensures state == DispatcherStopped ==> forall t :: t in scheduled ==> t in finished || Excused(t, state, forceTermination)
    {
      hide Accounted, Distinct, RestOf, ReadyOk, DroppedOk, Excused, Entries, AllNoted, AsksStop, Served, Queued;
      var k := 0;
      ran := [];
      assert AllNoted(Books(), Served(turns, ran)) == Books() by { NothingServed(turns, Books()); }
      while state == DispatcherRunning && k < |turns|
        invariant k == |ran| <= |turns| && Valid() && running == null && state != DispatcherStopped
        invariant old(state) == DispatcherStopping ==> state == DispatcherStopping && forceTermination == old(forceTermination)
        invariant old(scheduled) <= scheduled && old(finished) <= finished
        invariant forall i :: |old(scheduled)| <= i < |scheduled| ==> fresh(scheduled[i])
        invariant forall a :: k <= a < |turns| ==> clock <= turns[a].tv
        invariant Books() == AllNoted(old(Books()), Served(turns, ran))
        invariant ran != [] ==> AllNoted(old(Books()), Served(turns, ran[..|ran| - 1])).stop.None?
      {
        var task: Task? := null;
        Serve(turns[k].asks);
        if state == DispatcherRunning {
          task := TakeTurn(turns[k]);
        } else {
          NothingNoted(Books());
        }
        ServedMore(turns, ran, task != null, old(Books()));
        assert (ran + [task != null])[..k] == ran;
        ran := ran + [task != null];
        k := k + 1;
      }
      if state == DispatcherRunning {
        NoStopServed(turns, ran, old(Books()));
      } else {
        Shutdown();
      }
    }

    /** The end of the thread. */
    method Shutdown()
      requires Valid() && running == null && state == DispatcherStopping
      modifies this`readyQueue, this`futureQueue, this`running, this`finished, this`dropped, this`state, this`notifications
      ensures Valid() && running == null && state == DispatcherStopped && readyQueue == [] && futureQueue == []
      ensures old(finished) <= finished && notifications == old(notifications) + 1
      ensures forall t :: t in finished <==>
                t in old(finished) || ((t in old(readyQueue) || t in old(futureQueue))
                                       && !t.dead && !t.isDaemonTask && (t.blockShutdown || !forceTermination))
      ensures forall t :: t in scheduled ==> t in finished || Excused(t, state, forceTermination)
    {
      hide Accounted, Distinct, RestOf, ReadyOk, DroppedOk, Excused;
      var ran := CompleteNonDaemonTasks();
      assert DroppedOk(dropped, scheduled, DispatcherStopped, forceTermination) by { StoppedToo(); }
      state := DispatcherStopped;
      notifications := notifications + 1;
      forall t | t in scheduled ensures t in finished || Excused(t, state, forceTermination) {
        OnePlace(t);
        if t !in finished {
          DroppedExcused(t);
        }
      }
    }

    lemma {:induction false} StoppedToo()
      requires DroppedOk(dropped, scheduled, state, forceTermination) && state != DispatcherRunning
      ensures DroppedOk(dropped, scheduled, DispatcherStopped, forceTermination)
    {
    }

    lemma {:induction false} DroppedExcused(t: Task)
      requires Valid() && t in dropped
      ensures Excused(t, state, forceTermination)
    {
      hide Accounted, Distinct, RestOf, ReadyOk;
    }
  }
}
