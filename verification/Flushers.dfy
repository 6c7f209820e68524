/**
 The flusher: it fetches what the persistence cursors have ahead, deduplicates it, drains the
 write queue with rejects going round again, and then publishes a checkpoint id per vbucket.

 Front-end threads keep changing the checkpoint managers between two calls; each of their
 operations is atomic. `done` is what has left the queue for good, in order. Whether a write
 leaves the queue, written or skipped, or is rejected is the answer of an oracle that stands for
 the storage engine, the vbucket versions and the age rules.
 */
module Flushers {
  import opened Options
  import opened QueuedItems
  import opened CheckpointLog
  import opened CheckpointFacts
  import opened CheckpointReplay
  import opened CheckpointRuns
  import opened CheckpointHistory
  import opened FlushQueue
  import opened FlushLedger

  datatype FlusherState = Initializing | Running | Pausing | Paused | Stopping | Stopped

  /** The transitions a graceful flusher may make. */
  predicate ValidTransition(from: FlusherState, to: FlusherState) {
    match from
    case Initializing => to == Running || to == Stopping
    case Running => to == Pausing || to == Stopping
    case Pausing => to == Paused || to == Stopping
    case Paused => to == Running || to == Stopping
    case Stopping => to == Stopped
    case Stopped => false
  }

  /**
   Which requests are granted: a stop until one has been granted, a pause of a flusher that runs, a
   resume of one that is paused or starts up. It pauses and stops only after being asked to.
   */
  lemma {:induction false} GrantedRequests(from: FlusherState)
    ensures ValidTransition(from, Stopping) <==> from != Stopping && from != Stopped
    ensures ValidTransition(from, Pausing) <==> from == Running
    ensures ValidTransition(from, Running) <==> from == Initializing || from == Paused
    ensures ValidTransition(from, Paused) <==> from == Pausing
    ensures ValidTransition(from, Stopped) <==> from == Stopping
    ensures !ValidTransition(from, Initializing)
  {
  }

  predicate IsLife(states: seq<FlusherState>) {
    forall i :: 0 < i < |states| ==> ValidTransition(states[i - 1], states[i])
  }

  /** A stop is final: what follows is at most the stopped state, once. */
  lemma {:induction false} StopIsFinal(states: seq<FlusherState>, i: nat)
    requires IsLife(states) && i < |states| && (states[i] == Stopping || states[i] == Stopped)
    ensures |states| <= i + 2 && (|states| == i + 2 ==> states[i] == Stopping && states[i + 1] == Stopped)
  {
    assert i + 1 < |states| ==> ValidTransition(states[i + 1 - 1], states[i + 1]);
    assert i + 2 < |states| ==> ValidTransition(states[i + 2 - 1], states[i + 2]);
  }

  /** What becomes of a write: it is written, skipped because its vbucket version is outdated or its value clean, or rejected. */
  datatype Verdict = Writes | Skips | Rejects

  /** What a call of the storage layer answers: could a transaction be opened, how many items fit, what becomes of each. */
  datatype Answers = Answers(entered: bool, room: nat, verdicts: seq<Verdict>)

  /** An operation of another thread on the checkpoint manager of a vbucket. */
  datatype Request = Request(vb: nat, op: Op)

  /** A pass of a drain: the answers it gets, and what other threads do after it. */
  datatype Pass = Pass(answers: Answers, requests: seq<Request>)

  // ---------------------------------------------------------------- the queue of one key

  /**
   One key of one vbucket: at most one copy is pending; what has left the queue, followed by what is
   pending, is what the log said at the last fetch; while a copy is pending, what has left the queue
   is what the log said at the fetch before.
   */
  ghost predicate QueueOk(l: Ledger, v: nat, done: seq<Write>, pend: seq<Write>, k: Key) {
    && l.before <= l.fetched <= |l.h.log|
    && Copies(pend, v, k) <= 1
    && LastWrite(done + pend, v, k) == Replay(l.h.log[..l.fetched], k)
    && (Copies(pend, v, k) > 0 ==> LastWrite(done, v, k) == Replay(l.h.log[..l.before], k))
  }

  lemma {:induction false} Drained(l: Ledger, v: nat, done: seq<Write>, pend: seq<Write>, k: Key)
    requires QueueOk(l, v, done, pend, k) && Copies(pend, v, k) == 0
    ensures LastWrite(done, v, k) == Replay(l.h.log[..l.fetched], k)
  {
    hide LastWrite, Copies, Replay;
    LastWriteConcat(done, pend, v, k);
    NoCopyNoWrite(pend, v, k);
  }

  /** A write taken off the queue for good. */
  lemma {:induction false} WrittenOk(l: Ledger, v: nat, done: seq<Write>, w: Write, pend: seq<Write>, k: Key)
    requires QueueOk(l, v, done, [w] + pend, k)
    ensures QueueOk(l, v, done + [w], pend, k)
  {
    hide LastWrite, Copies, Replay;
    CopiesConcat([w], pend, v, k);
    SingleWrite(w, v, k);
    LastWriteConcat(done, [w], v, k);
    assert done + [w] + pend == done + ([w] + pend);
  }

  /** A rejected write goes to the end of the queue. */
  lemma {:induction false} RejectedOk(l: Ledger, v: nat, done: seq<Write>, w: Write, pend: seq<Write>, k: Key)
    requires QueueOk(l, v, done, [w] + pend, k)
    ensures QueueOk(l, v, done, pend + [w], k)
  {
    hide LastWrite, Copies, Replay;
    Rotate(w, pend, v, k);
    LastWriteConcat(done, [w] + pend, v, k);
    LastWriteConcat(done, pend + [w], v, k);
  }

  /** The writes of one vbucket do not concern another. */
  lemma {:induction false} OtherVbucket(l: Ledger, u: nat, done: seq<Write>, pend: seq<Write>, v: nat, kept: seq<Item>, k: Key)
    requires QueueOk(l, u, done, pend, k) && u != v && KeysDistinct(kept)
    ensures QueueOk(l, u, done, pend + Tagged(v, kept), k)
  {
    hide LastWrite, Copies, Replay;
    var batch := Tagged(v, kept);
    CopiesConcat(pend, batch, u, k);
    TaggedCopies(v, kept, u, k);
    NoCopyNoWrite(batch, u, k);
    LastWriteConcat(done + pend, batch, u, k);
    assert done + pend + batch == done + (pend + batch);
  }

  /** A fetch puts the new state of every key it found on the queue. */
  lemma {:induction false} FetchedOk(l: Ledger, id: nat, v: nat, done: seq<Write>, pend: seq<Write>, kept: seq<Item>, k: Key)
    requires LedgerOk(l, id) && QueueOk(l, v, done, pend, k) && k != "" && Copies(pend, v, k) == 0
    requires Inv(l.h.s) && IsDeduplicated(Fetch(l.h.s, PERSISTENCE).1, kept)
    ensures QueueOk(LedgerFetch(l), v, done, pend + Tagged(v, kept), k)
  {
    hide Inv, LedgerOk, Replay, ItemsFor, Copies, HStep, HInv, IsDeduplicated, Fetch;
    var items, batch, l' := Fetch(l.h.s, PERSISTENCE).1, Tagged(v, kept), LedgerFetch(l);
    FetchMeans(l, id, k);
    assert l'.h.log[..|l.h.log|] == l.h.log;
    Drained(l, v, done, pend, k);
    CopiesConcat(pend, batch, v, k);
    assert KeysDistinct(kept) by { DedupDistinct(items, kept); }
    TaggedCopies(v, kept, v, k);
    TaggedItems(v, kept, v);
    LastWriteConcat(done + pend, batch, v, k);
    assert done + pend + batch == done + (pend + batch);
    BatchReplays(l, id, items, kept, k);
    NoCopyNoWrite(batch, v, k);
    LastWriteConcat(done, pend, v, k);
    NoCopyNoWrite(pend, v, k);
  }

  lemma {:induction false} DedupDistinct(items: seq<Item>, kept: seq<Item>)
    requires IsDeduplicated(items, kept)
    ensures KeysDistinct(kept)
  {
  }

  /** The batch replays like the items fetched, and those bring the old state up to the new one. */
  lemma {:induction false} BatchReplays(l: Ledger, id: nat, items: seq<Item>, kept: seq<Item>, k: Key)
    requires LedgerOk(l, id) && k != "" && Inv(l.h.s) && items == Fetch(l.h.s, PERSISTENCE).1 && IsDeduplicated(items, kept)
    requires PERSISTENCE in l.h.got && l.fetched <= |l.h.log|
    ensures Replay(kept, k) == Replay(items, k)
    ensures Replay(l.h.log, k) == if Replay(items, k).Some? then Replay(items, k) else Replay(l.h.log[..l.fetched], k)
  {
    hide Inv, HInv, Replay, IsDeduplicated, HStep;
    LedgerParts(l, id);
    FetchedWrites(l.h.s, PERSISTENCE);
    FetchIsRemaining(l.h.s);
    DedupReplays(items, kept, k);
    FetchMeans(l, id, k);
    ReplayConcat(l.h.got[PERSISTENCE], items, k);
    assert FetchedAt(l, k);
  }

  lemma {:induction false} FetchIsRemaining(s: State)
    requires Inv(s) && PERSISTENCE in s.cursors
    ensures CursorOk(s.chks, s.cursors[PERSISTENCE]) && Fetch(s, PERSISTENCE).1 == Remaining(s, PERSISTENCE)
  {
    hide ListInv, TotalWeight, Remaining;
  }

  /** A front-end operation leaves the queue alone. */
  lemma {:induction false} FrontendOk(l: Ledger, l': Ledger, v: nat, done: seq<Write>, pend: seq<Write>, k: Key)
    requires QueueOk(l, v, done, pend, k)
    requires l'.before == l.before && l'.fetched == l.fetched && |l.h.log| <= |l'.h.log| && l'.h.log[..|l.h.log|] == l.h.log
    ensures QueueOk(l', v, done, pend, k)
  {
    hide LastWrite, Copies, Replay;
    assert l'.h.log[..l.fetched] == l'.h.log[..|l.h.log|][..l.fetched];
    assert l'.h.log[..l.before] == l'.h.log[..|l.h.log|][..l.before];
  }

  // ---------------------------------------------------------------- all vbuckets

  ghost predicate QueuesOk(ledgers: seq<Ledger>, done: seq<Write>, pend: seq<Write>) {
    forall v, k :: 0 <= v < |ledgers| && k != "" ==> QueueOk(ledgers[v], v, done, pend, k)
  }

  ghost predicate LedgersOk(ledgers: seq<Ledger>, managers: seq<State>, ids: seq<nat>) {
    && |ledgers| == |managers| == |ids|
    && forall v :: 0 <= v < |ledgers| ==> LedgerOk(ledgers[v], ids[v]) && ledgers[v].h.s == managers[v]
  }

  /** Nothing of a vbucket is pending. */
  ghost predicate NothingPending(pend: seq<Write>, v: nat) {
    forall k: Key :: Copies(pend, v, k) == 0
  }

  /** Every mutation accepted into a checkpoint up to the published id is among the first `safe`. */
  ghost predicate Honest(into: seq<nat>, published: nat, safe: nat) {
    published > 0 ==> forall j :: 0 <= j < |into| && into[j] <= published ==> j < safe
  }

  /**
   A published id is honest: every mutation accepted into a checkpoint up to it is among the first
   `safe`, and those have left the queue whatever is pending.
   */
  ghost predicate PublishedOk(l: Ledger, id: nat, published: nat, safe: nat, pend: seq<Write>, v: nat) {
    && published <= id
    && safe <= l.fetched && (safe <= l.before || NothingPending(pend, v))
    && Honest(l.into, published, safe)
  }

  ghost predicate AllPublishedOk(ledgers: seq<Ledger>, ids: seq<nat>, published: seq<nat>, safe: seq<nat>, pend: seq<Write>) {
    && |ledgers| == |ids| == |published| == |safe|
    && forall v :: 0 <= v < |ledgers| ==> PublishedOk(ledgers[v], ids[v], published[v], safe[v], pend, v)
  }

  // ---------------------------------------------------------------- steps on all vbuckets

  lemma {:induction false} WrittenAll(ledgers: seq<Ledger>, done: seq<Write>, w: Write, pend: seq<Write>)
    requires QueuesOk(ledgers, done, [w] + pend)
    ensures QueuesOk(ledgers, done + [w], pend)
  {
    hide QueueOk;
    forall v, k | 0 <= v < |ledgers| && k != "" ensures QueueOk(ledgers[v], v, done + [w], pend, k) {
      WrittenOk(ledgers[v], v, done, w, pend, k);
    }
  }

  lemma {:induction false} RejectedAll(ledgers: seq<Ledger>, done: seq<Write>, w: Write, pend: seq<Write>)
    requires QueuesOk(ledgers, done, [w] + pend)
    ensures QueuesOk(ledgers, done, pend + [w])
  {
    hide QueueOk;
    forall v, k | 0 <= v < |ledgers| && k != "" ensures QueueOk(ledgers[v], v, done, pend + [w], k) {
      RejectedOk(ledgers[v], v, done, w, pend, k);
    }
  }

  lemma {:induction false} FewerPending(
      ledgers: seq<Ledger>, ids: seq<nat>, published: seq<nat>, safe: seq<nat>, w: Write, pend: seq<Write>)
    requires AllPublishedOk(ledgers, ids, published, safe, [w] + pend)
    ensures AllPublishedOk(ledgers, ids, published, safe, pend)
    ensures AllPublishedOk(ledgers, ids, published, safe, pend + [w])
  {
    hide Copies;
    forall v | 0 <= v < |ledgers|
      ensures PublishedOk(ledgers[v], ids[v], published[v], safe[v], pend, v)
      ensures PublishedOk(ledgers[v], ids[v], published[v], safe[v], pend + [w], v)
    {
      assert PublishedOk(ledgers[v], ids[v], published[v], safe[v], [w] + pend, v);
      StillNothing(w, pend, v);
    }
  }

  lemma {:induction false} StillNothing(w: Write, pend: seq<Write>, v: nat)
    ensures NothingPending([w] + pend, v) ==> NothingPending(pend, v) && NothingPending(pend + [w], v)
  {
    hide Copies;
    if NothingPending([w] + pend, v) {
      forall k: Key ensures Copies(pend, v, k) == 0 && Copies(pend + [w], v, k) == 0 {
        assert Copies([w] + pend, v, k) == 0;
        CopiesConcat([w], pend, v, k);
        CopiesConcat(pend, [w], v, k);
      }
    }
  }

  lemma {:induction false} NoneBelow(pend: seq<Write>, v: nat)
    requires forall i :: 0 <= i < |pend| ==> pend[i].vb < v
    ensures NothingPending(pend, v)
  {
    forall k: Key ensures Copies(pend, v, k) == 0 {
      NoneOf(pend, v, k);
    }
  }

  lemma {:induction false} NoneOf(pend: seq<Write>, v: nat, k: Key)
    requires forall i :: 0 <= i < |pend| ==> pend[i].vb != v
    ensures Copies(pend, v, k) == 0
  {
    if pend != [] {
      NoneOf(pend[..|pend| - 1], v, k);
    }
  }

  /** One round of the fetch loop. */
  lemma {:induction false} FetchedAll(
      ledgers: seq<Ledger>, managers: seq<State>, ids: seq<nat>, v: nat, done: seq<Write>, pend: seq<Write>, kept: seq<Item>)
    requires LedgersOk(ledgers, managers, ids) && QueuesOk(ledgers, done, pend) && v < |ledgers| && NothingPending(pend, v)
    requires Inv(ledgers[v].h.s) && IsDeduplicated(Fetch(ledgers[v].h.s, PERSISTENCE).1, kept)
    ensures QueuesOk(ledgers[v := LedgerFetch(ledgers[v])], done, pend + Tagged(v, kept))
  {
    hide Inv, LedgerOk, QueueOk, IsDeduplicated, Copies, LedgerFetch, Fetch, Tagged;
    var r := ledgers[v := LedgerFetch(ledgers[v])];
    DedupDistinct(Fetch(ledgers[v].h.s, PERSISTENCE).1, kept);
    forall u, k | 0 <= u < |r| && k != "" ensures QueueOk(r[u], u, done, pend + Tagged(v, kept), k) {
      assert QueueOk(ledgers[u], u, done, pend, k);
      if u == v {
        assert Copies(pend, v, k) == 0;
        FetchedOk(ledgers[v], ids[v], v, done, pend, kept, k);
      } else {
        OtherVbucket(ledgers[u], u, done, pend, v, kept, k);
      }
    }
  }

  lemma {:induction false} FetchedPublished(
      ledgers: seq<Ledger>, managers: seq<State>, ids: seq<nat>, published: seq<nat>, safe: seq<nat>, v: nat, pend: seq<Write>, kept: seq<Item>)
    requires LedgersOk(ledgers, managers, ids) && AllPublishedOk(ledgers, ids, published, safe, pend) && v < |ledgers|
    requires Inv(ledgers[v].h.s) && KeysDistinct(kept)
    ensures var id := Fetch(ledgers[v].h.s, PERSISTENCE).2;
            && LedgersOk(ledgers[v := LedgerFetch(ledgers[v])], managers[v := Fetch(managers[v], PERSISTENCE).0], ids[v := id])
            && AllPublishedOk(ledgers[v := LedgerFetch(ledgers[v])], ids[v := id], published, safe, pend + Tagged(v, kept))
  {
    hide Inv, LedgerOk, Copies, Fetch, Tagged, HStep;
    var l, id := ledgers[v], Fetch(ledgers[v].h.s, PERSISTENCE).2;
    assert LedgerOk(l, ids[v]) && l.h.s == managers[v];
    LedgerFetchOk(l, ids[v]);
    FetchMeans(l, ids[v], "k");
    IdsOnlyGrow(l, ids[v]);
    forall u | 0 <= u < |ledgers| && u != v
      ensures PublishedOk(ledgers[u], ids[u], published[u], safe[u], pend + Tagged(v, kept), u)
    {
      assert PublishedOk(ledgers[u], ids[u], published[u], safe[u], pend, u);
      OthersStayEmpty(pend, v, kept, u);
    }
    assert PublishedOk(l, ids[v], published[v], safe[v], pend, v);
  }

  lemma {:induction false} IdsOnlyGrow(l: Ledger, id: nat)
    requires LedgerOk(l, id) && Inv(l.h.s)
    ensures Fetch(l.h.s, PERSISTENCE).2 >= id
    ensures l.before <= l.fetched <= |l.h.log| == |l.into|
  {
    hide ListInv, CursorsInv, TotalWeight, HInv, Remaining, FetchedAt;
    LedgerParts(l, id);
  }

  lemma {:induction false} OthersStayEmpty(pend: seq<Write>, v: nat, kept: seq<Item>, u: nat)
    requires u != v && KeysDistinct(kept)
    ensures NothingPending(pend, u) ==> NothingPending(pend + Tagged(v, kept), u)
  {
    hide Copies, Tagged;
    if NothingPending(pend, u) {
      forall k: Key ensures Copies(pend + Tagged(v, kept), u, k) == 0 {
        assert Copies(pend, u, k) == 0;
        CopiesConcat(pend, Tagged(v, kept), u, k);
        TaggedCopies(v, kept, u, k);
      }
    }
  }

  // ---------------------------------------------------------------- the flusher object

  /** Has the persistence cursor anything ahead? */
  predicate HasNextForPersistence(s: State)
    requires Inv(s)
  {
    var c := s.cursors[PERSISTENCE];
    !(c.pos + 1 == |s.chks[c.chk].items| && s.chks[c.chk].open)
  }

  /** A manager, its published-to-be id and its ledger after everything ahead was fetched for persistence. */
  ghost predicate Refetched(s: State, s': State, id: nat, l: Ledger, l': Ledger) {
    && Inv(s) && s' == Fetch(s, PERSISTENCE).0 && id == Fetch(s, PERSISTENCE).2 && l' == LedgerFetch(l)
  }

  /** What has left the queue for a key is what the log said at the last fetch. */
  ghost predicate Settled(l: Ledger, v: nat, done: seq<Write>, k: Key) {
    l.fetched <= |l.h.log| && LastWrite(done, v, k) == Replay(l.h.log[..l.fetched], k)
  }

  ghost predicate AllSettled(ledgers: seq<Ledger>, done: seq<Write>) {
    forall v, k :: 0 <= v < |ledgers| && k != "" ==> Settled(ledgers[v], v, done, k)
  }

  /** Everything accepted so far was there at the last fetch, key by key. */
  ghost predicate CaughtUp(l: Ledger) {
    l.fetched <= |l.h.log| && forall k :: k != "" ==> Replay(l.h.log[..l.fetched], k) == Replay(l.h.log, k)
  }

  ghost predicate NothingToFlush(managers: seq<State>, dead: set<nat>) {
    forall v :: 0 <= v < |managers| && v !in dead ==> Inv(managers[v]) && !HasNextForPersistence(managers[v])
  }

  ghost predicate Fetched(before: seq<Ledger>, after: seq<Ledger>) {
    |before| == |after| && forall v :: 0 <= v < |after| ==> after[v] == LedgerFetch(before[v])
  }

  /** The storage layer takes so many writes off the queue in one call. */
  predicate TakesAll(a: Answers, n: nat) {
    a.entered && a.room >= n && |a.verdicts| >= n && forall i :: 0 <= i < n ==> a.verdicts[i] != Rejects
  }

  /** One pass takes all that is queued, the next all that was rejected before. */
  predicate TakenInTwo(passes: seq<Pass>, queued: nat, rejected: nat) {
    |passes| > 1 && TakesAll(passes[0].answers, queued) && TakesAll(passes[1].answers, rejected)
  }

  ghost predicate AllGrew(before: seq<Ledger>, after: seq<Ledger>) {
    |before| == |after| && forall v :: 0 <= v < |after| ==> Grew(before[v], after[v])
  }

  lemma {:induction false} GrewSelf(ledgers: seq<Ledger>)
    ensures AllGrew(ledgers, ledgers)
  {
    forall v | 0 <= v < |ledgers| ensures Grew(ledgers[v], ledgers[v]) {
      assert ledgers[v].h.log[..|ledgers[v].h.log|] == ledgers[v].h.log;
    }
  }

  lemma {:induction false} GrewAgain(a: seq<Ledger>, b: seq<Ledger>, c: seq<Ledger>)
    requires AllGrew(a, b) && AllGrew(b, c)
    ensures AllGrew(a, c)
  {
    forall v | 0 <= v < |c| ensures Grew(a[v], c[v]) {
      assert Grew(a[v], b[v]) && Grew(b[v], c[v]);
      assert c[v].h.log[..|a[v].h.log|] == c[v].h.log[..|b[v].h.log|][..|a[v].h.log|];
    }
  }

  class Flusher {
    var managers: seq<State>                  // the checkpoint manager of each vbucket
    var persistenceCheckpointIds: seq<nat>
    var published: seq<nat>
    var writing: seq<Write>
    var rejectQueue: seq<Write>
    var flushing: bool                        // a flush is under way
    var state: FlusherState
    ghost var ledgers: seq<Ledger>
    ghost var done: seq<Write>
    ghost var safe: seq<nat>

    ghost predicate Valid()
      reads this
    {
      && LedgersOk(ledgers, managers, persistenceCheckpointIds)
      && QueuesOk(ledgers, done, writing + rejectQueue)
      && AllPublishedOk(ledgers, persistenceCheckpointIds, published, safe, writing + rejectQueue)
      && (!flushing ==> writing == [] && rejectQueue == [])
    }

    constructor (ids: seq<nat>)
      ensures Valid() && !flushing && state == Initializing && |managers| == |ledgers| == |ids| && done == []
      ensures forall v :: 0 <= v < |ids| ==> managers[v] == Init(ids[v]) && published[v] == 0
      ensures forall v :: 0 <= v < |ids| ==> ledgers[v] == Ledger(InitHist(ids[v]), [], 0, 0)
    {
      var n := |ids|;
      managers := seq(n, v requires 0 <= v < n => Init(ids[v]));
      persistenceCheckpointIds := seq(n, v => 0);
      published := seq(n, v => 0);
      writing, rejectQueue, flushing, state := [], [], false, Initializing;
      ledgers := seq(n, v requires 0 <= v < n => Ledger(InitHist(ids[v]), [], 0, 0));
      done := [];
      safe := seq(n, v => 0);
      new;
      hide LedgerOk, QueueOk, PublishedOk, Init, InitHist;
      forall v | 0 <= v < n
        ensures LedgerOk(ledgers[v], 0) && ledgers[v].h.s == managers[v] && PublishedOk(ledgers[v], 0, 0, 0, [], v)
      {
        FreshLedger(ids[v], v);
      }
      assert writing + rejectQueue == [];
      forall v, k | 0 <= v < n && k != "" ensures QueueOk(ledgers[v], v, [], [], k) {
        FreshQueue(ids[v], v, k);
      }
    }

    /** An operation of another thread on one checkpoint manager. */
    method Frontend(v: nat, op: Op)
      requires Valid() && v < |managers| && |managers[v].chks| >= 1 && Inv(managers[v])
      requires Enabled(managers[v], op) && v < |persistenceCheckpointIds| && Allowed(managers[v], op, persistenceCheckpointIds[v])
      modifies this`managers, this`ledgers
      ensures Valid() && managers == old(managers)[v := Step(old(managers)[v], op)]
      ensures v < |old(ledgers)| && ledgers == old(ledgers)[v := LedgerStep(old(ledgers)[v], op)] && AllGrew(old(ledgers), ledgers)
    {
      hide LedgerOk, QueueOk, PublishedOk, Inv, Step, Enabled, Allowed, LedgerStep;
      FrontendAll(ledgers, managers, persistenceCheckpointIds, published, safe, done, writing + rejectQueue, v, op);
      managers := managers[v := Step(managers[v], op)];
      ledgers := ledgers[v := LedgerStep(ledgers[v], op)];
    }

    /** A mutation is accepted in an active vbucket with an open checkpoint. */
    method Accept(v: nat, it: Item, env: Env, ghost log: seq<Item>)
      requires Valid() && v < |managers| == |ledgers| && Ready(ledgers[v], log) && Mutates(it) && env.vbState == Active
      modifies this`managers, this`ledgers
      ensures Valid() && |managers| == |ledgers| == |old(ledgers)| && Ready(ledgers[v], log + [it])
      ensures ledgers[v].fetched == old(ledgers)[v].fetched
    {
      hide LedgerOk, QueuesOk, AllPublishedOk, Inv, Step, Enabled, LedgerStep, Ready, Grew;
      ghost var l := ledgers[v];
      ReadyQueued(l, log, it, env);
      Sizes();
      ManagerOk(v);
      assert l.h.s == managers[v];
      ReadyShape(l, log);
      Frontend(v, Queue(it, env));
      GrewFetched(l, ledgers[v]);
    }

    /** Operations of other threads; one that its caller may not invoke, or that is not allowed now, is left out. */
    method Serve(requests: seq<Request>)
      requires Valid()
      modifies this`managers, this`ledgers
      ensures Valid() && AllGrew(old(ledgers), ledgers)
    {
      hide LedgersOk, QueuesOk, AllPublishedOk, Inv, Step, Enabled, Allowed, LedgerStep, Grew;
      GrewSelf(ledgers);
      for i := 0 to |requests|
        invariant Valid() && AllGrew(old(ledgers), ledgers)
      {
        var v, op := requests[i].vb, requests[i].op;
        Sizes();
        if v < |managers| && |managers[v].chks| >= 1 && Enabled(managers[v], op)
           && Allowed(managers[v], op, persistenceCheckpointIds[v]) {
          ghost var was := ledgers;
          ManagerOk(v);
          Frontend(v, op);
          GrewAgain(old(ledgers), was, ledgers);
        }
      }
    }

    lemma ManagerOk(v: nat)
      requires Valid() && v < |managers|
      ensures Inv(managers[v])
    {
      hide QueuesOk, AllPublishedOk;
      LedgerParts(ledgers[v], persistenceCheckpointIds[v]);
    }

    /**
     Published checkpoint ids are honest at every moment: what has left the queue is, for every key,
     what the log said after some number of mutations that covers every mutation accepted into a
     checkpoint with an id up to the published one.
     */
    lemma PublishedIsDurable(v: nat, k: Key) returns (m: nat)
      requires Valid() && v < |managers| && k != ""
      ensures v < |ledgers| && v < |published| && m <= |ledgers[v].h.log|
      ensures LastWrite(done, v, k) == Replay(ledgers[v].h.log[..m], k)
      ensures published[v] > 0 ==> forall j :: 0 <= j < |ledgers[v].into| && ledgers[v].into[j] <= published[v] ==> j < m
    {
      hide LastWrite, Copies, Replay, LedgerOk;
      var l, pend := ledgers[v], writing + rejectQueue;
      assert QueueOk(l, v, done, pend, k);
      assert PublishedOk(l, persistenceCheckpointIds[v], published[v], safe[v], pend, v);
      if Copies(pend, v, k) == 0 {
        m := l.fetched;
        Drained(l, v, done, pend, k);
      } else {
        m := l.before;
      }
    }

    /** Is there anything to flush? */
    method HasItemsForPersistence(dead: set<nat>) returns (has: bool)
      requires Valid()
      ensures forall v :: 0 <= v < |managers| ==> Inv(managers[v])
      ensures has <==> exists v :: 0 <= v < |managers| && v !in dead && HasNextForPersistence(managers[v])
    {
      hide LedgerOk, QueuesOk, AllPublishedOk, Inv;
      forall v | 0 <= v < |managers| ensures Inv(managers[v]) {
        LedgerParts(ledgers[v], persistenceCheckpointIds[v]);
      }
      has := false;
      var v := 0;
      while v < |managers|
        invariant v <= |managers| && !has
        invariant forall u :: 0 <= u < v && u !in dead ==> !HasNextForPersistence(managers[u])
      {
        if v !in dead && HasNextForPersistence(managers[v]) {
          has := true;
          return;
        }
        v := v + 1;
      }
    }

    /** Fetch from every vbucket, deduplicate, and queue the writes. */
    method BeginFlush(dead: set<nat>)
      requires Valid() && !flushing
      modifies this`managers, this`persistenceCheckpointIds, this`writing, this`flushing, this`ledgers
      ensures Valid() && |managers| == |old(managers)|
      ensures flushing <==> exists v :: 0 <= v < |old(managers)| && v !in dead && Inv(old(managers)[v]) && HasNextForPersistence(old(managers)[v])
      ensures !flushing ==> managers == old(managers) && persistenceCheckpointIds == old(persistenceCheckpointIds)
      ensures !flushing ==> ledgers == old(ledgers) && NothingToFlush(old(managers), dead)
      ensures flushing ==> Fetched(old(ledgers), ledgers)
      ensures flushing ==> forall v :: 0 <= v < |managers| ==>
                Refetched(old(managers)[v], managers[v], persistenceCheckpointIds[v], old(ledgers)[v], ledgers[v])
    {
      hide LedgersOk, QueuesOk, AllPublishedOk, LedgerFetch, Fetch, HasNextForPersistence, Inv;
      var has := HasItemsForPersistence(dead);
      if has {
        flushing := true;
        FetchEverything();
      }
    }

    method FetchEverything()
      requires Valid() && writing == [] && rejectQueue == [] && flushing
      modifies this`managers, this`persistenceCheckpointIds, this`writing, this`ledgers
      ensures Valid() && |managers| == |old(managers)| && Fetched(old(ledgers), ledgers)
      ensures forall v :: 0 <= v < |managers| ==>
                Refetched(old(managers)[v], managers[v], persistenceCheckpointIds[v], old(ledgers)[v], ledgers[v])
    {
      hide LedgerOk, QueueOk, PublishedOk, Inv, IsDeduplicated, LedgerFetch, Fetch, Copies;
      var v := 0;
      assert writing + rejectQueue == writing;
      while v < |managers|
        invariant v <= |managers| == |old(managers)| && Valid()
        invariant forall i :: 0 <= i < |writing| ==> writing[i].vb < v
        invariant forall u :: v <= u < |managers| ==> managers[u] == old(managers)[u] && ledgers[u] == old(ledgers)[u]
        invariant forall u :: 0 <= u < v ==>
                    Refetched(old(managers)[u], managers[u], persistenceCheckpointIds[u], old(ledgers)[u], ledgers[u])
      {
        assert writing + rejectQueue == writing;
        LedgerParts(ledgers[v], persistenceCheckpointIds[v]);
        var (s, items, checkpointId) := Fetch(managers[v], PERSISTENCE);
        var kept, dedup := Deduplicate(items);
        var batch := OptimizeWrites(kept);
        ReorderKeeps(items, kept, batch);
        DedupDistinct(items, batch);
        NoneBelow(writing, v);
        FetchedAll(ledgers, managers, persistenceCheckpointIds, v, done, writing, batch);
        FetchedPublished(ledgers, managers, persistenceCheckpointIds, published, safe, v, writing, batch);
        managers := managers[v := s];
        persistenceCheckpointIds := persistenceCheckpointIds[v := checkpointId];
        ledgers := ledgers[v := LedgerFetch(ledgers[v])];
        writing := PushToOutgoingQueue(v, batch);
        assert writing + rejectQueue == writing;
        v := v + 1;
      }
    }

    function PushToOutgoingQueue(v: nat, items: seq<Item>): seq<Write>
      reads this
    {
      writing + Tagged(v, items)
    }

    /** Take writes off the queue until it is empty, the transaction is full or the storage engine preempts. */
    method FlushSome(a: Answers)
      requires Valid() && flushing
      modifies this`writing, this`rejectQueue, this`done
      ensures Valid() && old(done) <= done
      ensures multiset(done) + multiset(writing) + multiset(rejectQueue)
              == multiset(old(done)) + multiset(old(writing)) + multiset(old(rejectQueue))
      ensures !a.entered ==> done == old(done) && writing == [] && rejectQueue == old(rejectQueue) + old(writing)
      ensures |done| <= |old(done)| + |a.verdicts|
      ensures TakesAll(a, |old(writing)|) ==> writing == [] && rejectQueue == old(rejectQueue)
    {
      if !a.entered {
        RejectEverything();
        return;
      }
      var completed := 0;
      while completed < a.room && completed < |a.verdicts| && writing != []
        invariant Valid() && flushing && old(done) <= done && |done| <= |old(done)| + completed
        invariant completed <= |a.verdicts| && |writing| == |old(writing)| - completed
        invariant TakesAll(a, |old(writing)|) ==> rejectQueue == old(rejectQueue)
        invariant multiset(done) + multiset(writing) + multiset(rejectQueue)
                  == multiset(old(done)) + multiset(old(writing)) + multiset(old(rejectQueue))
        decreases a.room - completed
      {
        FlushOne(a.verdicts[completed]);
        completed := completed + 1;
      }
    }

    method FlushOne(verdict: Verdict)
      requires Valid() && flushing && writing != []
      modifies this`writing, this`rejectQueue, this`done
      ensures Valid() && flushing && writing == old(writing)[1..]
      ensures if verdict != Rejects then done == old(done) + [old(writing)[0]] && rejectQueue == old(rejectQueue)
              else done == old(done) && rejectQueue == old(rejectQueue) + [old(writing)[0]]
      ensures multiset(done) + multiset(writing) + multiset(rejectQueue)
              == multiset(old(done)) + multiset(old(writing)) + multiset(old(rejectQueue))
    {
      hide QueuesOk, AllPublishedOk, LedgersOk;
      var w := writing[0];
      assert writing == [w] + writing[1..];
      assert writing + rejectQueue == [w] + (writing[1..] + rejectQueue);
      FewerPending(ledgers, persistenceCheckpointIds, published, safe, w, writing[1..] + rejectQueue);
      if verdict != Rejects {
        WrittenAll(ledgers, done, w, writing[1..] + rejectQueue);
        done := done + [w];
        writing := writing[1..];
      } else {
        RejectedAll(ledgers, done, w, writing[1..] + rejectQueue);
        assert writing[1..] + rejectQueue + [w] == writing[1..] + (rejectQueue + [w]);
        writing := writing[1..];
        rejectQueue := rejectQueue + [w];
      }
    }

    /** No transaction could be opened: the whole queue is rejected. */
    method RejectEverything()
      requires Valid() && flushing
      modifies this`writing, this`rejectQueue, this`done
      ensures Valid() && done == old(done) && writing == [] && rejectQueue == old(rejectQueue) + old(writing)
      ensures multiset(done) + multiset(writing) + multiset(rejectQueue)
              == multiset(old(done)) + multiset(old(writing)) + multiset(old(rejectQueue))
    {
      ghost var all := writing;
      ghost var i := 0;
      while writing != []
        invariant Valid() && flushing && done == old(done)
        invariant i <= |all| && writing == all[i..] && rejectQueue == old(rejectQueue) + all[..i]
        invariant multiset(done) + multiset(writing) + multiset(rejectQueue)
                  == multiset(old(done)) + multiset(old(writing)) + multiset(old(rejectQueue))
        decreases |writing|
      {
        FlushOne(Rejects);
        assert all[..i + 1] == all[..i] + [all[i]];
        i := i + 1;
      }
    }

    /** The rejected writes go round again. */
    method RequeueRejectedItems()
      requires Valid() && flushing && writing == []
      modifies this`writing, this`rejectQueue
      ensures Valid() && writing == old(rejectQueue) && rejectQueue == []
    {
      hide QueuesOk, AllPublishedOk, LedgersOk;
      ghost var all := rejectQueue;
      while rejectQueue != []
        invariant writing + rejectQueue == all && Valid() && flushing
        decreases |rejectQueue|
      {
        assert writing + rejectQueue == (writing + [rejectQueue[0]]) + rejectQueue[1..];
        writing := writing + [rejectQueue[0]];
        rejectQueue := rejectQueue[1..];
      }
    }

    /** Publish the checkpoint ids of this flush and end it. */
    method CompleteFlush(dead: set<nat>)
      requires Valid() && flushing && writing == [] && rejectQueue == []
      modifies this`published, this`safe, this`flushing
      ensures Valid() && !flushing && |published| == |managers|
      ensures forall v :: 0 <= v < |published| ==>
                published[v] == if v in dead || persistenceCheckpointIds[v] == 0 then old(published)[v] else persistenceCheckpointIds[v]
      ensures AllSettled(ledgers, done)
    {
      hide LedgersOk, QueueOk, PublishedOk, Copies, Replay, LastWrite;
      assert writing + rejectQueue == [];
      var v := 0;
      assert |published| == |managers| by { Sizes(); }
      while v < |managers|
        invariant v <= |managers| == |published| && Valid() && flushing
        invariant forall u :: v <= u < |published| ==> published[u] == old(published)[u]
        invariant forall u :: 0 <= u < v ==>
                    published[u] == if u in dead || persistenceCheckpointIds[u] == 0 then old(published)[u] else persistenceCheckpointIds[u]
      {
        Publishable(v);
        if v !in dead && persistenceCheckpointIds[v] > 0 && persistenceCheckpointIds[v] != published[v] {
          published := published[v := persistenceCheckpointIds[v]];
          safe := safe[v := ledgers[v].fetched];
        }
        v := v + 1;
      }
      forall v, k | 0 <= v < |ledgers| && k != "" ensures Settled(ledgers[v], v, done, k) {
        assert QueueOk(ledgers[v], v, done, [], k);
        SettledWhenEmpty(ledgers[v], v, done, k);
      }
      flushing := false;
    }

    lemma Sizes()
      requires Valid()
      ensures |published| == |managers| == |ledgers| == |persistenceCheckpointIds| == |safe|
    {
    }

    lemma Publishable(v: nat)
      requires Valid() && v < |managers| && writing == [] && rejectQueue == []
      ensures v < |ledgers| == |persistenceCheckpointIds|
      ensures PublishedOk(ledgers[v], persistenceCheckpointIds[v], persistenceCheckpointIds[v], ledgers[v].fetched, [], v)
    {
      hide QueuesOk, HInv, FetchedAt;
      EmptyPending(v);
      assert LedgerOk(ledgers[v], persistenceCheckpointIds[v]);
    }

    /** One pass: start a flush if none is under way, work on the queue, and requeue or publish when it is empty. */
    method DoFlush(dead: set<nat>, a: Answers)
      requires Valid()
      modifies this
      ensures Valid() && |managers| == |old(managers)| && old(done) <= done
      ensures old(flushing) ==> managers == old(managers) && ledgers == old(ledgers)
      ensures !old(flushing) ==>
                (ledgers == old(ledgers) && !flushing && NothingToFlush(old(managers), dead)) || Fetched(old(ledgers), ledgers)
      ensures published != old(published) ==> !flushing && AllSettled(ledgers, done)
      ensures |published| == |persistenceCheckpointIds| == |managers|
      ensures !flushing && (old(flushing) || !NothingToFlush(old(managers), dead)) ==>
                forall v :: 0 <= v < |published| && v !in dead && persistenceCheckpointIds[v] > 0 ==> published[v] == persistenceCheckpointIds[v]
      ensures flushing <==> writing != []
      ensures |done| <= |old(done)| + |a.verdicts|
      ensures old(flushing) && TakesAll(a, |old(writing)|) ==> writing == old(rejectQueue) && rejectQueue == []
      ensures state == old(state) || (old(state) == Pausing && state == Paused)
    {
      hide LedgersOk, QueuesOk, AllPublishedOk, QueueOk, Inv, TakesAll, NothingToFlush, Fetched, AllSettled, Refetched, HasNextForPersistence;
      if !flushing {
        BeginFlush(dead);
      }
      if flushing {
        if writing != [] {
          FlushSome(a);
          if state == Pausing {
            state := Paused;
          }
        }
        if writing == [] {
          if rejectQueue != [] {
            RequeueRejectedItems();
          } else {
            CompleteFlush(dead);
          }
        }
      }
      Sizes();
    }

    /**
     The drain of a graceful stop: one pass, then passes until no flush is under way, while other
     threads go on. The drain is still going on when the passes run out.

     When it has finished, everything accepted in a live vbucket before it began has left the queue
     if and only if no flush was under way, so that it began with a fetch, or nothing that lay ahead
     of the persistence cursor changed a key.
     */
    method Drain(dead: set<nat>, passes: seq<Pass>) returns (finished: bool)
      requires Valid() && |passes| > 0
      modifies this
      ensures Valid() && |ledgers| == |old(ledgers)| && finished == !flushing && old(done) <= done
      ensures state == old(state) || (old(state) == Pausing && state == Paused)
      ensures old(flushing) ==> AllGrew(old(ledgers), ledgers)
      ensures finished ==> AllSettled(ledgers, done)
      ensures finished ==> forall v :: 0 <= v < |ledgers| && v !in dead ==>
                (Handled(done, v, old(ledgers)[v].h.log) <==> !old(flushing) || NothingNewAhead(old(ledgers)[v]))
      ensures old(flushing) && TakenInTwo(passes, |old(writing)|, |old(rejectQueue)|) ==> finished
    {
      hide LedgersOk, QueuesOk, AllPublishedOk, NothingToFlush, AllGrew, AllSettled, TakesAll, Handled, NothingNewAhead;
      Sizes();
      DoFlush(dead, passes[0].answers);
      Sizes();
      ghost var after := ledgers;
      GrewSelf(ledgers);
      var i := 1;
      while flushing && i < |passes|
        invariant 1 <= i <= |passes| && Valid() && AllGrew(after, ledgers) && old(done) <= done
        invariant state == old(state) || (old(state) == Pausing && state == Paused)
        invariant flushing <==> writing != []
        invariant old(flushing) && TakesAll(passes[0].answers, |old(writing)|) && i == 1 ==> writing == old(rejectQueue) && rejectQueue == []
        invariant old(flushing) && TakenInTwo(passes, |old(writing)|, |old(rejectQueue)|) && i > 1 ==> !flushing
      {
        ghost var was := ledgers;
        Serve(passes[i - 1].requests);
        GrewAgain(after, was, ledgers);
        DoFlush(dead, passes[i].answers);
        i := i + 1;
      }
      finished := !flushing;
      assert |ledgers| == |old(ledgers)| by { SameNumber(old(ledgers), after, ledgers); }
      if finished {
        SettledAtRest();
        DrainedExactly(old(ledgers), old(managers), old(persistenceCheckpointIds), after, ledgers, done, dead, old(flushing));
      }
    }

    lemma SettledAtRest()
      requires Valid() && !flushing
      ensures AllSettled(ledgers, done)
    {
      hide LedgersOk, AllPublishedOk, QueueOk, Settled;
      assert writing + rejectQueue == [];
      forall v, k | 0 <= v < |ledgers| && k != "" ensures Settled(ledgers[v], v, done, k) {
        assert QueueOk(ledgers[v], v, done, [], k);
        SettledWhenEmpty(ledgers[v], v, done, k);
      }
    }

    method TransitionState(to: FlusherState) returns (ok: bool)
      requires Valid()
      modifies this`state
      ensures Valid() && ok == ValidTransition(old(state), to)
      ensures state == if ok then to else old(state)
    {
      ok := ValidTransition(state, to);
      if ok {
        state := to;
      }
    }

    /** One run of the flusher task: whether it is to be scheduled again. */
    method StepTask(dead: set<nat>, passes: seq<Pass>) returns (again: bool)
      requires Valid() && |passes| > 0
      modifies this
      ensures Valid() && (state == old(state) || ValidTransition(old(state), state))
      ensures |ledgers| == |old(ledgers)| && old(done) <= done
      ensures again == (state == Running && (old(state) == Initializing || old(state) == Running))
      ensures old(state) == Paused || old(state) == Stopped ==> done == old(done) && published == old(published)
      ensures state == Stopped && old(state) != Stopped ==>
                old(state) == Stopping && !flushing && writing == [] && rejectQueue == [] && AllSettled(ledgers, done)
      ensures state == Stopped && old(state) != Stopped ==> forall v :: 0 <= v < |ledgers| && v !in dead ==>
                (Handled(done, v, old(ledgers)[v].h.log) <==> !old(flushing) || NothingNewAhead(old(ledgers)[v]))
    {
      hide LedgersOk, QueuesOk, AllPublishedOk, AllSettled, Handled, NothingNewAhead, Fetched, AllGrew, NothingToFlush, TakesAll, TakenInTwo;
      Sizes();
      again := false;
      match state
      case Initializing =>
        var ok := TransitionState(Running);
        again := true;
      case Paused =>
      case Pausing =>
        var ok := TransitionState(Paused);
      case Running =>
        DoFlush(dead, passes[0].answers);
        Sizes();
        again := state == Running;
      case Stopping =>
        var finished := Drain(dead, passes);
        if finished {
          var ok := TransitionState(Stopped);
        }
      case Stopped =>
    }
  }

  lemma {:induction false} SettledWhenEmpty(l: Ledger, v: nat, done: seq<Write>, k: Key)
    requires QueueOk(l, v, done, [], k)
    ensures Settled(l, v, done, k)
  {
    hide LastWrite, Replay;
    Drained(l, v, done, [], k);
  }

  lemma {:induction false} EmptyPending(v: nat)
    ensures NothingPending([], v)
  {
  }

  lemma {:induction false} FreshLedger(id: nat, v: nat)
    ensures var l := Ledger(InitHist(id), [], 0, 0);
            LedgerOk(l, 0) && l.h.s == Init(id) && PublishedOk(l, 0, 0, 0, [], v)
  {
    hide HInv, Replay;
    InitHInv(id);
    var l := Ledger(InitHist(id), [], 0, 0);
    forall k | k != "" ensures FetchedAt(l, k) {
      assert l.h.log[..0] == [];
    }
  }

  lemma {:induction false} FreshQueue(id: nat, v: nat, k: Key)
    ensures QueueOk(Ledger(InitHist(id), [], 0, 0), v, [], [], k)
  {
  }

  lemma {:induction false} FrontendAll(
      ledgers: seq<Ledger>, managers: seq<State>, ids: seq<nat>, published: seq<nat>, safe: seq<nat>, done: seq<Write>, pend: seq<Write>,
      v: nat, op: Op)
    requires LedgersOk(ledgers, managers, ids) && QueuesOk(ledgers, done, pend) && AllPublishedOk(ledgers, ids, published, safe, pend)
    requires v < |ledgers| && |managers[v].chks| >= 1 && Inv(managers[v]) && Enabled(managers[v], op) && Allowed(managers[v], op, ids[v])
    ensures LedgersOk(ledgers[v := LedgerStep(ledgers[v], op)], managers[v := Step(managers[v], op)], ids)
    ensures QueuesOk(ledgers[v := LedgerStep(ledgers[v], op)], done, pend)
    ensures AllPublishedOk(ledgers[v := LedgerStep(ledgers[v], op)], ids, published, safe, pend)
    ensures AllGrew(ledgers, ledgers[v := LedgerStep(ledgers[v], op)])
  {
    hide LedgerOk, QueueOk, Inv, Step, Enabled, Allowed, NothingPending;
    GrewSelf(ledgers);
    var l, l' := ledgers[v], LedgerStep(ledgers[v], op);
    assert LedgerOk(l, ids[v]) && l.h.s == managers[v];
    LedgerStepOk(l, op, ids[v]);
    StepState(l.h, op);
    forall k | k != "" ensures QueueOk(l', v, done, pend, k) {
      assert QueueOk(l, v, done, pend, k);
      FrontendOk(l, l', v, done, pend, k);
    }
    assert PublishedOk(l, ids[v], published[v], safe[v], pend, v);
    assert PublishedOk(l', ids[v], published[v], safe[v], pend, v) by {
      forall j | 0 <= j < |l'.into| && l'.into[j] <= published[v] && published[v] > 0 ensures j < safe[v] {
        if j < |l.into| {
          assert l'.into[j] == l'.into[..|l.into|][j];
        }
      }
    }
  }

  lemma {:induction false} StepState(h: Hist, op: Op)
    requires Inv(h.s) && Enabled(h.s, op)
    ensures HStep(h, op).s == Step(h.s, op)
  {
    hide Inv, Step, Fetch, Next;
  }

  /** A persistence cursor with nothing ahead has handed out everything accepted. */
  lemma {:induction false} AtEndCaughtUp(l: Ledger, id: nat)
    requires LedgerOk(l, id) && Inv(l.h.s) && !HasNextForPersistence(l.h.s)
    ensures CaughtUp(l)
  {
    hide HInv, Replay, FetchedAt;
    LedgerParts(l, id);
    AtEndNothingAhead(l.h.s);
    forall k | k != "" ensures Replay(l.h.log[..l.fetched], k) == Replay(l.h.log, k) {
      assert FetchedAt(l, k);
      FetchedParts(l, k);
      NothingLost(l.h, PERSISTENCE, k);
      assert l.h.got[PERSISTENCE] + [] == l.h.got[PERSISTENCE];
    }
  }

  /** What lies ahead of the persistence cursor says nothing new about a key. */
  ghost predicate NoNewsAhead(l: Ledger, k: Key)
    requires Inv(l.h.s) && PERSISTENCE in l.h.got
  {
    var ahead := Replay(Remaining(l.h.s, PERSISTENCE), k);
    ahead.None? || ahead == Replay(l.h.got[PERSISTENCE], k)
  }

  /** The last fetch had everything exactly when nothing ahead of the persistence cursor changes a key. */
  lemma {:induction false} CaughtUpMeans(l: Ledger, id: nat)
    requires LedgerOk(l, id) && Inv(l.h.s)
    ensures PERSISTENCE in l.h.got
    ensures CaughtUp(l) <==> forall k :: k != "" ==> NoNewsAhead(l, k)
  {
    hide HInv, Replay, FetchedAt, Inv, Remaining;
    LedgerParts(l, id);
    FetchedParts(l, "k");
    assert l.fetched <= |l.h.log|;
    forall k | k != "" ensures Replay(l.h.log[..l.fetched], k) == Replay(l.h.log, k) <==> NoNewsAhead(l, k) {
      assert FetchedAt(l, k);
      FetchedParts(l, k);
      NothingLost(l.h, PERSISTENCE, k);
      ReplayConcat(l.h.got[PERSISTENCE], Remaining(l.h.s, PERSISTENCE), k);
    }
  }

  lemma {:induction false} FetchedParts(l: Ledger, k: Key)
    requires FetchedAt(l, k)
    ensures PERSISTENCE in l.h.got && l.fetched <= |l.h.log|
    ensures Replay(l.h.got[PERSISTENCE], k) == Replay(l.h.log[..l.fetched], k)
  {
  }

  lemma {:induction false} AtEndNothingAhead(s: State)
    requires Inv(s) && !HasNextForPersistence(s)
    ensures CursorOk(s.chks, s.cursors[PERSISTENCE]) && Remaining(s, PERSISTENCE) == []
  {
    hide TotalWeight, ChkInv, ClosedAtEnd;
    var c := s.cursors[PERSISTENCE];
    assert CursorOk(s.chks, c);
    assert c.chk == |s.chks| - 1;
    assert s.chks[c.chk + 1..] == [];
  }

  lemma {:induction false} FetchCaughtUp(l: Ledger, id: nat)
    requires LedgerOk(l, id)
    ensures CaughtUp(LedgerFetch(l))
  {
    hide HInv, HStep, Replay, FetchedAt;
    FetchMeans(l, id, "k");
    assert l.h.log[..|l.h.log|] == l.h.log;
  }

  /** A drain that began with a fetch, or found nothing to fetch, leaves nothing behind. */
  lemma {:induction false} AllCaughtUp(before: seq<Ledger>, managers: seq<State>, ids: seq<nat>, after: seq<Ledger>, dead: set<nat>)
    requires LedgersOk(before, managers, ids)
    requires (after == before && NothingToFlush(managers, dead)) || Fetched(before, after)
    ensures forall v :: 0 <= v < |after| && v !in dead ==> CaughtUp(after[v])
  {
    hide LedgerOk, CaughtUp, Inv;
    forall v | 0 <= v < |after| && v !in dead ensures CaughtUp(after[v]) {
      assert LedgerOk(before[v], ids[v]) && before[v].h.s == managers[v];
      if Fetched(before, after) {
        FetchCaughtUp(before[v], ids[v]);
      } else {
        AtEndCaughtUp(before[v], ids[v]);
      }
    }
  }

  /** Everything a log says has left the queue. */
  ghost predicate Handled(done: seq<Write>, v: nat, log: seq<Item>) {
    forall k :: k != "" ==> LastWrite(done, v, k) == Replay(log, k)
  }

  /** Nothing ahead of the persistence cursor changes a key. */
  ghost predicate NothingNewAhead(l: Ledger) {
    Inv(l.h.s) && PERSISTENCE in l.h.got && forall k :: k != "" ==> NoNewsAhead(l, k)
  }

  /** A persistence cursor with nothing ahead is enough. */
  lemma {:induction false} NothingAheadSuffices(l: Ledger, id: nat)
    requires LedgerOk(l, id) && Inv(l.h.s) && !HasNextForPersistence(l.h.s)
    ensures NothingNewAhead(l)
  {
    hide HInv, FetchedAt, Inv, Remaining;
    LedgerParts(l, id);
    AtEndNothingAhead(l.h.s);
  }

  lemma {:induction false} SameNumber(a: seq<Ledger>, b: seq<Ledger>, c: seq<Ledger>)
    requires |a| == |b| && AllGrew(b, c)
    ensures |a| == |c|
  {
  }

  /** What the log said when the drain began has left the queue exactly if the last fetch had all of it. */
  lemma {:induction false} HandledUpTo(l: Ledger, l': Ledger, v: nat, done: seq<Write>)
    requires Grew(l, l') && l.fetched <= |l.h.log| && forall k :: k != "" ==> Settled(l', v, done, k)
    ensures Handled(done, v, l.h.log) <==> CaughtUp(l)
  {
    hide LastWrite, Replay;
    assert l'.h.log[..l.fetched] == l.h.log[..l.fetched] by {
      assert l'.h.log[..l.fetched] == l'.h.log[..|l.h.log|][..l.fetched];
    }
    forall k | k != "" ensures LastWrite(done, v, k) == Replay(l.h.log[..l.fetched], k) {
      assert Settled(l', v, done, k);
    }
  }

  lemma {:induction false} DrainedExactly(
      before: seq<Ledger>, managers: seq<State>, ids: seq<nat>, after: seq<Ledger>, ledgers: seq<Ledger>, done: seq<Write>,
      dead: set<nat>, flushing: bool)
    requires LedgersOk(before, managers, ids) && AllGrew(after, ledgers) && AllSettled(ledgers, done)
    requires flushing ==> after == before
    requires !flushing ==> (after == before && NothingToFlush(managers, dead)) || Fetched(before, after)
    ensures |before| == |ledgers|
    ensures forall v :: 0 <= v < |ledgers| && v !in dead ==>
              (Handled(done, v, before[v].h.log) <==> !flushing || NothingNewAhead(before[v]))
  {
    hide LedgerOk, Grew, Handled, NothingNewAhead, Settled, CaughtUp, LedgerFetch, NothingToFlush;
    if !flushing {
      AllCaughtUp(before, managers, ids, after, dead);
    }
    forall v | 0 <= v < |ledgers| && v !in dead
      ensures Handled(done, v, before[v].h.log) <==> !flushing || NothingNewAhead(before[v])
    {
      assert LedgerOk(before[v], ids[v]);
      assert Grew(after[v], ledgers[v]);
      SameLog(before[v], after[v], ids[v]);
      HandledUpTo(after[v], ledgers[v], v, done);
      if flushing {
        CaughtUpExactly(before[v], ids[v]);
      }
    }
  }

  lemma {:induction false} SameLog(l: Ledger, l': Ledger, id: nat)
    requires LedgerOk(l, id) && (l' == l || l' == LedgerFetch(l))
    ensures l'.h.log == l.h.log && l'.fetched <= |l'.h.log|
  {
    hide HInv, HStep, Replay, FetchedAt;
    FetchMeans(l, id, "k");
  }

  lemma {:induction false} CaughtUpExactly(l: Ledger, id: nat)
    requires LedgerOk(l, id)
    ensures CaughtUp(l) <==> NothingNewAhead(l)
  {
    hide HInv, Replay, FetchedAt, Inv, Remaining, CaughtUp, NoNewsAhead;
    LedgerParts(l, id);
    CaughtUpMeans(l, id);
  }

  // ---------------------------------------------------------------- rollback and published ids

  ghost function LedgerRun(l: Ledger, ops: seq<Op>): Ledger {
    if ops == [] then l else LedgerStep(LedgerRun(l, ops[..|ops| - 1]), ops[|ops| - 1])
  }

  predicate KeepsId(s: State, op: Op) {
    |s.chks| >= 1 ==> !LowersId(s, op)
  }

  /** None of the operations takes the id of the newest checkpoint back. */
  ghost predicate Steady(l: Ledger, ops: seq<Op>) {
    ops == [] || (Steady(l, ops[..|ops| - 1]) && KeepsId(LedgerRun(l, ops[..|ops| - 1]).h.s, ops[|ops| - 1]))
  }

  /** A published id is honest after any steady run. */
  ghost predicate StaysHonest(l: Ledger, published: nat, safe: nat) {
    forall ops :: Steady(l, ops) ==> Honest(LedgerRun(l, ops).into, published, safe)
  }

  /**
   A rollback below a published id: the id stays honest through the rollback itself, and it stays so
   whatever runs next, short of another step back, exactly if the rollback went to a higher id. The
   id of the last fetch, which a flush under way publishes at its end, asks the same of the rollback.
   */
  lemma {:induction false} HonestAfterRollback(l: Ledger, floor: nat, id: nat, published: nat, safe: nat)
    requires LedgerOk(l, floor) && Inv(l.h.s) && |l.h.s.chks| >= 1 && RollsBack(l.h.s, id)
    requires published > 0 && safe <= |l.into| && Honest(l.into, published, safe)
    ensures Honest(LedgerStep(l, Start(id)).into, published, safe)
    ensures StaysHonest(LedgerStep(l, Start(id)), published, safe) <==> id > published
    ensures floor > 0 ==> (StaysHonest(LedgerStep(l, Start(id)), floor, l.fetched) <==> id > floor)
  {
    hide Inv, Honest, RollsBack, LedgerStep, StaysHonest, HInv, FetchedAt;
    var l1 := LedgerStep(l, Start(id));
    RolledBackLedger(l, id);
    HonestExactly(l1, id, published, safe);
    if floor > 0 {
      assert Honest(l.into, floor, l.fetched) by { FloorHonest(l, floor); }
      HonestExactly(l1, id, floor, l.fetched);
    }
  }

  lemma {:induction false} FloorHonest(l: Ledger, floor: nat)
    requires LedgerOk(l, floor) && floor > 0
    ensures Honest(l.into, floor, l.fetched)
  {
    hide HInv, FetchedAt;
  }

  lemma {:induction false} HonestExactly(l: Ledger, id: nat, published: nat, safe: nat)
    requires Inv(l.h.s) && |l.h.s.chks| >= 1 && Back(l.h.s).open && Back(l.h.s).id == id
    requires published > 0 && safe <= |l.into| && Honest(l.into, published, safe)
    ensures StaysHonest(l, published, safe) <==> id > published
  {
    hide Inv, LedgerStep, LowersId;
    if id > published {
      forall ops | Steady(l, ops) ensures Honest(LedgerRun(l, ops).into, published, safe) {
        SteadyRun(l, ops, id);
      }
    } else {
      var it, env := SetOf("a"), Env(Replica, 0, 0, false, false, false, false, false, 0);
      var ops := [Queue(it, env)];
      assert ops[..0] == [];
      assert !LowersId(l.h.s, Queue(it, env)) by { QueueNeverLowers(l.h.s, it, env); }
      assert Steady(l, ops) && LedgerRun(l, ops) == LedgerStep(l, Queue(it, env));
      IntoOpen(l, it, env);
      HonestMore(l.into, id, published, safe);
    }
  }

  lemma {:induction false} QueueNeverLowers(s: State, it: Item, env: Env)
    requires |s.chks| >= 1
    ensures !LowersId(s, Queue(it, env))
  {
  }

  /** Whatever mutations are put in, the run is steady. */
  lemma {:induction false} QueuesAreSteady(l: Ledger, ops: seq<Op>)
    requires forall i :: 0 <= i < |ops| ==> ops[i].Queue?
    ensures Steady(l, ops)
    decreases |ops|
  {
    hide LedgerRun;
    if ops != [] {
      QueuesAreSteady(l, ops[..|ops| - 1]);
    }
  }

  /** A steady run adds mutations only to checkpoints of the id it started at or a higher one. */
  lemma {:induction false} SteadyRun(l: Ledger, ops: seq<Op>, id: nat)
    requires Inv(l.h.s) && |l.h.s.chks| >= 1 && Back(l.h.s).id >= id && Steady(l, ops)
    ensures var l1 := LedgerRun(l, ops);
            && Inv(l1.h.s) && |l1.h.s.chks| >= 1 && Back(l1.h.s).id >= id
            && l.into <= l1.into && forall j :: |l.into| <= j < |l1.into| ==> l1.into[j] >= id
    decreases |ops|
  {
    hide Inv, LowersId, HStep, Enabled, Step;
    if ops != [] {
      var op := ops[|ops| - 1];
      var l1 := LedgerRun(l, ops[..|ops| - 1]);
      SteadyRun(l, ops[..|ops| - 1], id);
      SteadyStep(l1.h, op);
    }
  }

  lemma {:induction false} SteadyStep(h: Hist, op: Op)
    requires Inv(h.s) && |h.s.chks| >= 1 && !LowersId(h.s, op)
    ensures var s := HStep(h, op).s; Inv(s) && |s.chks| >= 1 && Back(s).id >= Back(h.s).id
  {
    hide Inv, LowersId, Step;
    if Enabled(h.s, op) {
      StepState(h, op);
      StepKeepsInv(h.s, op);
      IdsGrow(h.s, op);
    }
  }

  lemma {:induction false} HonestMore(into: seq<nat>, id: nat, published: nat, safe: nat)
    requires published > 0 && safe <= |into| && Honest(into, published, safe)
    ensures Honest(into + [id], published, safe) <==> id > published
  {
    assert (into + [id])[|into|] == id;
  }

  lemma {:induction false} RolledBackLedger(l: Ledger, id: nat)
    requires Inv(l.h.s) && |l.h.s.chks| >= 1 && RollsBack(l.h.s, id)
    ensures var l1 := LedgerStep(l, Start(id));
            && l1.into == l.into && Inv(l1.h.s) && |l1.h.s.chks| >= 1 && Back(l1.h.s).open && Back(l1.h.s).id == id
  {
    hide Inv, Rollback;
    StepState(l.h, Start(id));
    RollbackMeaning(l.h.s, id, "k");
    assert l.h.s.chks != [];
  }

  lemma {:induction false} IntoOpen(l: Ledger, it: Item, env: Env)
    requires Inv(l.h.s) && |l.h.s.chks| >= 1 && Back(l.h.s).open && Mutates(it)
    ensures LedgerStep(l, Queue(it, env)).into == l.into + [Back(l.h.s).id]
  {
    hide Inv, Step;
  }

  // ---------------------------------------------------------------- a drain that misses a mutation

  function SetOf(k: Key): Item {
    Item(k, OpSet, 0, 0)
  }

  /** All writes leave the queue. */
  function Willing(n: nat): Answers {
    Answers(true, n, seq(n, i => Writes))
  }

  /** An active vbucket with an open checkpoint accepts a mutation and keeps an open one. */
  lemma {:induction false} AcceptedNow(l: Ledger, it: Item, env: Env)
    requires Inv(l.h.s) && |l.h.s.chks| >= 1 && Back(l.h.s).open && Mutates(it) && env.vbState == Active
    ensures Enabled(l.h.s, Queue(it, env))
    ensures LedgerStep(l, Queue(it, env)).h.log == l.h.log + [it]
    ensures LedgerStep(l, Queue(it, env)).fetched == l.fetched
    ensures |LedgerStep(l, Queue(it, env)).h.s.chks| >= 1 && Back(LedgerStep(l, Queue(it, env)).h.s).open
  {
    hide ListInv, TotalWeight, Requeue, Backlog, CreatesCheckpoints;
  }

  /** A vbucket whose log is known and that can accept more. */
  ghost predicate Ready(l: Ledger, log: seq<Item>) {
    Inv(l.h.s) && |l.h.s.chks| >= 1 && Back(l.h.s).open && l.h.log == log
  }

  lemma {:induction false} ReadyShape(l: Ledger, log: seq<Item>)
    requires Ready(l, log)
    ensures |l.h.s.chks| >= 1
  {
  }

  lemma {:induction false} GrewFetched(l: Ledger, l': Ledger)
    requires Grew(l, l')
    ensures l'.fetched == l.fetched
  {
  }

  lemma {:induction false} ReadyFresh()
    ensures Ready(Ledger(InitHist(1), [], 0, 0), [])
  {
    hide TotalWeight;
    InitInv(1);
  }

  lemma {:induction false} ReadyQueued(l: Ledger, log: seq<Item>, it: Item, env: Env)
    requires Ready(l, log) && Mutates(it) && env.vbState == Active
    ensures Ready(LedgerStep(l, Queue(it, env)), log + [it]) && Enabled(l.h.s, Queue(it, env))
  {
    hide Inv, Enabled, LedgerStep, Step, HStep;
    AcceptedNow(l, it, env);
    QueuedInv(l, it, env);
  }

  lemma {:induction false} QueuedInv(l: Ledger, it: Item, env: Env)
    requires Inv(l.h.s) && |l.h.s.chks| >= 1
    ensures Inv(LedgerStep(l, Queue(it, env)).h.s)
  {
    hide Inv, Step, Enabled;
    if Enabled(l.h.s, Queue(it, env)) {
      StepKeepsInv(l.h.s, Queue(it, env));
      StepState(l.h, Queue(it, env));
    }
  }

  lemma {:induction false} ReadyFetched(l: Ledger, l': Ledger, id: nat, log: seq<Item>)
    requires Ready(l, log) && LedgerOk(l, id) && (l' == l || l' == LedgerFetch(l))
    ensures Ready(l', log)
  {
    hide HInv, HStep, Replay, FetchedAt, Inv, Fetch;
    SameLog(l, l', id);
    FetchMeans(l, id, "k");
    LedgerParts(l, id);
    FetchRemaining(l.h.s, PERSISTENCE);
    FetchBack(l.h.s);
  }

  /** The last fetch had "a" and only that, and it is still pending. */
  lemma {:induction false} FirstPending(l: Ledger, pend: seq<Write>)
    requires Ready(l, [SetOf("a")]) && CaughtUp(l) && QueueOk(l, 0, [], pend, "a")
    ensures l.fetched == 1 && pend != []
  {
    assert Replay([SetOf("a")], "a") == Some(ChangeOf(SetOf("a")));
    assert l.h.log[..0] == [] && l.h.log[..1] == l.h.log;
    assert Replay(l.h.log[..l.fetched], "a") == Replay(l.h.log, "a");
    assert [] + pend == pend;
  }

  lemma {:induction false} OnlyFirst(l: Ledger, l': Ledger, done: seq<Write>)
    requires Ready(l, [SetOf("a"), SetOf("b")]) && l.fetched == 1 && Grew(l, l')
    requires Settled(l', 0, done, "a") && Settled(l', 0, done, "b")
    ensures LastWrite(done, 0, "a") == Replay(l.h.log, "a")
    ensures LastWrite(done, 0, "b") == None && Replay(l.h.log, "b") == Some(ChangeOf(SetOf("b")))
  {
    hide LastWrite;
    assert l'.h.log[..1] == l'.h.log[..2][..1] == [SetOf("a")];
    assert l.h.log[..1] == [SetOf("a")];
    assert [SetOf("a")][..0] == [];
  }

  /**
   A run in which a drain misses a mutation: "b" is accepted while the flush that fetched "a" is
   under way, and the drain that follows ends without it.
   */
  method DrainCanMiss(env: Env) returns (f: Flusher, finished: bool, ghost accepted: seq<Item>, ghost underWay: bool)
    requires env.vbState == Active
    ensures finished && underWay && f.Valid() && accepted == [SetOf("a"), SetOf("b")]
    ensures LastWrite(f.done, 0, "a") == Replay(accepted, "a")
    ensures LastWrite(f.done, 0, "b") == None && Replay(accepted, "b") == Some(ChangeOf(SetOf("b")))
  {
    hide LedgerOk, QueueOk, PublishedOk, LedgerStep, LedgerFetch, Inv, Step, Enabled, Replay, LastWrite, Ready, CaughtUp,
         NothingToFlush, Grew, Settled, Handled, NothingNewAhead, TakesAll, Init, InitHist;
    f := new Flusher([1]);
    ReadyFresh();
    f.Accept(0, SetOf("a"), env, []);
    assert [] + [SetOf("a")] == [SetOf("a")];
    ghost var was := f.ledgers;
    ghost var managers, ids := f.managers, f.persistenceCheckpointIds;
    f.DoFlush({}, Answers(true, 0, []));
    f.Sizes();
    AllCaughtUp(was, managers, ids, f.ledgers, {});
    ReadyFetched(was[0], f.ledgers[0], ids[0], [SetOf("a")]);
    assert f.done == [];
    FirstPending(f.ledgers[0], f.writing + f.rejectQueue);
    underWay := f.flushing;
    f.Accept(0, SetOf("b"), env, [SetOf("a")]);
    accepted := f.ledgers[0].h.log;
    assert [SetOf("a")] + [SetOf("b")] == [SetOf("a"), SetOf("b")];
    ReadyLog(f.ledgers[0], [SetOf("a"), SetOf("b")]);
    was := f.ledgers;
    WillingTakes(|f.writing|);
    WillingTakes(|f.rejectQueue|);
    finished := f.Drain({}, [Pass(Willing(|f.writing|), []), Pass(Willing(|f.rejectQueue|), [])]);
    OnlyFirst(was[0], f.ledgers[0], f.done);
  }

  lemma {:induction false} ReadyLog(l: Ledger, log: seq<Item>)
    requires Ready(l, log)
    ensures l.h.log == log
  {
    hide Inv;
  }

  lemma {:induction false} WillingTakes(n: nat)
    ensures TakesAll(Willing(n), n)
  {
  }
}
