/**
 What the flusher may rely on between fetches: which checkpoint every accepted mutation went
 into, and how much of the log has been handed to the write queue.
 */
module FlushLedger {
  import opened QueuedItems
  import opened CheckpointLog
  import opened CheckpointFacts
  import opened CheckpointReplay
  import opened CheckpointRuns
  import opened CheckpointHistory
  import opened FlushQueue

  /**
   A vbucket's history with, for every accepted mutation, the id of the checkpoint it was put in,
   and how many mutations had been accepted at the last fetch and at the one before.
   */
  datatype Ledger = Ledger(h: Hist, into: seq<nat>, before: nat, fetched: nat)

  /**
   Operations of other threads between two fetches: no clear, no fetch through the persistence
   cursor, and no rollback or relabel to the id `floor` of the last fetch or below it.
   */
  predicate Allowed(s: State, op: Op, floor: nat)
    requires |s.chks| >= 1
  {
    match op
    case ClearAll(_) => false
    case Relabel(id) => floor > 0 ==> id > floor
    case Start(id) => RollsBack(s, id) && floor > 0 ==> id > floor
    case FetchAll(n) => n != PERSISTENCE
    case FetchNext(n) => n != PERSISTENCE
    case _ => true
  }

  ghost predicate LedgerOk(l: Ledger, id: nat) {
    && HInv(l.h) && |l.into| == |l.h.log| && l.before <= l.fetched <= |l.h.log|
    && (id > 0 ==> Back(l.h.s).id > id)
    && (id > 0 ==> forall j :: l.fetched <= j < |l.into| ==> l.into[j] > id)
    && (forall k :: k != "" ==> FetchedAt(l, k))
  }

  /** The persistence cursor has handed out what the log said at the last fetch. */
  ghost predicate FetchedAt(l: Ledger, k: Key) {
    && PERSISTENCE in l.h.got && l.fetched <= |l.h.log|
    && Replay(l.h.got[PERSISTENCE], k) == Replay(l.h.log[..l.fetched], k)
  }

  ghost function LedgerStep(l: Ledger, op: Op): Ledger {
    var h := HStep(l.h, op);
    Ledger(h, if |h.log| > |l.h.log| && |l.h.s.chks| >= 1 then l.into + [Back(l.h.s).id] else l.into, l.before, l.fetched)
  }

  ghost function LedgerFetch(l: Ledger): Ledger {
    Ledger(HStep(l.h, FetchAll(PERSISTENCE)), l.into, l.fetched, |l.h.log|)
  }

  // ---------------------------------------------------------------- ids only grow

  lemma {:induction false} CheckOpenId(s: State, force: bool, env: Env)
    requires |s.chks| >= 1
    ensures |CheckOpen(s, force, env).0.chks| >= 1 && Back(CheckOpen(s, force, env).0).id >= Back(s).id
  {
  }

  lemma {:induction false} QueueId(s: State, it: Item, env: Env)
    requires |s.chks| >= 1 && PERSISTENCE in s.cursors
    ensures |QueueDirty(s, it, env).0.chks| >= 1 && Back(QueueDirty(s, it, env).0).id >= Back(s).id
  {
    hide CheckOpen, CreatesCheckpoints, Requeue, Backlog;
    CheckOpenId(Enqueue(s, it), false, env);
  }

  lemma {:induction false} OpenIfDueId(s: State, env: Env)
    requires |s.chks| >= 1
    ensures |OpenIfDue(s, env).0.chks| >= 1 && Back(OpenIfDue(s, env).0).id >= Back(s).id
  {
    hide CheckOpen, CreatesCheckpoints, HighMemCreation;
    CheckOpenId(s, HighMemCreation(s, env), env);
  }

  lemma {:induction false} CleanUpId(s: State, env: Env)
    requires Inv(s)
    ensures |s.chks| >= 1 && |RemoveClosedUnref(s, env).0.chks| >= 1
    ensures Back(RemoveClosedUnref(s, env).0).id >= Back(s).id
  {
    hide ListInv, CursorsInv, TotalWeight, OpenIfDue, LeadingUnref, DropFront, CollapseClosed;
    ListNonEmpty(s.chks);
    OpenIfDueId(s, env);
    OpenIfDueKeepsInv(s, env);
    var s1 := OpenIfDue(s, env).0;
    var r := if env.keepClosed && LeadingUnref(s1, 0) > 1 then 1 else LeadingUnref(s1, 0);
    DropFrontKeepsInv(s1, r);
    DropBack(s1, r);
    CollapseBack(DropFront(s1, r));
  }

  lemma {:induction false} DropBack(s: State, r: nat)
    requires r < |s.chks|
    ensures |DropFront(s, r).chks| >= 1 && Back(DropFront(s, r)) == Back(s)
  {
    hide TotalWeight, Decr;
  }

  lemma {:induction false} CollapseBack(s: State)
    requires |s.chks| >= 1
    ensures |CollapseClosed(s).chks| >= 1 && Back(CollapseClosed(s)).id == Back(s).id
  {
    hide TotalWeight, MergeAll, FirstKeyed, AfterCollapse;
  }

  lemma {:induction false} StartId(s: State, id: nat)
    requires Inv(s)
    ensures |s.chks| >= 1 && |CheckAndAdd(s, id).0.chks| >= 1
    ensures if RollsBack(s, id) then Back(CheckAndAdd(s, id).0).id == id else Back(CheckAndAdd(s, id).0).id >= Back(s).id
  {
    hide ListInv, CursorsInv, TotalWeight, Rollback;
    ListNonEmpty(s.chks);
    RollbackMeaning(s, id, "k");
    AllLong(s.chks);
  }

  /** The operations that take the id of the newest checkpoint back. */
  predicate LowersId(s: State, op: Op)
    requires |s.chks| >= 1
  {
    match op
    case ClearAll(vbState) => (if vbState == Active then 1 else 0) < Back(s).id
    case Relabel(id) => id < Back(s).id
    case Start(id) => RollsBack(s, id) && id < Back(s).id
    case _ => false
  }

  /** The newest checkpoint id goes back exactly with a rollback, a relabel or a clear to a lower one. */
  lemma {:induction false} IdsGrow(s: State, op: Op)
    requires Inv(s) && Enabled(s, op)
    ensures |s.chks| >= 1 && |Step(s, op).chks| >= 1
    ensures Back(Step(s, op)).id >= Back(s).id <==> !LowersId(s, op)
    ensures op.Relabel? || (op.Start? && RollsBack(s, op.id)) ==> Back(Step(s, op)).id == op.id
  {
    hide ListInv, TotalWeight, QueueDirty, CheckOpen, RemoveClosedUnref, CheckAndAdd, Fetch, Next, Register, RollsBack;
    ListNonEmpty(s.chks);
    AllLong(s.chks);
    match op
    case Queue(it, env) => QueueId(s, it, env);
    case Check(force, env) => CheckOpenId(s, force, env);
    case CleanUp(env) => CleanUpId(s, env);
    case Start(id) => StartId(s, id);
    case RegisterCursor(n, id, closedOnly, fromBeginning) => RegisterChks(s, n, id, closedOnly, fromBeginning);
    case FetchAll(n) => FetchChks(s, n);
    case FetchNext(n) => NextChks(s, n);
    case _ =>
  }

  lemma {:induction false} RegisterChks(s: State, n: string, id: nat, closedOnly: bool, fromBeginning: bool)
    requires |s.chks| >= 1
    ensures Register(s, n, id, closedOnly, fromBeginning).0.chks == s.chks
  {
  }

  lemma {:induction false} NextChks(s: State, n: string)
    requires Inv(s)
    ensures Next(s, n).0.chks == s.chks
  {
    hide CursorsInv, TotalWeight, LastMutationAt, NumKeyed, DistinctKeys, FirstKeyed;
    if n in s.cursors {
      NextMovesCursor(s, n);
    }
  }

  lemma {:induction false} FetchChks(s: State, n: string)
    requires Inv(s)
    ensures Fetch(s, n).0.chks == s.chks
  {
    hide ListInv, CursorsInv, TotalWeight, Remaining;
  }

  // ---------------------------------------------------------------- steps of other threads

  /** Nothing but a fetch through the persistence cursor changes what it has handed out. */
  lemma {:induction false} HistoryFrame(h: Hist, op: Op)
    requires HInv(h) && |h.s.chks| >= 1 && !op.ClearAll?
    requires op.FetchAll? || op.FetchNext? ==> op.n != PERSISTENCE
    ensures PERSISTENCE in h.got && PERSISTENCE in HStep(h, op).got
    ensures HStep(h, op).got[PERSISTENCE] == h.got[PERSISTENCE]
    ensures HStep(h, op).log == h.log || (|HStep(h, op).log| == |h.log| + 1 && HStep(h, op).log[..|h.log|] == h.log)
  {
    hide ListInv, TotalWeight, Step, HonestAt, Fetch, Next, CursorOk;
  }

  lemma {:induction false} HistoryIds(h: Hist, op: Op, floor: nat)
    requires Inv(h.s) && |h.s.chks| >= 1 && Allowed(h.s, op, floor) && (floor > 0 ==> Back(h.s).id > floor)
    ensures |HStep(h, op).s.chks| >= 1 && (floor > 0 ==> Back(HStep(h, op).s).id > floor)
  {
    hide Inv, Step, Fetch, Next, RollsBack;
    if Enabled(h.s, op) {
      IdsGrow(h.s, op);
    }
  }

  lemma {:induction false} LedgerParts(l: Ledger, id: nat)
    requires LedgerOk(l, id)
    ensures Inv(l.h.s) && |l.h.s.chks| >= 1 && PERSISTENCE in l.h.s.cursors && PERSISTENCE in l.h.got
  {
    hide HonestAt, TotalWeight, ChkInv, FetchedAt;
  }

  /** The log has grown, and nothing was fetched. */
  ghost predicate Grew(l: Ledger, l': Ledger) {
    && l'.before == l.before && l'.fetched == l.fetched
    && |l.h.log| <= |l'.h.log| && l'.h.log[..|l.h.log|] == l.h.log
  }

  lemma {:induction false} FetchedStays(l: Ledger, l': Ledger, k: Key)
    requires FetchedAt(l, k) && Grew(l, l')
    requires PERSISTENCE in l.h.got && PERSISTENCE in l'.h.got && l'.h.got[PERSISTENCE] == l.h.got[PERSISTENCE]
    ensures FetchedAt(l', k)
  {
    hide Replay;
    assert l'.h.log[..l.fetched] == l'.h.log[..|l.h.log|][..l.fetched];
  }

  lemma {:induction false} LedgerStepOk(l: Ledger, op: Op, id: nat)
    requires LedgerOk(l, id) && |l.h.s.chks| >= 1 && Allowed(l.h.s, op, id)
    ensures LedgerOk(LedgerStep(l, op), id) && Grew(l, LedgerStep(l, op))
    ensures |l.into| <= |LedgerStep(l, op).into| && LedgerStep(l, op).into[..|l.into|] == l.into
    ensures id > 0 ==> forall j :: |l.into| <= j < |LedgerStep(l, op).into| ==> LedgerStep(l, op).into[j] > id
  {
    hide HInv, HStep, Allowed, Replay, FetchedAt, RollsBack;
    LedgerParts(l, id);
    assert !op.ClearAll? && (op.FetchAll? || op.FetchNext? ==> op.n != PERSISTENCE) by { AllowedParts(l.h.s, op, id); }
    HistoryFrame(l.h, op);
    HistoryIds(l.h, op, id);
    StepKeepsHInv(l.h, op);
    var l' := LedgerStep(l, op);
    forall k | k != "" ensures FetchedAt(l', k) {
      FetchedStays(l, l', k);
    }
  }

  lemma {:induction false} AllowedParts(s: State, op: Op, id: nat)
    requires |s.chks| >= 1 && Allowed(s, op, id)
    ensures !op.ClearAll? && (op.FetchAll? || op.FetchNext? ==> op.n != PERSISTENCE)
  {
    hide RollsBack;
  }

  // ---------------------------------------------------------------- a fetch

  lemma {:induction false} FlatWrites(chks: seq<Chk>)
    requires forall i :: 0 <= i < |chks| ==> ChkInv(chks[i])
    ensures forall j :: 0 <= j < |Flat(chks)| && Keyed(Flat(chks)[j]) ==> IsWrite(Flat(chks)[j])
  {
    if chks != [] {
      hide DistinctKeys, FirstKeyed, NumKeyed;
      assert ChkInv(chks[0]);
      FlatWrites(chks[1..]);
    }
  }

  /** A fetch hands out nothing under a key but sets and deletions. */
  lemma {:induction false} FetchedWrites(s: State, n: string)
    requires Inv(s) && n in s.cursors
    ensures CursorOk(s.chks, s.cursors[n])
    ensures forall j :: 0 <= j < |Remaining(s, n)| && Keyed(Remaining(s, n)[j]) ==> IsWrite(Remaining(s, n)[j])
  {
    hide TotalWeight, ChkInv, ClosedAtEnd, Flat, Ahead;
    CursorsParts(s.chks, s.cursors, n);
    var c := s.cursors[n];
    AheadSplit(s.chks, c.chk, c.pos);
    FlatWrites(s.chks);
    var all, front := Flat(s.chks), Flat(s.chks[..c.chk]) + s.chks[c.chk].items[1..c.pos + 1];
    var rest := Remaining(s, n);
    assert all == front + rest;
    forall j | 0 <= j < |rest| && Keyed(rest[j]) ensures IsWrite(rest[j]) {
      assert rest[j] == all[|front| + j];
    }
  }

  /** What a fetch means: the cursor has then handed out all that was accepted, key by key. */
  lemma {:induction false} FetchMeans(l: Ledger, id: nat, k: Key)
    requires LedgerOk(l, id) && k != ""
    ensures Inv(l.h.s) && PERSISTENCE in l.h.got && PERSISTENCE in LedgerFetch(l).h.got
    ensures LedgerFetch(l).h.got[PERSISTENCE] == l.h.got[PERSISTENCE] + Fetch(l.h.s, PERSISTENCE).1
    ensures LedgerFetch(l).h.log == l.h.log && LedgerFetch(l).h.s == Fetch(l.h.s, PERSISTENCE).0
    ensures HInv(LedgerFetch(l).h)
    ensures Replay(LedgerFetch(l).h.got[PERSISTENCE], k) == Replay(l.h.log, k)
  {
    hide ListInv, TotalWeight, HonestAt, Replay, CursorOk, FetchedAt;
    var h' := HStep(l.h, FetchAll(PERSISTENCE));
    StepKeepsHInv(l.h, FetchAll(PERSISTENCE));
    FetchRemaining(l.h.s, PERSISTENCE);
    NothingLost(h', PERSISTENCE, k);
    assert h'.got[PERSISTENCE] + [] == h'.got[PERSISTENCE];
  }

  lemma {:induction false} LedgerFetchOk(l: Ledger, id: nat)
    requires LedgerOk(l, id)
    ensures Inv(l.h.s) && |l.h.s.chks| >= 1
    ensures LedgerOk(LedgerFetch(l), Fetch(l.h.s, PERSISTENCE).2)
  {
    hide HInv, HStep, Replay, Fetch;
    LedgerParts(l, id);
    FetchMeans(l, id, "k");
    FetchBack(l.h.s);
    var l' := LedgerFetch(l);
    assert l'.h.log[..|l'.h.log|] == l'.h.log;
    forall k | k != "" ensures FetchedAt(l', k) {
      FetchMeans(l, id, k);
    }
  }

  lemma {:induction false} FetchBack(s: State)
    requires Inv(s) && PERSISTENCE in s.cursors && |s.chks| >= 1
    ensures Fetch(s, PERSISTENCE).0.chks == s.chks
    ensures Fetch(s, PERSISTENCE).2 > 0 ==> Back(s).id == Fetch(s, PERSISTENCE).2 + 1
  {
    hide ListInv, CursorsInv, TotalWeight, Remaining;
  }
}
