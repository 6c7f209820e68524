/**
 The checkpoint manager seen as plain lists.

 A vbucket's mutation log is a list of checkpoints, each a list of entries that starts with
 a dummy and a start entry. A cursor is a position in that list. There is no key index, no
 mutation id and no registered cursor name here: lookups scan the list. The counters
 (`numItems` and each cursor's `offset`) are kept, because what they are worth is proved in
 `CheckpointCounters`. The class in `CheckpointManagers` is proved to do what these
 functions say.
 */
module CheckpointLog {
  import opened QueuedItems

  const PERSISTENCE: string := "persistence"
  const ONLINE_UPDATE: string := "online_update"
  const MIN_CHECKPOINT_ITEMS: nat := 100

  datatype Chk = Chk(id: nat, open: bool, items: seq<Item>)

  datatype Cursor = Cursor(chk: nat, pos: nat, offset: int, closedOnly: bool)

  datatype State = State(chks: seq<Chk>, cursors: map<string, Cursor>, numItems: int)

  datatype VBState = Active | Replica | Pending | Dead

  /** What an operation reads from the vbucket, the configuration, the clock and memory statistics. */
  datatype Env = Env(
    vbState: VBState,
    maxCheckpoints: nat,
    maxItems: nat,
    inconsistentSlave: bool,
    keepClosed: bool,
    timeUp: bool,           // the open checkpoint is older than the checkpoint period
    memAboveHighWat: bool,
    memBelowHighWat: bool,
    hashTableItems: nat)

  // ---------------------------------------------------------------- views of the log

  /** The entries a cursor can return from a checkpoint: everything but the dummy. */
  function Tail(c: Chk): seq<Item> {
    if c.items == [] then [] else c.items[1..]
  }

  function Flat(chks: seq<Chk>): seq<Item> {
    if chks == [] then [] else Tail(chks[0]) + Flat(chks[1..])
  }

  /** Everything still ahead of a position. */
  function Ahead(chks: seq<Chk>, chk: nat, pos: nat): seq<Item>
    requires chk < |chks| && pos < |chks[chk].items|
  {
    chks[chk].items[pos + 1..] + Flat(chks[chk + 1..])
  }

  predicate CursorOk(chks: seq<Chk>, c: Cursor) {
    c.chk < |chks| && c.pos < |chks[c.chk].items|
  }

  function Remaining(s: State, n: string): seq<Item>
    requires n in s.cursors && CursorOk(s.chks, s.cursors[n])
  {
    Ahead(s.chks, s.cursors[n].chk, s.cursors[n].pos)
  }

  /** What the code takes for the number of entries of a checkpoint, dummy excluded. */
  function Weight(c: Chk): nat {
    NumKeyed(c.items) + if c.open then 1 else 2
  }

  function TotalWeight(chks: seq<Chk>): nat {
    if chks == [] then 0 else Weight(chks[0]) + TotalWeight(chks[1..])
  }

  // ---------------------------------------------------------------- the structural invariant

  ghost predicate ChkInv(c: Chk) {
    && |c.items| >= 2
    && c.items[0] == DummyItem()
    && c.items[1] == StartItem(c.id)
    && DistinctKeys(c.items)
    && (forall i :: 2 <= i < |c.items| ==> Mutates(c.items[i]) || IsEnd(c.items[i]))
    && (forall i :: FirstKeyed(c.items) <= i < |c.items| - 1 ==> Keyed(c.items[i]))
    && (c.open && FirstKeyed(c.items) < |c.items| ==> Keyed(c.items[|c.items| - 1]))
    && NumKeyed(c.items) + (if c.open then 2 else 3) <= |c.items|
  }

  ghost predicate ClosedAtEnd(c: Chk) {
    !c.open && c.items != [] ==> c.items[|c.items| - 1].op == OpCheckpointEnd
  }

  /** Ids increase; only the newest checkpoint can be open, and if it is closed it ends with an end entry. */
  ghost predicate ListInv(chks: seq<Chk>) {
    && |chks| >= 1
    && (forall i, j :: 0 <= i < j < |chks| ==> chks[i].id < chks[j].id)
    && (forall i :: 0 <= i < |chks| - 1 ==> !chks[i].open)
    && (forall i :: 0 <= i < |chks| ==> ChkInv(chks[i]))
    && ClosedAtEnd(chks[|chks| - 1])
  }

  ghost predicate CursorsInv(chks: seq<Chk>, cursors: map<string, Cursor>) {
    && PERSISTENCE in cursors
    && (forall n :: n in cursors ==> CursorOk(chks, cursors[n]))
  }

  ghost predicate Inv(s: State) {
    && ListInv(s.chks)
    && CursorsInv(s.chks, s.cursors)
    && s.numItems == TotalWeight(s.chks)
  }

  // ---------------------------------------------------------------- one checkpoint

  function Back(s: State): Chk
    requires |s.chks| >= 1
  {
    s.chks[|s.chks| - 1]
  }

  function SetBack(s: State, c: Chk): State
    requires |s.chks| >= 1
  {
    s.(chks := s.chks[|s.chks| - 1 := c])
  }

  /** The entry list after queueing a mutation: the old entry for its key gives way to the new one. */
  function Requeue(items: seq<Item>, it: Item): (r: seq<Item>)
    ensures |r| == |items| + if FindKey(items, it.key) < |items| then 0 else 1
  {
    var at := FindKey(items, it.key);
    if at < |items| then Without(items, at) + [it.(queuedTime := items[at].queuedTime)]
    else items + [it]
  }

  /** The persistence cursor's offset saturates at zero; a TAP cursor's does not. */
  function Decr(n: string, offset: int, d: nat): int {
    if n == PERSISTENCE && offset < d then 0 else offset - d
  }

  /** A cursor after the entry at `at` of checkpoint `chk` was taken out of the list. */
  function AfterErase(n: string, c: Cursor, chk: nat, at: nat): Cursor {
    if c.chk == chk && at <= c.pos && 0 < c.pos then
      c.(pos := c.pos - 1, offset := Decr(n, c.offset, 1))
    else c
  }

  function Enqueue(s: State, it: Item): State
    requires |s.chks| >= 1
  {
    var last := |s.chks| - 1;
    var items := s.chks[last].items;
    var at := FindKey(items, it.key);
    var chks := s.chks[last := s.chks[last].(items := Requeue(items, it))];
    if at < |items| then
      State(chks, map n | n in s.cursors :: AfterErase(n, s.cursors[n], last, at), s.numItems)
    else
      State(chks, s.cursors, s.numItems + 1)
  }

  /** The mutations of `prev` whose key `cur` does not have, in order. */
  function Missing(prev: seq<Item>, cur: seq<Item>): seq<Item> {
    if prev == [] then []
    else if Keyed(prev[0]) && FindKey(cur, prev[0].key) == |cur|
    then [prev[0]] + Missing(prev[1..], cur)
    else Missing(prev[1..], cur)
  }

  function Merge(prev: seq<Item>, cur: seq<Item>): seq<Item> {
    var f := FirstKeyed(cur);
    cur[..f] + Missing(prev, cur) + cur[f..]
  }

  /** Merge a run of checkpoints into an entry list, the newest first. */
  function MergeAll(chks: seq<Chk>, cur: seq<Item>): seq<Item>
    decreases |chks|
  {
    if chks == [] then cur
    else MergeAll(chks[..|chks| - 1], Merge(chks[|chks| - 1].items, cur))
  }

  // ---------------------------------------------------------------- opening and closing

  function CloseOpen(s: State, id: nat): State
    requires |s.chks| >= 1
  {
    var b := Back(s);
    if id != b.id || !b.open then s
    else SetBack(s, b.(open := false, items := b.items + [EndItem(id)])).(numItems := s.numItems + 1)
  }

  function NewChk(id: nat): Chk {
    Chk(id, true, [DummyItem(), StartItem(id)])
  }

  function AddNew(s: State, id: nat): State
    requires |s.chks| >= 1
  {
    var s1 := CloseOpen(s, Back(s).id);
    s1.(chks := s1.chks + [NewChk(id)], numItems := s1.numItems + 1)
  }

  /** Relabel the newest checkpoint. */
  function SetOpenId(s: State, id: nat): State
    requires |s.chks| >= 1 && |Back(s).items| >= 2
  {
    SetBack(s, Back(s).(id := id, items := Back(s).items[1 := StartItem(id)]))
  }

  /** Open a new checkpoint when forced, full, or old and not empty; the id of the one closed, else 0. */
  function CheckOpen(s: State, force: bool, env: Env): (State, nat)
    requires |s.chks| >= 1
  {
    var b := Back(s);
    if force || NumKeyed(b.items) >= env.maxItems || (NumKeyed(b.items) > 0 && env.timeUp) then
      (AddNew(CloseOpen(s, b.id), b.id + 1), b.id)
    else (s, 0)
  }

  predicate Unreferenced(s: State, i: nat) {
    forall n | n in s.cursors :: s.cursors[n].chk != i
  }

  predicate CanCreate(s: State, env: Env) {
    |s.chks| < env.maxCheckpoints || (|s.chks| == env.maxCheckpoints && Unreferenced(s, 0))
  }

  predicate CreatesCheckpoints(s: State, env: Env) {
    env.vbState == Active && !env.inconsistentSlave && CanCreate(s, env)
  }

  function Backlog(s: State): nat
    requires PERSISTENCE in s.cursors
  {
    if s.numItems > s.cursors[PERSISTENCE].offset then s.numItems - s.cursors[PERSISTENCE].offset else 0
  }

  predicate Accepts(s: State, env: Env)
    requires |s.chks| >= 1
  {
    env.vbState == Active || Back(s).open
  }

  function QueueDirty(s: State, it: Item, env: Env): (State, bool)
    requires |s.chks| >= 1 && PERSISTENCE in s.cursors
  {
    if !Accepts(s, env) then (s, false)
    else
      var s1 := Enqueue(s, it);
      var s2 := if CreatesCheckpoints(s1, env) then CheckOpen(s1, false, env).0 else s1;
      (s2, Backlog(s1) != Backlog(s))
  }

  // ---------------------------------------------------------------- cursors

  /** Everything ahead of the cursor; it ends on the newest entry. */
  function Fetch(s: State, n: string): (State, seq<Item>, nat)
    requires Inv(s)
  {
    if n !in s.cursors then (s, [], 0)
    else
      var c := s.cursors[n].(chk := |s.chks| - 1, pos := |Back(s).items| - 1, offset := s.numItems);
      (s.(cursors := s.cursors[n := c]), Remaining(s, n), if Back(s).id > 0 then Back(s).id - 1 else 0)
  }

  /** Is the entry at a position the last mutation of its checkpoint? */
  predicate LastMutationAt(items: seq<Item>, pos: nat) {
    pos + 1 >= |items| || items[pos + 1].op == OpCheckpointEnd
  }

  function Advance(s: State, n: string, c: Cursor): (State, Item, bool)
    requires c.chk < |s.chks| && c.pos + 1 < |s.chks[c.chk].items|
  {
    var items := s.chks[c.chk].items;
    (s.(cursors := s.cursors[n := c.(pos := c.pos + 1, offset := c.offset + 1)]),
     items[c.pos + 1],
     LastMutationAt(items, c.pos + 1))
  }

  function NextFromOpen(s: State, n: string, c: Cursor): (State, Item, bool)
    requires c.chk < |s.chks|
  {
    if c.closedOnly || c.pos + 1 >= |s.chks[c.chk].items| then
      (s.(cursors := s.cursors[n := c]), DummyItem(), false)
    else Advance(s, n, c)
  }

  function NextFromClosed(s: State, n: string, c: Cursor): (State, Item, bool)
    requires c.chk < |s.chks|
    requires forall i :: 0 <= i < |s.chks| ==> |s.chks[i].items| >= 2
  {
    if c.pos + 1 < |s.chks[c.chk].items| then Advance(s, n, c)
    else if c.chk + 1 >= |s.chks| then (s, DummyItem(), false)
    else
      var moved := c.(chk := c.chk + 1, pos := 0);
      if s.chks[c.chk + 1].open then NextFromOpen(s, n, moved) else Advance(s, n, moved)
  }

  function Next(s: State, n: string): (State, Item, bool)
    requires Inv(s)
  {
    if n !in s.cursors || Back(s).id == 0 then (s, DummyItem(), false)
    else if s.chks[s.cursors[n].chk].open then NextFromOpen(s, n, s.cursors[n])
    else NextFromClosed(s, n, s.cursors[n])
  }

  /** Step a TAP cursor back from a checkpoint-end entry. */
  function DecrFromEnd(s: State, n: string): State
    requires Inv(s)
  {
    if n in s.cursors && s.chks[s.cursors[n].chk].items[s.cursors[n].pos].op == OpCheckpointEnd
       && s.cursors[n].pos > 0
    then
      var c := s.cursors[n];
      s.(cursors := s.cursors[n := c.(pos := c.pos - 1, offset := c.offset - 1)])
    else s
  }

  /** Index of the checkpoint with an id, or the number of checkpoints. */
  function FindChk(chks: seq<Chk>, id: nat): (r: nat)
    ensures r <= |chks|
    ensures r < |chks| ==> chks[r].id == id
    ensures forall i :: 0 <= i < r ==> chks[i].id != id
  {
    if chks == [] then 0 else if chks[0].id == id then 0 else 1 + FindChk(chks[1..], id)
  }

  function Register(s: State, n: string, id: nat, closedOnly: bool, fromBeginning: bool): (State, bool)
    requires |s.chks| >= 1
  {
    var i := FindChk(s.chks, id);
    if i == |s.chks| then
      var c := Cursor(|s.chks| - 1, 0, s.numItems - (NumKeyed(Back(s).items) + 1), closedOnly);
      (s.(cursors := s.cursors[n := c]), false)
    else
      var c := if !fromBeginning && n in s.cursors && s.cursors[n].chk == i
               then s.cursors[n].(closedOnly := closedOnly)
               else Cursor(i, 0, TotalWeight(s.chks[..i]), closedOnly);
      (s.(cursors := s.cursors[n := c]), true)
  }

  function RemoveTap(s: State, n: string): (State, bool) {
    (s.(cursors := s.cursors - {n}), n in s.cursors)
  }

  function ResetCursors(s: State): State {
    s.(cursors := map n | n in s.cursors :: s.cursors[n].(chk := 0, pos := 0, offset := 0))
  }

  function Clear(s: State, vbState: VBState): State {
    ResetCursors(State([NewChk(if vbState == Active then 1 else 0)], s.cursors, 1))
  }

  function Init(id: nat): State {
    State([NewChk(id)], map[PERSISTENCE := Cursor(0, 0, 0, false)], 1)
  }

  // ---------------------------------------------------------------- dropping and collapsing

  /** Number of leading checkpoints that no cursor stands in. */
  function LeadingUnref(s: State, i: nat): (r: nat)
    requires i <= |s.chks|
    ensures i <= r <= |s.chks|
    ensures forall k :: i <= k < r ==> Unreferenced(s, k)
    ensures r < |s.chks| ==> !Unreferenced(s, r)
    decreases |s.chks| - i
  {
    if i < |s.chks| && Unreferenced(s, i) then LeadingUnref(s, i + 1) else i
  }

  function DropFront(s: State, r: nat): State
    requires r <= |s.chks|
  {
    if r == 0 then s
    else
      var w := TotalWeight(s.chks[..r]);
      State(s.chks[r..],
            map n | n in s.cursors ::
              var c := s.cursors[n]; c.(chk := if c.chk >= r then c.chk - r else 0, offset := Decr(n, c.offset, w)),
            s.numItems - w)
  }

  /** A cursor after all closed checkpoints were merged into the one at `lc`. */
  function AfterCollapse(n: string, c: Cursor, lc: nat, first: nat, added: nat, gone: nat): Cursor {
    if c.chk < lc then c.(chk := 0, pos := 0, offset := 0)
    else c.(chk := c.chk - lc,
            pos := if c.chk == lc && c.pos >= first then c.pos + added else c.pos,
            offset := Decr(n, c.offset, gone))
  }

  /** Merge all checkpoints before the one at `lc` into it. */
  function CollapseInto(s: State, lc: nat): State
    requires lc < |s.chks|
  {
    var items := s.chks[lc].items;
    var merged := MergeAll(s.chks[..lc], items);
    var added := if |merged| >= |items| then |merged| - |items| else 0;
    var gone := TotalWeight(s.chks[..lc]) - added;
    State([s.chks[lc].(items := merged)] + s.chks[lc + 1..],
          map n | n in s.cursors ::
            AfterCollapse(n, s.cursors[n], lc, FirstKeyed(items), added, if gone >= 0 then gone else 0),
          s.numItems - gone)
  }

  function CollapseClosed(s: State): State
    requires |s.chks| >= 1
  {
    if |s.chks| > 2 then CollapseInto(s, |s.chks| - 2) else s
  }

  predicate HighMemCreation(s: State, env: Env)
    requires |s.chks| >= 1
  {
    && env.memAboveHighWat
    && (forall n | n in s.cursors :: s.cursors[n].chk == |s.chks| - 1)
    && (NumKeyed(Back(s).items) >= MIN_CHECKPOINT_ITEMS || NumKeyed(Back(s).items) == env.hashTableItems)
  }

  /** A cursor that read the whole of a checkpoint moves on to the beginning of the next one. */
  function SteppedOver(chks: seq<Chk>, c: Cursor, oldId: nat): Cursor {
    if c.chk + 1 < |chks| && chks[c.chk].id == oldId && c.pos + 1 == |chks[c.chk].items|
    then c.(chk := c.chk + 1, pos := 0)
    else c
  }

  function StepOver(s: State, oldId: nat): State {
    s.(cursors := map n | n in s.cursors :: SteppedOver(s.chks, s.cursors[n], oldId))
  }

  /** The first part of the clean-up: open a new checkpoint if one is due and move finished cursors into it. */
  function OpenIfDue(s: State, env: Env): (State, nat)
    requires |s.chks| >= 1
  {
    var (s1, oldId) := if CreatesCheckpoints(s, env) then CheckOpen(s, HighMemCreation(s, env), env) else (s, 0);
    (if oldId > 0 then StepOver(s1, oldId) else s1, oldId)
  }

  /** The periodic clean-up: the new state, the number of entries dropped, and whether a checkpoint was opened. */
  function RemoveClosedUnref(s: State, env: Env): (State, nat, bool)
    requires |s.chks| >= 1
  {
    var (s1, oldId) := OpenIfDue(s, env);
    if env.keepClosed && env.memBelowHighWat && |s1.chks| <= env.maxCheckpoints then (s1, 0, oldId > 0)
    else
      var lead := LeadingUnref(s1, 0);
      var r := if env.keepClosed && lead > 1 then 1 else lead;
      var s2 := DropFront(s1, r);
      var collapses := !env.keepClosed && |s2.chks| >= 1
                       && (env.vbState == Replica || (env.vbState == Active && env.inconsistentSlave));
      (if collapses then CollapseClosed(s2) else s2, TotalWeight(s1.chks[..r]), oldId > 0)
  }

  /** Reopen the single checkpoint left by a rollback. */
  function Reopen(c: Chk): Chk {
    if c.open then c
    else if c.items != [] && c.items[|c.items| - 1].op == OpCheckpointEnd
    then c.(open := true, items := c.items[..|c.items| - 1])
    else c.(open := true)
  }

  function Rollback(s: State, id: nat): State
    requires |s.chks| >= 1
  {
    var last := |s.chks| - 1;
    var s1 := CollapseInto(s, last);
    var c := Reopen(s1.chks[0]);
    var s2 := s1.(chks := [c], numItems := s1.numItems - if s1.chks[0].open then 0 else 1);
    ResetCursors(if |c.items| >= 2 then SetOpenId(s2, id) else s2)
  }

  /** A checkpoint-start message: the new state and whether the persistence cursor was repositioned. */
  function CheckAndAdd(s: State, id: nat): (State, bool)
    requires Inv(s)
  {
    if id == 0 then (s, false)
    else if Back(s).id == 0 then (SetOpenId(s, id), true)
    else if forall i | 0 <= i < |s.chks| :: s.chks[i].id < id then (AddNew(s, id), false)
    else (Rollback(s, id), true)
  }
}
