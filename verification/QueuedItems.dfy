/**
 Queued items and the meaning of a mutation log.

 A queued item names a key and what happened to it. Items whose key is empty are the
 bookkeeping entries of a checkpoint (dummy, start, end). The meaning of a log is its
 replay: for every key, the last change recorded for that key.
 */
module QueuedItems {
  import opened Options

  type Key = string

  datatype Operation = OpSet | OpDel | OpEmpty | OpCheckpointStart | OpCheckpointEnd

  datatype Item = Item(key: Key, op: Operation, rowId: int, queuedTime: nat)

  /** What an item does to its key; the queued time only feeds statistics. */
  datatype Change = Change(op: Operation, rowId: int)

  function ChangeOf(it: Item): Change {
    Change(it.op, it.rowId)
  }

  predicate Keyed(it: Item) {
    it.key != ""
  }

  /** A set or a deletion of a key. */
  predicate Mutates(it: Item) {
    Keyed(it) && (it.op == OpSet || it.op == OpDel)
  }

  predicate IsEnd(it: Item) {
    !Keyed(it) && it.op == OpCheckpointEnd
  }

  function DummyItem(): Item {
    Item("", OpEmpty, -1, 0)
  }

  function StartItem(id: nat): Item {
    Item("", OpCheckpointStart, id, 0)
  }

  function EndItem(id: nat): Item {
    Item("", OpCheckpointEnd, id, 0)
  }

  /** Replay of a log at one key. */
  function Replay(log: seq<Item>, k: Key): Option<Change> {
    if log == [] then None
    else if log[|log| - 1].key == k then Some(ChangeOf(log[|log| - 1]))
    else Replay(log[..|log| - 1], k)
  }

  ghost predicate HasKey(log: seq<Item>, k: Key) {
    exists i :: 0 <= i < |log| && log[i].key == k
  }

  lemma {:induction false} ReplayConcat(a: seq<Item>, b: seq<Item>, k: Key)
    ensures Replay(a + b, k) == if Replay(b, k).Some? then Replay(b, k) else Replay(a, k)
  {
    if b == [] {
      assert a + b == a;
    } else {
      assert (a + b)[..|a + b| - 1] == a + b[..|b| - 1];
      ReplayConcat(a, b[..|b| - 1], k);
    }
  }

  lemma {:induction false} ReplayDefined(log: seq<Item>, k: Key)
    ensures Replay(log, k).Some? <==> HasKey(log, k)
  {
    if log != [] {
      var init := log[..|log| - 1];
      ReplayDefined(init, k);
      if HasKey(init, k) {
        var i :| 0 <= i < |init| && init[i].key == k;
        assert log[i].key == k;
      }
      if HasKey(log, k) && log[|log| - 1].key != k {
        var i :| 0 <= i < |log| && log[i].key == k;
        assert init[i].key == k;
      }
    }
  }

  /** Number of mutations (items with a key). */
  function NumKeyed(items: seq<Item>): nat {
    if items == [] then 0
    else NumKeyed(items[..|items| - 1]) + if Keyed(items[|items| - 1]) then 1 else 0
  }

  lemma {:induction false} NumKeyedConcat(a: seq<Item>, b: seq<Item>)
    ensures NumKeyed(a + b) == NumKeyed(a) + NumKeyed(b)
  {
    if b == [] {
      assert a + b == a;
    } else {
      assert (a + b)[..|a + b| - 1] == a + b[..|b| - 1];
      NumKeyedConcat(a, b[..|b| - 1]);
    }
  }

  /** No two entries carry the same key. */
  ghost predicate DistinctKeys(items: seq<Item>) {
    forall i, j :: 0 <= i < j < |items| && Keyed(items[i]) ==> items[i].key != items[j].key
  }

  /** Position of the entry for a key, or the length when there is none. */
  function FindKey(items: seq<Item>, k: Key): (r: nat)
    ensures r <= |items|
    ensures r < |items| ==> items[r].key == k
    ensures forall i :: 0 <= i < r ==> items[i].key != k
  {
    if items == [] then 0
    else if items[0].key == k then 0
    else 1 + FindKey(items[1..], k)
  }

  /** Position of the first mutation, or the length when there is none. */
  function FirstKeyed(items: seq<Item>): (r: nat)
    ensures r <= |items|
    ensures r < |items| ==> Keyed(items[r])
    ensures forall i :: 0 <= i < r ==> !Keyed(items[i])
  {
    if items == [] then 0
    else if Keyed(items[0]) then 0
    else 1 + FirstKeyed(items[1..])
  }

  function Without<T>(s: seq<T>, i: nat): seq<T>
    requires i < |s|
  {
    s[..i] + s[i + 1..]
  }

  lemma {:induction false} DropWithout<T>(s: seq<T>, at: nat, p: nat)
    requires at < |s| && p < |s|
    ensures p < at ==> Without(s, at)[p + 1..] == s[p + 1..at] + s[at + 1..]
    ensures at <= p ==> Without(s, at)[p..] == s[p + 1..]
  {
  }

  lemma {:induction false} DropSnoc<T>(s: seq<T>, x: T, k: nat)
    requires k <= |s|
    ensures (s + [x])[k..] == s[k..] + [x]
  {
  }

  lemma {:induction false} ConcatAssociative<T>(a: seq<T>, b: seq<T>, c: seq<T>)
    ensures (a + b) + c == a + (b + c)
  {
  }
}
