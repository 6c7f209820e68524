/**
 The generic hash table: an array of chains of entries, newest first, in which a key may have several
 values; a stored value hides the older ones for its key until it is deleted.
 */
module GenHashes {
  import opened Options

  datatype UpdateType = MODIFICATION | NEW

  datatype Pair<K, V> = Pair(key: K, value: V)

  // ---------------------------------------------------------------- values of one key

  /** The values of one key, newest first. */
  function Stack<K(==), V>(ps: seq<Pair<K, V>>, k: K): seq<V> {
    if ps == [] then []
    else (if ps[0].key == k then [ps[0].value] else []) + Stack(ps[1..], k)
  }

  predicate Absent<K(==), V>(ps: seq<Pair<K, V>>, k: K) {
    forall i :: 0 <= i < |ps| ==> ps[i].key != k
  }

  lemma {:induction false} StackConcat<K, V>(ps: seq<Pair<K, V>>, qs: seq<Pair<K, V>>, k: K)
    ensures Stack(ps + qs, k) == Stack(ps, k) + Stack(qs, k)
    decreases |ps|
  {
    if ps == [] {
      assert ps + qs == qs;
    } else {
      StackConcat(ps[1..], qs, k);
      assert (ps + qs)[1..] == ps[1..] + qs;
    }
  }

  lemma {:induction false} StackAbsent<K, V>(ps: seq<Pair<K, V>>, k: K)
    requires Absent(ps, k)
    ensures Stack(ps, k) == []
    decreases |ps|
  {
    if ps != [] {
      StackAbsent(ps[1..], k);
    }
  }

  lemma {:induction false} StackOne<K, V>(p: Pair<K, V>, k: K)
    ensures Stack([p], k) == if p.key == k then [p.value] else []
  {
  }

  /** What the entry at `i` adds to a stack. */
  lemma {:induction false} StackAt<K, V>(ps: seq<Pair<K, V>>, i: nat, k: K)
    requires i < |ps|
    ensures Stack(ps, k) == Stack(ps[..i], k) + (if ps[i].key == k then [ps[i].value] else []) + Stack(ps[i + 1..], k)
  {
    hide Stack;
    StackConcat(ps[..i], ps[i..], k);
    StackConcat([ps[i]], ps[i + 1..], k);
    StackOne(ps[i], k);
    assert ps[i..] == [ps[i]] + ps[i + 1..];
    assert ps == ps[..i] + ps[i..];
  }

  /** Unlinking the first entry of a key uncovers the value below and touches no other key. */
  lemma {:induction false} StackWithout<K, V>(ps: seq<Pair<K, V>>, i: nat, k: K)
    requires i < |ps| && Absent(ps[..i], ps[i].key)
    ensures k == ps[i].key ==> Stack(ps, k) != [] && Stack(ps, k)[0] == ps[i].value
    ensures Stack(ps[..i] + ps[i + 1..], k) == if k == ps[i].key then Stack(ps, k)[1..] else Stack(ps, k)
  {
    hide Stack;
    StackAt(ps, i, k);
    StackConcat(ps[..i], ps[i + 1..], k);
    if k == ps[i].key {
      StackAbsent(ps[..i], k);
    }
  }

  /** Overwriting the first entry of a key replaces its newest value only. */
  lemma {:induction false} StackReplaced<K, V>(ps: seq<Pair<K, V>>, i: nat, v: V, k: K)
    requires i < |ps| && Absent(ps[..i], ps[i].key)
    ensures k == ps[i].key ==> Stack(ps, k) != []
    ensures Stack(ps[i := Pair(ps[i].key, v)], k) == if k == ps[i].key then [v] + Stack(ps, k)[1..] else Stack(ps, k)
  {
    hide Stack;
    var qs := ps[i := Pair(ps[i].key, v)];
    StackAt(ps, i, k);
    StackAt(qs, i, k);
    assert qs[..i] == ps[..i] && qs[i + 1..] == ps[i + 1..];
    if k == ps[i].key {
      StackAbsent(ps[..i], k);
    }
  }

  // ---------------------------------------------------------------- all chains

  function Joined<K, V>(rows: seq<seq<Pair<K, V>>>): seq<Pair<K, V>> {
    if rows == [] then [] else Joined(rows[..|rows| - 1]) + rows[|rows| - 1]
  }

  lemma {:induction false} JoinedUpdate<K, V>(rows: seq<seq<Pair<K, V>>>, n: nat, row: seq<Pair<K, V>>)
    requires n < |rows|
    ensures |Joined(rows[n := row])| == |Joined(rows)| - |rows[n]| + |row|
    decreases |rows|
  {
    var after := rows[n := row];
    if n == |rows| - 1 {
      assert after[..|after| - 1] == rows[..|rows| - 1];
    } else {
      JoinedUpdate(rows[..|rows| - 1], n, row);
      assert after[..|after| - 1] == rows[..|rows| - 1][n := row];
    }
  }

  lemma {:induction false} JoinedEmpty<K, V>(rows: seq<seq<Pair<K, V>>>)
    requires forall n :: 0 <= n < |rows| ==> rows[n] == []
    ensures Joined(rows) == []
    decreases |rows|
  {
    if rows != [] {
      JoinedEmpty(rows[..|rows| - 1]);
    }
  }

  // ---------------------------------------------------------------- the table

  class Entry<K, V> {
    const key: K
    var value: V
    var next: Entry?<K, V>

    constructor (key: K, value: V, next: Entry?<K, V>)
      ensures this.key == key && this.value == value && this.next == next
    {
      this.key, this.value, this.next := key, value, next;
    }
  }

  function Link<K, V>(chain: seq<Entry<K, V>>, i: nat): Entry?<K, V> {
    if i < |chain| then chain[i] else null
  }

  /** From `b`, the next pointers lead through exactly the entries of the chain, which carry the row. */
  ghost predicate Linked<K, V>(b: Entry?<K, V>, chain: seq<Entry<K, V>>, row: seq<Pair<K, V>>)
    reads chain
  {
    && |row| == |chain| && b == Link(chain, 0)
    && (forall i :: 0 <= i < |chain| ==>
          chain[i].next == Link(chain, i + 1) && row[i] == Pair(chain[i].key, chain[i].value))
  }

  predicate NoRepeat<K, V>(chain: seq<Entry<K, V>>) {
    forall i, j :: 0 <= i < j < |chain| ==> chain[i] != chain[j]
  }

  lemma {:induction false} LinkedAt<K, V>(b: Entry?<K, V>, chain: seq<Entry<K, V>>, row: seq<Pair<K, V>>, i: nat)
    requires Linked(b, chain, row) && i < |chain|
    ensures |row| == |chain| && row[i] == Pair(chain[i].key, chain[i].value) && chain[i].next == Link(chain, i + 1)
    ensures b == chain[0]
  {
  }

  lemma {:induction false} NoRepeatAt<K, V>(chain: seq<Entry<K, V>>, i: nat)
    requires NoRepeat(chain) && i < |chain|
    ensures forall j :: 0 <= j < |chain| && j != i ==> chain[j] != chain[i]
  {
  }

  lemma {:induction false} Pushed<K, V>(p: Entry<K, V>, chain: seq<Entry<K, V>>, row: seq<Pair<K, V>>)
    requires Linked(p.next, chain, row) && p !in chain && NoRepeat(chain)
    ensures Linked(p, [p] + chain, [Pair(p.key, p.value)] + row) && NoRepeat([p] + chain)
  {
  }

  /** Unlinking the entry at `i`: its predecessor, or the bucket, points past it. */
  lemma {:induction false} Unlinked<K, V>(b: Entry?<K, V>, chain: seq<Entry<K, V>>, row: seq<Pair<K, V>>, i: nat)
    requires i < |chain| == |row| && NoRepeat(chain)
    requires b == if i == 0 then Link(chain, 1) else chain[0]
    requires forall j :: 0 <= j < |chain| ==> chain[j].next == Link(chain, if j == i - 1 then i + 1 else j + 1)
    requires forall j :: 0 <= j < |chain| ==> row[j] == Pair(chain[j].key, chain[j].value)
    ensures Linked(b, chain[..i] + chain[i + 1..], row[..i] + row[i + 1..])
    ensures NoRepeat(chain[..i] + chain[i + 1..])
  {
    hide Link;
    var rest, row' := chain[..i] + chain[i + 1..], row[..i] + row[i + 1..];
    forall j: nat ensures Link(rest, j) == Link(chain, if j < i then j else j + 1) {
      LinkRest(chain, i, j);
    }
    LinkFirst(chain);
    forall j | 0 <= j < |rest| ensures rest[j].next == Link(rest, j + 1) && row'[j] == Pair(rest[j].key, rest[j].value) {
      assert rest[j] == chain[if j < i then j else j + 1];
    }
    assert Link(rest, 0) == b;
  }

  lemma {:induction false} LinkFirst<K, V>(chain: seq<Entry<K, V>>)
    requires chain != []
    ensures Link(chain, 0) == chain[0]
  {
  }

  lemma {:induction false} LinkRest<K, V>(chain: seq<Entry<K, V>>, i: nat, j: nat)
    requires i < |chain|
    ensures Link(chain[..i] + chain[i + 1..], j) == Link(chain, if j < i then j else j + 1)
  {
  }

  /** Give an entry of a chain a new value. */
  method SetValue<K, V>(p: Entry<K, V>, v: V, ghost b: Entry?<K, V>, ghost chain: seq<Entry<K, V>>, ghost row: seq<Pair<K, V>>, ghost i: nat)
    requires Linked(b, chain, row) && NoRepeat(chain) && i < |chain| && p == chain[i]
    modifies p`value
    ensures |row| == |chain| && row[i].key == p.key && Linked(b, chain, row[i := Pair(p.key, v)])
  {
    p.value := v;
  }

  /** Take the entry after `p` out of its chain. */
  method UnlinkNext<K, V>(p: Entry<K, V>, ghost b: Entry?<K, V>, ghost chain: seq<Entry<K, V>>, ghost row: seq<Pair<K, V>>, ghost i: nat)
    returns (gone: Entry<K, V>)
    requires Linked(b, chain, row) && NoRepeat(chain) && 0 < i < |chain| && p == chain[i - 1]
    modifies p`next
    ensures gone == chain[i] && |row| == |chain| && NoRepeat(chain[..i] + chain[i + 1..])
    ensures Linked(b, chain[..i] + chain[i + 1..], row[..i] + row[i + 1..])
  {
    hide NoRepeat;
    NoRepeatAt(chain, i - 1);
    gone := p.next;
    p.next := gone.next;
    Unlinked(b, chain, row, i);
  }

  class GenHash<K(==, !new), V> {
    const hash: K -> nat
    const buckets: array<Entry?<K, V>>
    ghost var chains: seq<seq<Entry<K, V>>>
    ghost var rows: seq<seq<Pair<K, V>>>
    ghost var repr: set<Entry<K, V>>
    // Values (and keys) duplicated and freed so far.
    var duplicated: nat
    var freed: nat

    function Index(k: K): (n: nat)
      requires buckets.Length > 0
      ensures n < buckets.Length
    {
      hash(k) % buckets.Length
    }

    /** Every key of the row belongs to bucket `n`. */
    ghost predicate AtHome(n: nat, row: seq<Pair<K, V>>)
      requires buckets.Length > 0
    {
      forall i :: 0 <= i < |row| ==> Index(row[i].key) == n
    }

    ghost predicate Within(chain: seq<Entry<K, V>>)
      reads this`repr
    {
      forall i :: 0 <= i < |chain| ==> chain[i] in repr
    }

    ghost predicate BucketOk(n: nat)
      requires n < buckets.Length && n < |chains| && n < |rows|
      reads this`chains, this`rows, this`repr, buckets, repr
    {
      && Within(chains[n]) && Linked(buckets[n], chains[n], rows[n]) && NoRepeat(chains[n]) && AtHome(n, rows[n])
    }

    ghost predicate BucketsOk()
      requires |chains| == |rows| == buckets.Length
      reads this`chains, this`rows, this`repr, buckets, repr
    {
      forall n :: 0 <= n < buckets.Length ==> BucketOk(n)
    }

    ghost predicate Chained()
      reads this`chains, this`rows, this`repr, buckets, repr
    {
      buckets.Length > 0 && |chains| == |rows| == buckets.Length && BucketsOk()
    }

    /** Well linked, and what was duplicated and not freed is what the table holds. */
    ghost predicate Valid()
      reads this, buckets, repr
    {
      Chained() && duplicated == freed + |Joined(rows)|
    }

    /** The values of a key, newest first. */
    ghost function StackOf(k: K): seq<V>
      requires buckets.Length > 0 && |rows| == buckets.Length
      reads this
    {
      Stack(rows[Index(k)], k)
    }

    constructor (size: nat, hash: K -> nat)
      requires size > 0
      ensures Valid() && fresh(buckets) && fresh(repr) && forall k :: StackOf(k) == []
    {
      this.hash := hash;
      buckets := new Entry?<K, V>[size](i => null);
      chains, rows := seq(size, i => []), seq(size, i => []);
      repr := {};
      duplicated, freed := 0, 0;
      new;
      JoinedEmpty(rows);
    }

    method Store(k: K, v: V)
      requires Valid()
      modifies this, buckets
      ensures Valid() && fresh(repr - old(repr))
      ensures forall j :: StackOf(j) == if j == k then [v] + old(StackOf(j)) else old(StackOf(j))
      ensures duplicated == old(duplicated) + 1 && freed == old(freed)
    {
      hide Joined, Stack, Linked, NoRepeat, Index;
      var n := Index(k);
      assert BucketOk(n);
      var p := new Entry<K, V>(k, v, buckets[n]);
      duplicated := duplicated + 1;
      buckets[n] := p;
      Pushed(p, chains[n], rows[n]);
      ghost var row := [Pair(k, v)] + rows[n];
      JoinedUpdate(rows, n, row);
      forall j: K ensures Stack(row, j) == (if j == k then [v] else []) + Stack(rows[n], j) {
        StackConcat([Pair(k, v)], rows[n], j);
        StackOne(Pair(k, v), j);
      }
      chains, rows, repr := chains[n := [p] + chains[n]], rows[n := row], repr + {p};
      forall m | 0 <= m < buckets.Length ensures BucketOk(m) {
        assert old(BucketOk(m));
      }
    }

    method FindEntry(k: K) returns (p: Entry?<K, V>, ghost i: nat)
      requires Valid()
      ensures p == null ==> Absent(rows[Index(k)], k)
      ensures p != null ==> i < |chains[Index(k)]| && p == chains[Index(k)][i] && p.key == k
      ensures p != null ==> |rows[Index(k)]| == |chains[Index(k)]| && Absent(rows[Index(k)][..i], k)
    {
      hide Joined, Stack, Index, NoRepeat;
      ghost var n := Index(k);
      assert BucketOk(n);
      p, i := buckets[Index(k)], 0;
      while p != null && p.key != k
        invariant i <= |chains[n]| && p == Link(chains[n], i) && Absent(rows[n][..i], k)
        decreases |chains[n]| - i
      {
        p, i := p.next, i + 1;
      }
    }

    method Find(k: K) returns (v: Option<V>)
      requires Valid()
      ensures v == if StackOf(k) == [] then None else Some(StackOf(k)[0])
    {
      hide Joined, Stack, Index, NoRepeat;
      assert BucketOk(Index(k));
      var p; ghost var i;
      p, i := FindEntry(k);
      if p == null {
        StackAbsent(rows[Index(k)], k);
        v := None;
      } else {
        StackWithout(rows[Index(k)], i, k);
        v := Some(p.value);
      }
    }

    /** Free the value of the newest entry of a key and give it a new one. */
    method Overwrite(k: K, p: Entry<K, V>, ghost i: nat, v: V)
      requires Valid() && i < |chains[Index(k)]| && p == chains[Index(k)][i] && p.key == k
      requires |rows[Index(k)]| == |chains[Index(k)]| && Absent(rows[Index(k)][..i], k)
      modifies this, repr
      ensures Valid() && repr == old(repr) && old(StackOf(k)) != []
      ensures forall j :: StackOf(j) == if j == k then [v] + old(StackOf(k))[1..] else old(StackOf(j))
      ensures duplicated == old(duplicated) + 1 && freed == old(freed) + 1
    {
      hide Joined, Stack, Index, NoRepeat, Linked;
      ghost var n := Index(k);
      assert BucketOk(n);
      Elsewhere(n, i);
      freed := freed + 1;
      SetValue(p, v, buckets[n], chains[n], rows[n], i);
      duplicated := duplicated + 1;
      ghost var row := rows[n][i := Pair(k, v)];
      JoinedUpdate(rows, n, row);
      StackReplaced(rows[n], i, v, k);
      forall j: K ensures Stack(row, j) == if j == k then [v] + Stack(rows[n], k)[1..] else Stack(rows[n], j) {
        StackReplaced(rows[n], i, v, j);
      }
      rows := rows[n := row];
      forall m | 0 <= m < buckets.Length ensures BucketOk(m) {
        assert old(BucketOk(m));
      }
    }

    /** Entries of different buckets are different, since their keys are. */
    lemma {:induction false} Elsewhere(n: nat, i: nat)
      requires Chained() && n < |chains| && i < |chains[n]|
      ensures forall m :: 0 <= m < |chains| && m != n ==> chains[n][i] !in chains[m]
    {
      hide NoRepeat, Link;
      assert BucketOk(n);
      forall m | 0 <= m < |chains| && m != n ensures chains[n][i] !in chains[m] {
        assert BucketOk(m);
        assert forall j :: 0 <= j < |chains[m]| ==> rows[m][j].key == chains[m][j].key;
      }
    }

    method Update(k: K, v: V) returns (rv: UpdateType)
      requires Valid()
      modifies this, buckets, repr
      ensures Valid() && fresh(repr - old(repr)) && rv == if old(StackOf(k)) == [] then NEW else MODIFICATION
      ensures forall j :: StackOf(j) ==
                if j != k then old(StackOf(j)) else if old(StackOf(k)) == [] then [v] else [v] + old(StackOf(k))[1..]
    {
      hide Joined, Stack, Index, BucketOk;
      var p; ghost var i;
      p, i := FindEntry(k);
      if p != null {
        Overwrite(k, p, i, v);
        rv := MODIFICATION;
      } else {
        StackAbsent(rows[Index(k)], k);
        Store(k, v);
        rv := NEW;
      }
    }

    /** Update by a function of the newest value, or of a default if there is none. */
    method FunUpdate(k: K, upd: V -> V, def: V) returns (rv: UpdateType)
      requires Valid()
      modifies this, buckets, repr
      ensures Valid() && fresh(repr - old(repr)) && rv == if old(StackOf(k)) == [] then NEW else MODIFICATION
      ensures forall j :: StackOf(j) ==
                if j != k then old(StackOf(j))
                else if old(StackOf(k)) == [] then [upd(def)]
                else [upd(old(StackOf(k))[0])] + old(StackOf(k))[1..]
    {
      hide Joined, Stack, Index, NoRepeat;
      var p; ghost var i;
      assert BucketOk(Index(k));
      p, i := FindEntry(k);
      if p != null {
        StackWithout(rows[Index(k)], i, k);
        Overwrite(k, p, i, upd(p.value));
        rv := MODIFICATION;
      } else {
        StackAbsent(rows[Index(k)], k);
        Store(k, upd(def));
        rv := NEW;
      }
    }

    /** From the given rows, the newest value of a key is gone and nothing else. */
    ghost predicate Popped(before: seq<seq<Pair<K, V>>>, k: K)
      requires buckets.Length > 0 && |before| == |rows| == buckets.Length
      reads this
    {
      && |Joined(rows)| == |Joined(before)| - 1 && Stack(before[Index(k)], k) != []
      && forall j :: Stack(rows[Index(j)], j) == if j == k then Stack(before[Index(k)], k)[1..] else Stack(before[Index(j)], j)
    }

    /** The bookkeeping of taking entry `i` out of bucket `n`. */
    ghost method Forget(k: K, n: nat, i: nat)
      requires buckets.Length > 0 && |chains| == |rows| == buckets.Length && n == Index(k)
      requires i < |chains[n]| == |rows[n]| && rows[n][i].key == k && Absent(rows[n][..i], k)
      requires forall m :: 0 <= m < buckets.Length && m != n ==> BucketOk(m)
      requires Within(chains[n]) && AtHome(n, rows[n]) && NoRepeat(chains[n][..i] + chains[n][i + 1..])
      requires Linked(buckets[n], chains[n][..i] + chains[n][i + 1..], rows[n][..i] + rows[n][i + 1..])
      modifies this`chains, this`rows
      ensures Chained() && Popped(old(rows), k)
      ensures rows == old(rows)[n := old(rows)[n][..i] + old(rows)[n][i + 1..]]
    {
      hide Joined, Stack, Index, NoRepeat, Linked;
      var chain, row := chains[n][..i] + chains[n][i + 1..], rows[n][..i] + rows[n][i + 1..];
      JoinedUpdate(rows, n, row);
      StackWithout(rows[n], i, k);
      forall j: K ensures Stack(row, j) == if j == k then Stack(rows[n], k)[1..] else Stack(rows[n], j) {
        StackWithout(rows[n], i, j);
      }
      chains, rows := chains[n := chain], rows[n := row];
      forall m | 0 <= m < buckets.Length ensures BucketOk(m) {
        assert m != n ==> old(BucketOk(m));
      }
    }

    /** Take the first entry out of a bucket. */
    method UnlinkFirst(k: K, n: nat) returns (gone: Entry<K, V>)
      requires Valid() && n == Index(k) && chains[n] != [] && chains[n][0].key == k
      modifies buckets, this`chains, this`rows
      ensures Chained() && Popped(old(rows), k) && rows == old(rows)[n := old(rows)[n][1..]]
    {
      hide Joined, Stack, Index, NoRepeat;
      assert BucketOk(n);
      gone := buckets[n];
      buckets[n] := gone.next;
      Unlinked(buckets[n], chains[n], rows[n], 0);
      assert rows[n][..0] + rows[n][1..] == rows[n][1..];
      forall m | 0 <= m < buckets.Length && m != n ensures BucketOk(m) {
        assert old(BucketOk(m));
      }
      Forget(k, n, 0);
    }

    /** Take the entry after `p` out of its bucket. */
    method UnlinkAfter(k: K, n: nat, p: Entry<K, V>, ghost i: nat) returns (gone: Entry<K, V>)
      requires Valid() && n == Index(k) && 0 < i < |chains[n]| && p == chains[n][i - 1] && chains[n][i].key == k
      requires i <= |rows[n]| && Absent(rows[n][..i], k)
      modifies repr, this`chains, this`rows
      ensures Chained() && Popped(old(rows), k)
    {
      hide Joined, Stack, Index, NoRepeat, Linked;
      assert BucketOk(n);
      Elsewhere(n, i - 1);
      assert rows[n][i].key == k by { LinkedAt(buckets[n], chains[n], rows[n], i); }
      gone := UnlinkNext(p, buckets[n], chains[n], rows[n], i);
      forall m | 0 <= m < buckets.Length && m != n ensures BucketOk(m) {
        assert old(BucketOk(m));
      }
      Forget(k, n, i);
    }

    method Delete(k: K) returns (rv: nat)
      requires Valid()
      modifies this, buckets, repr
      ensures Valid() && repr == old(repr) && rv == if old(StackOf(k)) == [] then 0 else 1
      ensures forall j :: StackOf(j) == if j == k && rv == 1 then old(StackOf(k))[1..] else old(StackOf(j))
      ensures duplicated == old(duplicated) && freed == old(freed) + rv
    {
      hide Joined, Stack, Index, BucketsOk;
      var n := Index(k);
      var deleteme: Entry?<K, V> := null;
      FirstParts(n);
      if buckets[n] != null {
        if buckets[n].key == k {
          deleteme := UnlinkFirst(k, n);
        } else {
          deleteme := DeleteLater(k, n);
        }
      }
      if deleteme == null {
        StackAbsent(rows[n], k);
      }
      rv := 0;
      if deleteme != null {
        freed := freed + 1;
        rv := 1;
      }
    }

    lemma {:induction false} FirstParts(n: nat)
      requires Chained() && n < buckets.Length
      ensures |chains[n]| == |rows[n]| && buckets[n] == Link(chains[n], 0)
      ensures chains[n] != [] ==> chains[n][0].key == rows[n][0].key
    {
      assert BucketOk(n);
    }

    lemma {:induction false} NextParts(n: nat, i: nat)
      requires Chained() && n < buckets.Length && i < |chains[n]|
      ensures |chains[n]| == |rows[n]|
      ensures chains[n][i].next == if i + 1 < |chains[n]| then chains[n][i + 1] else null
      ensures i + 1 < |chains[n]| ==> chains[n][i + 1].key == rows[n][i + 1].key
    {
      assert BucketOk(n);
    }

    lemma {:induction false} AbsentMore(row: seq<Pair<K, V>>, i: nat, k: K)
      requires i < |row| && Absent(row[..i], k) && row[i].key != k
      ensures Absent(row[..i + 1], k)
    {
    }

    /** The search behind the first entry. */
    method DeleteLater(k: K, n: nat) returns (deleteme: Entry?<K, V>)
      requires Valid() && n == Index(k) && chains[n] != [] && buckets[n] == chains[n][0] && chains[n][0].key != k
      modifies repr, this`chains, this`rows
      ensures Chained() && (deleteme == null ==> rows == old(rows) && Absent(rows[n], k))
      ensures deleteme != null ==> Popped(old(rows), k)
    {
      hide Joined, Stack, Index, BucketsOk, Popped, Absent;
      deleteme := null;
      FirstParts(n);
      var p: Entry?<K, V> := buckets[n];
      ghost var i := 0;
      AbsentMore(rows[n], 0, k) by { StartsAbsent(rows[n], k); }
      while deleteme == null && p.next != null
        invariant deleteme == null ==>
                    Valid() && chains == old(chains) && rows == old(rows)
                    && i < |chains[n]| == |rows[n]| && p == chains[n][i] && Absent(rows[n][..i + 1], k)
        invariant deleteme != null ==> Chained() && Popped(old(rows), k)
        decreases if deleteme == null then |old(chains)[n]| - i else 0
      {
        NextParts(n, i);
        if p.next.key == k {
          deleteme := UnlinkAfter(k, n, p, i + 1);
        } else {
          AbsentMore(rows[n], i + 1, k);
        }
        p, i := p.next, i + 1;
      }
      if deleteme == null {
        NextParts(n, i);
        assert rows[n][..i + 1] == rows[n];
      }
    }

    lemma {:induction false} StartsAbsent(row: seq<Pair<K, V>>, k: K)
      ensures Absent(row[..0], k)
    {
    }

    /** Every value of the key, however many there are. */
    method DeleteAll(k: K) returns (rv: nat)
      requires Valid()
      modifies this, buckets, repr
      ensures Valid() && repr == old(repr) && rv == |old(StackOf(k))| && StackOf(k) == []
      ensures forall j :: j != k ==> StackOf(j) == old(StackOf(j))
      ensures duplicated == old(duplicated) && freed == old(freed) + rv
    {
      hide Joined, Stack, Index, BucketsOk;
      rv := 0;
      var deleted := Delete(k);
      while deleted == 1
        invariant Valid() && repr == old(repr) && deleted <= 1
        invariant rv + deleted <= |old(StackOf(k))| && StackOf(k) == old(StackOf(k))[rv + deleted..]
        invariant deleted == 0 ==> StackOf(k) == []
        invariant forall j :: j != k ==> StackOf(j) == old(StackOf(j))
        invariant duplicated == old(duplicated) && freed == old(freed) + rv + deleted
        decreases |StackOf(k)| + deleted
      {
        rv := rv + 1;
        deleted := Delete(k);
      }
    }

    /** The entries in the order the callback sees them: bucket by bucket, each from its newest entry. */
    method Iter() returns (visits: seq<Pair<K, V>>)
      requires Valid()
      ensures visits == Joined(rows) && |visits| == duplicated - freed
      ensures forall k :: Stack(visits, k) == StackOf(k)
    {
      hide Stack, BucketsOk;
      visits := [];
      var i := 0;
      while i < buckets.Length
        invariant i <= buckets.Length && visits == Joined(rows[..i])
      {
        var row := IterBucket(i);
        visits := visits + row;
        assert rows[..i + 1][..i] == rows[..i];
        i := i + 1;
      }
      assert rows[..i] == rows;
      AllAtHome();
      forall k ensures Stack(visits, k) == StackOf(k) {
        JoinedStack(rows, k);
      }
    }

    method IterBucket(n: nat) returns (row: seq<Pair<K, V>>)
      requires Valid() && n < buckets.Length
      ensures row == rows[n]
    {
      hide Joined, Stack, Index, BucketsOk;
      FirstParts(n);
      row := [];
      var p := buckets[n];
      while p != null
        invariant |row| <= |chains[n]| == |rows[n]| && p == Link(chains[n], |row|) && row == rows[n][..|row|]
        decreases |chains[n]| - |row|
      {
        EntryParts(n, |row|);
        row := row + [Pair(p.key, p.value)];
        p := p.next;
      }
    }

    lemma {:induction false} EntryParts(n: nat, i: nat)
      requires Chained() && n < buckets.Length && i < |chains[n]|
      ensures |chains[n]| == |rows[n]| && rows[n][i] == Pair(chains[n][i].key, chains[n][i].value)
      ensures chains[n][i].next == Link(chains[n], i + 1)
    {
      assert BucketOk(n);
    }

    lemma {:induction false} AllAtHome()
      requires Chained()
      ensures forall n :: 0 <= n < |rows| ==> AtHome(n, rows[n])
    {
      hide AtHome, Linked, NoRepeat, Within;
      forall n | 0 <= n < |rows| ensures AtHome(n, rows[n]) {
        assert BucketOk(n);
      }
    }

    /** Looking through all buckets finds what looking in the key's own bucket finds. */
    lemma {:induction false} JoinedStack(rs: seq<seq<Pair<K, V>>>, k: K)
      requires buckets.Length > 0 && |rs| <= buckets.Length && forall n :: 0 <= n < |rs| ==> AtHome(n, rs[n])
      ensures Stack(Joined(rs), k) == if Index(k) < |rs| then Stack(rs[Index(k)], k) else []
      decreases |rs|
    {
      hide Stack, Index;
      if rs == [] {
        StackAbsent<K, V>([], k);
      } else {
        var last := |rs| - 1;
        JoinedStack(rs[..last], k);
        StackConcat(Joined(rs[..last]), rs[last], k);
        if Index(k) != last {
          StackAbsent(rs[last], k);
        }
      }
    }

    method Size() returns (n: nat)
      requires Valid()
      ensures n == |Joined(rows)| == duplicated - freed
    {
      var visits := Iter();
      n := |visits|;
    }

    /** The values of one key in the order the callback sees them. */
    method IterKey(k: K) returns (visits: seq<V>)
      requires Valid()
      ensures visits == StackOf(k)
    {
      hide Joined, Stack, Index, BucketsOk;
      ghost var n := Index(k);
      FirstParts(n);
      visits := [];
      var p := buckets[Index(k)];
      ghost var i := 0;
      assert visits == Stack(rows[n][..0], k) by { StackAbsent(rows[n][..0], k); }
      while p != null
        invariant i <= |chains[n]| == |rows[n]| && p == Link(chains[n], i) && visits == Stack(rows[n][..i], k)
        decreases |chains[n]| - i
      {
        EntryParts(n, i);
        StackConcat(rows[n][..i], [rows[n][i]], k);
        StackOne(rows[n][i], k);
        assert rows[n][..i + 1] == rows[n][..i] + [rows[n][i]];
        if p.key == k {
          visits := visits + [p.value];
        }
        p, i := p.next, i + 1;
      }
      assert rows[n][..i] == rows[n];
    }

    method SizeForKey(k: K) returns (n: nat)
      requires Valid()
      ensures n == |StackOf(k)|
    {
      var visits := IterKey(k);
      n := |visits|;
    }

    method Clear() returns (rv: nat)
      requires Valid()
      modifies this, buckets
      ensures Valid() && repr == old(repr) && rv == 0 && freed == duplicated == old(duplicated)
      ensures forall k :: StackOf(k) == []
    {
      hide Joined, Stack, Index, BucketsOk, Popped;
      rv := 0;
      var i := 0;
      while i < buckets.Length
        invariant i <= buckets.Length && Valid() && repr == old(repr) && duplicated == old(duplicated)
        invariant forall m :: 0 <= m < i ==> rows[m] == []
      {
        FirstParts(i);
        while buckets[i] != null
          invariant Valid() && repr == old(repr) && duplicated == old(duplicated)
          invariant forall m :: 0 <= m < i ==> rows[m] == []
          invariant buckets[i] == Link(chains[i], 0) && |chains[i]| == |rows[i]|
          decreases |rows[i]|
        {
          FirstHome(i);
          ghost var before := rows;
          var gone := UnlinkFirst(buckets[i].key, i);
          JoinedUpdate(before, i, before[i][1..]);
          freed := freed + 1;
          FirstParts(i);
        }
        i := i + 1;
      }
      JoinedEmpty(rows);
      forall k ensures StackOf(k) == [] {
        StackAbsent(rows[Index(k)], k);
      }
    }

    lemma {:induction false} FirstHome(n: nat)
      requires Chained() && n < buckets.Length && chains[n] != []
      ensures n == Index(chains[n][0].key)
    {
      assert BucketOk(n);
      assert Index(rows[n][0].key) == n;
    }
  }

  // ---------------------------------------------------------------- whole runs

  datatype Op<!K, !V> =
    | Stores(k: K, v: V) | Updates(k: K, v: V) | FunUpdates(k: K, upd: V -> V, def: V)
    | Deletes(k: K) | DeletesAll(k: K) | Clears

  /** The newest value first; a key that is not in the map has none. */
  function Values<K, V>(m: map<K, seq<V>>, k: K): seq<V> {
    if k in m then m[k] else []
  }

  /** One operation on a map from keys to stacks of values. */
  function Applied<K, V>(m: map<K, seq<V>>, op: Op<K, V>): map<K, seq<V>> {
    match op
    case Stores(k, v) => m[k := [v] + Values(m, k)]
    case Updates(k, v) => m[k := [v] + if Values(m, k) == [] then [] else Values(m, k)[1..]]
    case FunUpdates(k, upd, def) =>
      m[k := if Values(m, k) == [] then [upd(def)] else [upd(Values(m, k)[0])] + Values(m, k)[1..]]
    case Deletes(k) => m[k := if Values(m, k) == [] then [] else Values(m, k)[1..]]
    case DeletesAll(k) => m[k := []]
    case Clears => map[]
  }

  function AfterAll<K, V>(ops: seq<Op<K, V>>): map<K, seq<V>> {
    if ops == [] then map[] else Applied(AfterAll(ops[..|ops| - 1]), ops[|ops| - 1])
  }

  method ApplyOne<K(==, !new), V>(table: GenHash<K, V>, op: Op<K, V>, ghost m: map<K, seq<V>>)
    requires table.Valid() && forall k :: table.StackOf(k) == Values(m, k)
    modifies table, table.buckets, table.repr
    ensures table.Valid() && fresh(table.repr - old(table.repr))
    ensures forall k :: table.StackOf(k) == Values(Applied(m, op), k)
  {
    match op
    case Stores(k, v) =>
      table.Store(k, v);
    case Updates(k, v) =>
      var rv := table.Update(k, v);
    case FunUpdates(k, upd, def) =>
      var rv := table.FunUpdate(k, upd, def);
    case Deletes(k) =>
      var rv := table.Delete(k);
    case DeletesAll(k) =>
      var rv := table.DeleteAll(k);
    case Clears =>
      var rv := table.Clear();
  }

  /** Any run from an empty table of any size leaves the stacks that the map of stacks has. */
  method Replay<K(==, !new), V>(size: nat, hash: K -> nat, ops: seq<Op<K, V>>) returns (table: GenHash<K, V>)
    requires size > 0
    ensures table.Valid() && fresh(table) && forall k :: table.StackOf(k) == Values(AfterAll(ops), k)
  {
    table := new GenHash<K, V>(size, hash);
    var i := 0;
    while i < |ops|
      invariant i <= |ops| && table.Valid() && fresh(table) && fresh(table.buckets) && fresh(table.repr)
      invariant forall k :: table.StackOf(k) == Values(AfterAll(ops[..i]), k)
    {
      ApplyOne(table, ops[i], AfterAll(ops[..i]));
      assert ops[..i + 1][..i] == ops[..i];
      i := i + 1;
    }
    assert ops[..i] == ops;
  }
}
