/**
 Deleting a vbucket from disk in ranges of row ids. The ranges are split and merged so that the
 time each deletion takes comes near a threshold; this must neither skip a row nor go on forever,
 whatever the times measured and however often a deletion fails.
 */
module VBucketDeletion {
  datatype Range = Range(first: int, second: int)

  /** Ranges in increasing order that do not touch each other's points. */
  predicate Sorted(rs: seq<Range>) {
    && (forall i :: 0 <= i < |rs| ==> rs[i].first <= rs[i].second)
    && (forall i, j :: 0 <= i < j < |rs| ==> rs[i].second < rs[j].first)
  }

  predicate Covers(rs: seq<Range>, x: int) {
    exists i :: 0 <= i < |rs| && rs[i].first <= x <= rs[i].second
  }

  lemma {:induction false} SortedConcat(a: seq<Range>, b: seq<Range>)
    requires Sorted(a) && Sorted(b) && (a != [] && b != [] ==> a[|a| - 1].second < b[0].first)
    ensures Sorted(a + b)
  {
    var r := a + b;
    forall i, j | 0 <= i < j < |r| ensures r[i].second < r[j].first {
      if i < |a| <= j {
        assert a[i].second <= a[|a| - 1].second;
        assert b[0].first <= b[j - |a|].first;
      }
    }
  }

  lemma {:induction false} SortedSlice(rs: seq<Range>, i: nat, j: nat)
    requires Sorted(rs) && i <= j <= |rs|
    ensures Sorted(rs[i..j])
  {
    var r := rs[i..j];
    assert forall k :: 0 <= k < |r| ==> r[k] == rs[i + k];
  }

  lemma {:induction false} CoversConcat(a: seq<Range>, b: seq<Range>, x: int)
    ensures Covers(a + b, x) <==> Covers(a, x) || Covers(b, x)
  {
    var r := a + b;
    if Covers(a, x) {
      var i :| 0 <= i < |a| && a[i].first <= x <= a[i].second;
      assert r[i] == a[i];
    }
    if Covers(b, x) {
      var i :| 0 <= i < |b| && b[i].first <= x <= b[i].second;
      assert r[|a| + i] == b[i];
    }
    if Covers(r, x) {
      var i :| 0 <= i < |r| && r[i].first <= x <= r[i].second;
      if i < |a| {
        assert a[i].first <= x <= a[i].second;
      } else {
        assert b[i - |a|].first <= x <= b[i - |a|].second;
      }
    }
  }

  lemma {:induction false} CoversOne(r: Range, x: int)
    ensures Covers([r], x) <==> r.first <= x <= r.second
  {
    assert [r][0] == r;
  }

  /** Covered points lie between the first start and the last end. */
  lemma {:induction false} CoversWithin(rs: seq<Range>, x: int)
    requires Sorted(rs) && Covers(rs, x)
    ensures rs != [] && rs[0].first <= x <= rs[|rs| - 1].second
  {
    var i :| 0 <= i < |rs| && rs[i].first <= x <= rs[i].second;
    assert i > 0 ==> rs[0].second < rs[i].first;
    assert i < |rs| - 1 ==> rs[i].second < rs[|rs| - 1].first;
  }

  // ---------------------------------------------------------------- splitting and merging

  function Split(rs: seq<Range>, i: nat, size: int): seq<Range> {
    if i >= |rs| || rs[i].second - rs[i].first <= size then rs
    else rs[..i] + [Range(rs[i].first, rs[i].first + size), Range(rs[i].first + size + 1, rs[i].second)] + rs[i + 1..]
  }

  /** The first range from `p` on that ends beyond a point. */
  function Closest(rs: seq<Range>, p: nat, point: int): (r: nat)
    requires p <= |rs|
    ensures p <= r <= |rs|
    ensures forall j :: p <= j < r ==> rs[j].second <= point
    ensures r < |rs| ==> rs[r].second > point
    decreases |rs| - p
  {
    if p < |rs| && rs[p].second <= point then Closest(rs, p + 1, point) else p
  }

  function Merged(rs: seq<Range>, i: nat, size: int): seq<Range> {
    if i >= |rs| || rs[i].second - rs[i].first >= size then rs
    else
      var endpoint := rs[i].first + size;
      var p := Closest(rs, i, endpoint);
      if p == |rs| then rs[..i] + [Range(rs[i].first, rs[|rs| - 1].second)]
      else if rs[p].first <= endpoint then
        rs[..i] + [Range(rs[i].first, endpoint), Range(endpoint + 1, rs[p].second)] + rs[p + 1..]
      else rs[..i] + [Range(rs[i].first, if p > 0 then rs[p - 1].second else endpoint)] + rs[p..]
  }

  /** A split changes no point and cuts the range to the size asked for. */
  lemma {:induction false} SplitMeaning(rs: seq<Range>, i: nat, size: int)
    requires Sorted(rs) && size >= 0 && i < |rs|
    ensures Sorted(Split(rs, i, size)) && i < |Split(rs, i, size)|
    ensures forall x :: Covers(Split(rs, i, size), x) <==> Covers(rs, x)
    ensures Split(rs, i, size)[..i] == rs[..i] && Split(rs, i, size)[i].first == rs[i].first
    ensures Split(rs, i, size)[i].second
            == if rs[i].second - rs[i].first > size then rs[i].first + size else rs[i].second
    ensures Split(rs, i, size)[|Split(rs, i, size)| - 1].second == rs[|rs| - 1].second
  {
    hide Sorted, Covers;
    if rs[i].second - rs[i].first > size {
      var front, back := rs[..i], rs[i + 1..];
      var r1, r2 := Range(rs[i].first, rs[i].first + size), Range(rs[i].first + size + 1, rs[i].second);
      assert rs == front + [rs[i]] + back;
      SplitSorted(rs, i, size);
      assert Split(rs, i, size) == front + [r1, r2] + back;
      forall x ensures Covers(Split(rs, i, size), x) <==> Covers(rs, x) {
        CoversConcat(front + [rs[i]], back, x);
        CoversConcat(front, [rs[i]], x);
        CoversConcat(front + [r1, r2], back, x);
        CoversConcat(front, [r1, r2], x);
        assert [r1, r2] == [r1] + [r2];
        CoversConcat([r1], [r2], x);
        CoversOne(rs[i], x);
        CoversOne(r1, x);
        CoversOne(r2, x);
      }
    }
  }

  lemma {:induction false} SplitSorted(rs: seq<Range>, i: nat, size: int)
    requires Sorted(rs) && size >= 0 && i < |rs| && rs[i].second - rs[i].first > size
    ensures Sorted(rs[..i] + [Range(rs[i].first, rs[i].first + size), Range(rs[i].first + size + 1, rs[i].second)] + rs[i + 1..])
  {
    var front, mid, back := rs[..i], [Range(rs[i].first, rs[i].first + size), Range(rs[i].first + size + 1, rs[i].second)], rs[i + 1..];
    SortedSlice(rs, 0, i);
    SortedSlice(rs, i + 1, |rs|);
    assert rs[0..i] == front && rs[i + 1..|rs|] == back;
    SortedConcat(front, mid);
    SortedConcat(front + mid, back);
  }

  /** What a merge asks for: everything covered beyond the merged range stays as it was. */
  ghost predicate MergesTo(rs: seq<Range>, i: nat, size: int, r: seq<Range>) {
    && i < |rs| && i < |r| && r[..i] == rs[..i] && Sorted(r)
    && r[i].first == rs[i].first
    && rs[i].second <= r[i].second <= rs[i].first + size
    && Covers(rs, r[i].second)
    && (forall x :: r[i].second < x <= rs[i].first + size ==> !Covers(rs, x))
    && (forall x :: x > r[i].second ==> (Covers(r, x) <==> Covers(rs, x)))
    && r[|r| - 1].second == rs[|rs| - 1].second
  }

  lemma {:induction false} MergedIndex(rs: seq<Range>, i: nat, size: int, p: nat)
    requires i < |rs| && rs[i].second - rs[i].first < size && p == Closest(rs, i, rs[i].first + size) && i < p
    ensures var r, endpoint := Merged(rs, i, size), rs[i].first + size;
            if p == |rs| then r == rs[..i] + [Range(rs[i].first, rs[p - 1].second)]
            else if rs[p].first <= endpoint
            then r == rs[..i] + [Range(rs[i].first, endpoint), Range(endpoint + 1, rs[p].second)] + rs[p + 1..]
            else r == rs[..i] + [Range(rs[i].first, rs[p - 1].second)] + rs[p..]
  {
  }

  lemma {:induction false} Glued(front: seq<Range>, m: Range, back: seq<Range>)
    requires Sorted(front) && Sorted(back) && m.first <= m.second
    requires (front != [] ==> front[|front| - 1].second < m.first) && (back != [] ==> m.second < back[0].first)
    ensures Sorted(front + [m] + back)
  {
    SortedConcat(front, [m]);
    SortedConcat(front + [m], back);
  }

  /** Beyond the end of a front part only the rest matters. */
  lemma {:induction false} Beyond(front: seq<Range>, rest: seq<Range>, x: int)
    requires Sorted(front) && (front != [] ==> front[|front| - 1].second < x)
    ensures Covers(front + rest, x) <==> Covers(rest, x)
  {
    CoversConcat(front, rest, x);
    if Covers(front, x) {
      CoversWithin(front, x);
    }
  }

  lemma {:induction false} Front(rs: seq<Range>, i: nat)
    requires Sorted(rs) && i <= |rs|
    ensures Sorted(rs[..i]) && (0 < i < |rs| ==> rs[i - 1].second < rs[i].first)
  {
    SortedSlice(rs, 0, i);
    assert rs[0..i] == rs[..i];
  }

  lemma {:induction false} Rest(rs: seq<Range>, i: nat)
    requires Sorted(rs) && i <= |rs|
    ensures Sorted(rs[i..])
  {
    SortedSlice(rs, i, |rs|);
    assert rs[i..|rs|] == rs[i..];
  }

  /** Beyond the first `p` ranges only the rest matters. */
  lemma {:induction false} BeyondFront(rs: seq<Range>, p: nat, x: int)
    requires Sorted(rs) && 0 < p <= |rs| && rs[p - 1].second < x
    ensures Covers(rs, x) <==> Covers(rs[p..], x)
  {
    hide Sorted, Covers;
    Front(rs, p);
    assert rs == rs[..p] + rs[p..];
    Beyond(rs[..p], rs[p..], x);
  }

  lemma {:induction false} EndCovered(rs: seq<Range>, i: nat, p: nat)
    requires Sorted(rs) && i < p <= |rs|
    ensures Covers(rs, rs[p - 1].second) && rs[i].first <= rs[i].second <= rs[p - 1].second
  {
    assert rs[p - 1].first <= rs[p - 1].second;
    assert i < p - 1 ==> rs[i].second < rs[p - 1].first;
  }

  /** Putting one range between two parts. */
  lemma {:induction false} Placed(front: seq<Range>, m: Range, back: seq<Range>, i: nat, last: int)
    requires |front| == i && (if back == [] then m.second == last else back[|back| - 1].second == last)
    ensures var r := front + [m] + back; i < |r| && r[..i] == front && r[i] == m && r[|r| - 1].second == last
  {
  }

  lemma {:induction false} FrontEnds(front: seq<Range>, m: Range, x: int)
    requires Sorted(front) && m.first <= m.second < x && (front != [] ==> front[|front| - 1].second < m.first)
    ensures Sorted(front + [m]) && (front + [m])[|front|].second < x
  {
    SortedConcat(front, [m]);
  }

  /** Beyond the merged range, only what follows it matters. */
  lemma {:induction false} BeyondMerged(rs: seq<Range>, i: nat, p: nat, m: Range, back: seq<Range>, x: int)
    requires Sorted(rs) && i < p <= |rs| && m.first == rs[i].first && rs[p - 1].second <= m.second < x
    ensures Covers(rs[..i] + [m] + back, x) <==> Covers(back, x)
    ensures Covers(rs, x) <==> Covers(rs[p..], x)
  {
    hide Sorted, Covers;
    EndCovered(rs, i, p);
    BeyondFront(rs, p, x);
    var front := rs[..i] + [m];
    assert Sorted(front) && front[i].second < x by {
      Front(rs, i);
      FrontEnds(rs[..i], m, x);
    }
    Beyond(front, back, x);
  }

  /** Replacing the ranges from `i` up to `p` by one range over their whole extent. */
  lemma {:induction false} MergeWhole(rs: seq<Range>, i: nat, size: int, p: nat)
    requires Sorted(rs) && i < p <= |rs| && rs[i].second - rs[i].first < size
    requires rs[p - 1].second <= rs[i].first + size && (p < |rs| ==> rs[i].first + size < rs[p].first)
    ensures MergesTo(rs, i, size, rs[..i] + [Range(rs[i].first, rs[p - 1].second)] + rs[p..])
  {
    hide Sorted, Covers;
    var m, front, back := Range(rs[i].first, rs[p - 1].second), rs[..i], rs[p..];
    var r := front + [m] + back;
    EndCovered(rs, i, p);
    assert r[..i] == front && r[i] == m && r[|r| - 1].second == rs[|rs| - 1].second by {
      Placed(front, m, back, i, rs[|rs| - 1].second);
    }
    assert Sorted(r) by {
      Front(rs, i);
      Rest(rs, p);
      Glued(front, m, back);
    }
    forall x | x > m.second
      ensures Covers(r, x) <==> Covers(rs, x)
      ensures x <= rs[i].first + size ==> !Covers(rs, x)
    {
      BeyondMerged(rs, i, p, m, back, x);
      Rest(rs, p);
      if Covers(back, x) {
        CoversWithin(back, x);
      }
    }
  }

  /** Ending inside the range at `p`, which loses its front. */
  lemma {:induction false} MergeInside(rs: seq<Range>, i: nat, size: int, p: nat)
    requires Sorted(rs) && i < p < |rs| && rs[i].second - rs[i].first < size
    requires rs[p].first <= rs[i].first + size < rs[p].second
    ensures var e := rs[i].first + size;
            MergesTo(rs, i, size, rs[..i] + [Range(rs[i].first, e)] + ([Range(e + 1, rs[p].second)] + rs[p + 1..]))
  {
    hide Sorted, Covers;
    var e := rs[i].first + size;
    var m, m2, front, rest := Range(rs[i].first, e), Range(e + 1, rs[p].second), rs[..i], rs[p + 1..];
    var back := [m2] + rest;
    var r := front + [m] + back;
    EndCovered(rs, i, p);
    assert rs[p - 1].second <= e by { Front(rs, p); }
    assert r[..i] == front && r[i] == m && r[|r| - 1].second == rs[|rs| - 1].second by {
      Placed(front, m, back, i, rs[|rs| - 1].second);
    }
    assert Sorted(r) by {
      Front(rs, i);
      assert Sorted(back) by {
        Rest(rs, p + 1);
        Front(rs, p + 1);
        EmptySorted();
        Glued([], m2, rest);
        assert [] + [m2] + rest == back;
      }
      Glued(front, m, back);
    }
    InsideCovered(rs, p, e);
    forall x | x > e ensures Covers(r, x) <==> Covers(rs, x) {
      BeyondMerged(rs, i, p, m, back, x);
      SameTail(rs[p], m2, rest, x);
      assert rs[p..] == [rs[p]] + rest;
    }
  }

  lemma {:induction false} SameTail(a: Range, b: Range, rest: seq<Range>, x: int)
    requires a.second == b.second && a.first <= x && b.first <= x
    ensures Covers([a] + rest, x) <==> Covers([b] + rest, x)
  {
    hide Covers;
    CoversConcat([a], rest, x);
    CoversConcat([b], rest, x);
    CoversOne(a, x);
    CoversOne(b, x);
  }

  lemma {:induction false} EmptySorted()
    ensures Sorted([])
  {
  }

  lemma {:induction false} InsideCovered(rs: seq<Range>, p: nat, x: int)
    requires p < |rs| && rs[p].first <= x <= rs[p].second
    ensures Covers(rs, x)
  {
  }

  lemma {:induction false} ConcatTwo(a: seq<Range>, x: Range, y: Range, b: seq<Range>)
    ensures a + [x, y] + b == a + [x] + ([y] + b)
  {
  }

  /** A merge ends the range at the last covered point within the size, and swallows what lies between. */
  lemma {:induction false} MergeMeaning(rs: seq<Range>, i: nat, size: int)
    requires Sorted(rs) && i < |rs| && rs[i].second - rs[i].first < size
    ensures MergesTo(rs, i, size, Merged(rs, i, size))
  {
    hide MergesTo, Closest, Sorted, Merged;
    var endpoint := rs[i].first + size;
    var p := Closest(rs, i, endpoint);
    MergedIndex(rs, i, size, p);
    if p == |rs| {
      MergeWhole(rs, i, size, p);
      assert rs[p..] == [];
      assert rs[..i] + [Range(rs[i].first, rs[p - 1].second)] + [] == rs[..i] + [Range(rs[i].first, rs[p - 1].second)];
    } else if rs[p].first <= endpoint {
      MergeInside(rs, i, size, p);
      ConcatTwo(rs[..i], Range(rs[i].first, endpoint), Range(endpoint + 1, rs[p].second), rs[p + 1..]);
    } else {
      MergeWhole(rs, i, size, p);
    }
  }

  // ---------------------------------------------------------------- the list object

  /** The ranges strictly between two positions are gone; all others are there, in order. */
  ghost predicate RemovedBetween(rs: seq<Range>, r: seq<Range>, first: nat, last: nat)
    requires first < last <= |rs|
  {
    var gone := last - first - 1;
    && |r| == |rs| - gone
    && (forall j :: 0 <= j <= first ==> r[j] == rs[j])
    && (forall j :: last <= j < |rs| ==> r[j - gone] == rs[j])
  }

  lemma {:induction false} RemovedIs(rs: seq<Range>, r: seq<Range>, first: nat, last: nat)
    requires first < last <= |rs| && RemovedBetween(rs, r, first, last)
    ensures r == rs[..first + 1] + rs[last..]
  {
    var gone := last - first - 1;
    assert forall j :: first < j < |r| ==> r[j] == rs[j + gone] by {
      forall j | first < j < |r| ensures r[j] == rs[j + gone] {
        assert r[j + gone - gone] == rs[j + gone];
      }
    }
  }

  class VBDeletionChunkRangeList {
    var ranges: seq<Range>

    constructor ()
      ensures ranges == []
    {
      ranges := [];
    }

    /** Add a range at the end, unless it is empty or overlaps the last one. */
    method Add(range: Range)
      modifies this
      ensures ranges == if range.first > range.second || (old(ranges) != [] && old(ranges)[|old(ranges)| - 1].second > range.first)
                        then old(ranges) else old(ranges) + [range]
    {
      if range.first > range.second || (|ranges| > 0 && ranges[|ranges| - 1].second > range.first) {
        return;
      }
      ranges := ranges + [range];
    }

    method SplitChunkRange(i: nat, size: int)
      modifies this
      ensures ranges == Split(old(ranges), i, size)
    {
      if i >= |ranges| || ranges[i].second - ranges[i].first <= size {
        return;
      }
      var end := ranges[i].second;
      var cut := ranges[i].first + size;
      ranges := ranges[i := Range(ranges[i].first, cut)];
      ranges := ranges[..i + 1] + [Range(cut + 1, end)] + ranges[i + 1..];
    }

    /** The first range from `i` on that ends beyond the point the size leads to. */
    method FindClosestChunkByRangeSize(i: nat, size: int) returns (p: nat)
      requires i < |ranges|
      ensures p == Closest(ranges, i, ranges[i].first + size)
    {
      hide Closest;
      p := i;
      while p < |ranges| && ranges[p].second <= ranges[i].first + size
        invariant i <= p <= |ranges|
        invariant forall j :: i <= j < p ==> ranges[j].second <= ranges[i].first + size
      {
        p := p + 1;
      }
      ClosestUnique(ranges, i, ranges[i].first + size, p);
    }

    method MergeChunkRanges(i: nat, size: int)
      modifies this
      ensures ranges == Merged(old(ranges), i, size)
    {
      if i >= |ranges| || ranges[i].second - ranges[i].first >= size {
        return;
      }
      hide Closest, Merged, RemovedBetween;
      ghost var rs := ranges;
      var start := ranges[i];
      var p := FindClosestChunkByRangeSize(i, size);
      assert i < p;
      StretchedMerged(rs, i, size, p);
      if p != |ranges| {
        var endpoint := start.first + size;
        if ranges[p].first <= endpoint && endpoint <= ranges[p].second {
          ranges := ranges[i := Range(start.first, endpoint)];
          ranges := ranges[p := Range(endpoint + 1, ranges[p].second)];
        } else {
          ranges := ranges[i := Range(start.first, ranges[p - 1].second)];
        }
      } else {
        ranges := ranges[i := Range(start.first, ranges[|ranges| - 1].second)];
      }
      ghost var changed := ranges;
      assert changed == Stretched(rs, i, size, p);
      RemoveChunkRanges(i, p);
      RemovedIs(changed, ranges, i, p);
    }

    /**
     Drop the ranges strictly between two positions and keep all others, unless the positions are the
     same, the first is the end, or the ranges there overlap. Positions out of order must overlap.
     */
    method RemoveChunkRanges(first: nat, last: nat)
      requires first <= |ranges| && last <= |ranges|
      requires last < first < |ranges| ==> ranges[first].second > ranges[last].first
      modifies this
      ensures first >= last || first == |old(ranges)| || (last < |old(ranges)| && old(ranges)[first].second > old(ranges)[last].first) ==>
                ranges == old(ranges)
      ensures first < last && (last < |old(ranges)| ==> old(ranges)[first].second <= old(ranges)[last].first) ==>
                RemovedBetween(old(ranges), ranges, first, last)
    {
      if first == last || first == |ranges| || (last < |ranges| && ranges[first].second > ranges[last].first) {
        return;
      }
      ranges := ranges[..first + 1] + ranges[last..];
    }
  }

  /** The list of a merge before the ranges in between are removed. */
  function Stretched(rs: seq<Range>, i: nat, size: int, p: nat): (r: seq<Range>)
    requires i < p <= |rs|
    ensures |r| == |rs|
  {
    var first, endpoint := rs[i].first, rs[i].first + size;
    if p == |rs| then rs[i := Range(first, rs[|rs| - 1].second)]
    else if rs[p].first <= endpoint then rs[i := Range(first, endpoint)][p := Range(endpoint + 1, rs[p].second)]
    else rs[i := Range(first, rs[p - 1].second)]
  }

  lemma {:induction false} StretchedMerged(rs: seq<Range>, i: nat, size: int, p: nat)
    requires i < |rs| && rs[i].second - rs[i].first < size && p == Closest(rs, i, rs[i].first + size) && i < p
    ensures var r := Stretched(rs, i, size, p);
            && r[..i + 1] + r[p..] == Merged(rs, i, size)
            && (p < |rs| ==> r[i].second <= r[p].first)
  {
    hide Closest, Merged;
    var endpoint := rs[i].first + size;
    MergedIndex(rs, i, size, p);
    if p < |rs| && rs[p].first <= endpoint {
      SpliceInside(rs, i, p, Range(rs[i].first, endpoint), Range(endpoint + 1, rs[p].second));
    } else {
      SpliceWhole(rs, i, p, Range(rs[i].first, rs[p - 1].second));
    }
  }

  lemma {:induction false} SpliceWhole(rs: seq<Range>, i: nat, p: nat, m: Range)
    requires i < p <= |rs|
    ensures rs[i := m][..i + 1] + rs[i := m][p..] == rs[..i] + [m] + rs[p..]
    ensures p == |rs| ==> rs[..i] + [m] + rs[p..] == rs[..i] + [m]
  {
  }

  lemma {:induction false} SpliceInside(rs: seq<Range>, i: nat, p: nat, m: Range, m2: Range)
    requires i < p < |rs|
    ensures rs[i := m][p := m2][..i + 1] + rs[i := m][p := m2][p..] == rs[..i] + [m, m2] + rs[p + 1..]
  {
  }

  lemma {:induction false} ClosestUnique(rs: seq<Range>, i: nat, point: int, p: nat)
    requires i <= p <= |rs|
    requires forall j :: i <= j < p ==> rs[j].second <= point
    requires p < |rs| ==> rs[p].second > point
    ensures p == Closest(rs, i, point)
  {
    hide Closest;
  }

  // ---------------------------------------------------------------- building the list

  predicate Increasing(rows: seq<int>) {
    forall i, j :: 0 <= i < j < |rows| ==> rows[i] < rows[j]
  }

  /** The first `n` row ids are in ranges that start and end at row ids. */
  ghost predicate Built(rows: seq<int>, rs: seq<Range>, n: nat) {
    && n <= |rows| && Sorted(rs) && (n == 0 <==> rs == [])
    && (rs != [] ==> rs[0].first == rows[0] && rs[|rs| - 1].second == rows[n - 1])
    && (forall j :: 0 <= j < n ==> Covers(rs, rows[j]))
    && (forall i :: 0 <= i < |rs| ==> rs[i].first in rows && rs[i].second in rows)
  }

  /** The ranges of consecutive groups of a given number of row ids; the last group may be smaller. */
  function Chunks(rows: seq<int>, chunkSize: nat): (rs: seq<Range>)
    ensures rs == [] <==> rows == []
  {
    if rows == [] then []
    else if chunkSize == 0 || |rows| <= chunkSize then [Range(rows[0], rows[|rows| - 1])]
    else [Range(rows[0], rows[chunkSize - 1])] + Chunks(rows[chunkSize..], chunkSize)
  }

  /** Collect row ids into chunks. */
  method CreateRangeList(rows: seq<int>, chunkSize: nat) returns (list: VBDeletionChunkRangeList)
    requires Increasing(rows)
    ensures fresh(list) && Built(rows, list.ranges, |rows|) && list.ranges == Chunks(rows, chunkSize)
  {
    hide Built, Increasing, Chunks;
    list := new VBDeletionChunkRangeList();
    var counter := 0;
    var start, end := -1, -1;
    var k := 0;
    NothingBuilt(rows);
    assert rows[0..] == rows;
    while k < |rows|
      invariant 0 <= counter <= k <= |rows| && Built(rows, list.ranges, k - counter)
      invariant counter > 0 ==> start == rows[k - counter]
      invariant k == |rows| ==> counter == 0
      invariant list.ranges + Chunks(rows[k - counter..], chunkSize) == Chunks(rows, chunkSize)
      invariant chunkSize > 0 ==> counter < chunkSize
    {
      counter := counter + 1;
      if counter == 1 {
        start := rows[k];
      }
      if counter == chunkSize || k == |rows| - 1 {
        end := rows[k];
        BuiltMore(rows, list.ranges, k - counter + 1, k + 1);
        NextChunk(rows, chunkSize, k - counter + 1, k + 1);
        list.Add(Range(start, end));
        counter := 0;
      }
      k := k + 1;
    }
  }

  lemma {:induction false} NextChunk(rows: seq<int>, chunkSize: nat, n: nat, m: nat)
    requires n < m <= |rows| && (m - n == chunkSize || (m == |rows| && (chunkSize > 0 ==> m - n < chunkSize)))
    ensures Chunks(rows[n..], chunkSize) == [Range(rows[n], rows[m - 1])] + Chunks(rows[m..], chunkSize)
  {
    assert rows[n..][0] == rows[n] && rows[n..][m - n - 1] == rows[m - 1] && rows[n..][m - n..] == rows[m..];
  }

  lemma {:induction false} NothingBuilt(rows: seq<int>)
    ensures Built(rows, [], 0)
  {
  }

  /** One more chunk. */
  lemma {:induction false} BuiltMore(rows: seq<int>, rs: seq<Range>, n: nat, m: nat)
    requires Increasing(rows) && Built(rows, rs, n) && n < m <= |rows|
    ensures rows[n] <= rows[m - 1] && (rs != [] ==> rs[|rs| - 1].second < rows[n])
    ensures Built(rows, rs + [Range(rows[n], rows[m - 1])], m)
  {
    hide Sorted, Covers;
    var r := Range(rows[n], rows[m - 1]);
    var all := rs + [r];
    assert rows[n] <= rows[m - 1] && (rs != [] ==> rs[|rs| - 1].second < rows[n]);
    assert Sorted(all) by {
      EmptySorted();
      Glued(rs, r, []);
      assert rs + [r] + [] == all;
    }
    assert all[|all| - 1] == r && all[0].first == rows[0];
    forall j | 0 <= j < m ensures Covers(all, rows[j]) {
      ChunkCovers(rows, rs, r, n, m, j);
    }
    forall i | 0 <= i < |all| ensures all[i].first in rows && all[i].second in rows {
      assert i < |rs| ==> all[i] == rs[i];
    }
  }

  lemma {:induction false} ChunkCovers(rows: seq<int>, rs: seq<Range>, r: Range, n: nat, m: nat, j: nat)
    requires Increasing(rows) && n < m <= |rows| && j < m && r == Range(rows[n], rows[m - 1]) && (j < n ==> Covers(rs, rows[j]))
    ensures Covers(rs + [r], rows[j])
  {
    hide Covers;
    CoversConcat(rs, [r], rows[j]);
    CoversOne(r, rows[j]);
    if j >= n {
      assert rows[n] <= rows[j] <= rows[m - 1];
    }
  }

  // ---------------------------------------------------------------- the deletion task

  datatype Result = Success | Fail | Invalid

  /** What one attempt meets: its result and the time it took, in microseconds. */
  datatype Outcome = Outcome(result: Result, chunkTime: nat)

  function Successes(outcomes: seq<Outcome>): nat {
    if outcomes == [] then 0
    else Successes(outcomes[..|outcomes| - 1]) + if outcomes[|outcomes| - 1].result == Success then 1 else 0
  }

  lemma {:induction false} NoSuccesses(outcomes: seq<Outcome>)
    ensures Successes(outcomes[..0]) == 0
  {
  }

  lemma {:induction false} MoreSuccesses(outcomes: seq<Outcome>, i: nat)
    requires i < |outcomes|
    ensures Successes(outcomes[..i + 1]) == Successes(outcomes[..i]) + if outcomes[i].result == Success then 1 else 0
  {
    assert outcomes[..i + 1][..i] == outcomes[..i];
  }

  /** The size for the next range, from the time the last one took; a range with the id -1 says nothing. */
  function Adjusted(size: int, threshold: nat, chunkTime: nat, range: Range): (r: int)
    ensures size >= 0 ==> r >= 0
  {
    var t := chunkTime / 1000;
    if range.first == -1 || range.second == -1 || t == 0 then size
    else
      var n := size * threshold / t;
      if n > 100 then n else 100
  }

  /** In milliseconds. */
  function TimeTaken(chunkTime: nat): nat {
    chunkTime / 1000
  }

  /**
   The next size is to the size before as the time allowed is to the time taken, rounded down, and at
   least 100; without a time or a range the size stays.
   */
  lemma {:induction false} AdjustedInProportion(size: nat, threshold: nat, chunkTime: nat, range: Range)
    ensures var r, t := Adjusted(size, threshold, chunkTime, range), TimeTaken(chunkTime);
            if range.first == -1 || range.second == -1 || t == 0 then r == size
            else r >= 100 && size * threshold < (r + 1) * t && (r == 100 || r * t <= size * threshold)
  {
    var t := TimeTaken(chunkTime);
    if range.first != -1 && range.second != -1 && t != 0 {
      var n := size * threshold / t;
      DividedBy(size * threshold, t, n);
      if n < 100 {
        TimesMonotone(n + 1, 101, t);
      }
    }
  }

  lemma {:induction false} DividedBy(a: nat, t: nat, q: int)
    requires t > 0 && q == a / t
    ensures q >= 0 && q * t <= a < (q + 1) * t
  {
    assert a == q * t + a % t;
  }

  lemma {:induction false} TimesMonotone(a: int, b: int, t: nat)
    requires a <= b
    ensures a * t <= b * t && t * a <= t * b
  {
    assert (b - a) * t >= 0;
  }

  lemma {:induction false} Quotient(a: nat, t: nat, q: nat, p: nat)
    requires t > 0 && q * t <= a < (p + 1) * t
    ensures q <= p
  {
    if q > p {
      TimesMonotone(p + 1, q, t);
    }
  }

  /** A chunk that took longer is never followed by a larger size. */
  lemma {:induction false} SlowerIsSmaller(size: nat, threshold: nat, fast: nat, slow: nat, range: Range)
    requires TimeTaken(fast) > 0 && fast <= slow
    ensures Adjusted(size, threshold, slow, range) <= Adjusted(size, threshold, fast, range)
  {
    hide Adjusted;
    AdjustedInProportion(size, threshold, fast, range);
    AdjustedInProportion(size, threshold, slow, range);
    var r, q := Adjusted(size, threshold, slow, range), Adjusted(size, threshold, fast, range);
    if range.first != -1 && range.second != -1 && r != 100 {
      TimesMonotone(TimeTaken(fast), TimeTaken(slow), r);
      Quotient(size * threshold, TimeTaken(fast), r, q);
    }
  }

  /** A chunk over the time allowed does not grow a size above 100, and one within it does not shrink it. */
  lemma {:induction false} AdjustedTowardsThreshold(size: nat, threshold: nat, chunkTime: nat, range: Range)
    requires size >= 100
    ensures TimeTaken(chunkTime) >= threshold ==> Adjusted(size, threshold, chunkTime, range) <= size
    ensures TimeTaken(chunkTime) <= threshold ==> Adjusted(size, threshold, chunkTime, range) >= size
  {
    hide Adjusted;
    AdjustedInProportion(size, threshold, chunkTime, range);
    var r, t := Adjusted(size, threshold, chunkTime, range), TimeTaken(chunkTime);
    if range.first != -1 && range.second != -1 && t != 0 {
      if t >= threshold && r != 100 {
        TimesMonotone(threshold, t, size);
        TimesMonotone(size, size + 1, t);
        Quotient(size * threshold, t, r, size);
      }
      if t <= threshold {
        TimesMonotone(t, threshold, size);
        Quotient(size * t, t, size, r);
      }
    }
  }

  /** A row is still to be deleted: covered at or after the current range. */
  predicate Ahead(rs: seq<Range>, current: nat, x: int) {
    current < |rs| && rs[current].first <= x && Covers(rs, x)
  }

  /** What is ahead and beyond the current range is ahead of the next one. */
  lemma {:induction false} NextAhead(rs: seq<Range>, current: nat, x: int)
    requires Sorted(rs) && Ahead(rs, current, x) && rs[current].second < x
    ensures Ahead(rs, current + 1, x)
  {
    hide Sorted, Covers;
    BeyondFront(rs, current + 1, x);
    Rest(rs, current + 1);
    CoversWithin(rs[current + 1..], x);
  }

  /** Adjusting the list at a position loses no row ahead of it. */
  lemma {:induction false} AdjustedAhead(rs: seq<Range>, i: nat, size: int, x: int)
    requires Sorted(rs) && size >= 0 && Ahead(rs, i, x)
    ensures Ahead(Adapted(rs, i, size), i, x)
  {
    hide Sorted, Covers, Split, Merged;
    if rs[i].second - rs[i].first > size {
      SplitMeaning(rs, i, size);
    } else if rs[i].second - rs[i].first < size {
      MergeMeaning(rs, i, size);
      var r := Merged(rs, i, size);
      if x <= r[i].second {
        InsideCovered(r, i, x);
      }
    } else {
      MergedSame(rs, i, size);
    }
  }

  lemma {:induction false} MergedSame(rs: seq<Range>, i: nat, size: int)
    requires i < |rs| && rs[i].second - rs[i].first == size
    ensures Merged(rs, i, size) == rs
  {
  }

  /** The list after the range at `i` was split, or merged with those behind it, to come near a size. */
  function Adapted(rs: seq<Range>, i: nat, size: int): seq<Range> {
    if i < |rs| && rs[i].second - rs[i].first > size then Split(rs, i, size) else Merged(rs, i, size)
  }

  lemma {:induction false} AdaptedShape(rs: seq<Range>, i: nat, size: int)
    requires Sorted(rs) && size >= 0 && i < |rs|
    ensures var r := Adapted(rs, i, size);
            && Sorted(r) && i < |r| && r[..i] == rs[..i] && r[i].first == rs[i].first
            && r[|r| - 1].second == rs[|rs| - 1].second
  {
    hide Sorted, Covers, Split, Merged;
    if rs[i].second - rs[i].first > size {
      SplitMeaning(rs, i, size);
    } else if rs[i].second - rs[i].first < size {
      MergeMeaning(rs, i, size);
    } else {
      MergedSame(rs, i, size);
    }
  }

  lemma {:induction false} LastByEnd(rs: seq<Range>, i: nat)
    requires Sorted(rs) && i < |rs|
    ensures rs[i].second == rs[|rs| - 1].second <==> i == |rs| - 1
    ensures rs[i].first <= rs[i].second <= rs[|rs| - 1].second
  {
    assert i < |rs| - 1 ==> rs[i].second < rs[|rs| - 1].first;
  }

  lemma {:induction false} AdaptedCases(rs: seq<Range>, i: nat, size: int)
    requires i < |rs|
    ensures Adapted(rs, i, size) == if rs[i].second - rs[i].first > size then Split(rs, i, size) else Merged(rs, i, size)
  {
    hide Split, Merged;
  }

  /** Every row stays deleted or ahead when the current range is deleted and the next one adapted. */
  lemma {:induction false} StillCovered(rs: seq<Range>, current: nat, size: int, deleted: seq<Range>, rows: seq<int>)
    requires Sorted(rs) && size >= 0 && current + 1 < |rs|
    requires forall k :: 0 <= k < |rows| ==> Covers(deleted, rows[k]) || Ahead(rs, current, rows[k])
    ensures forall k :: 0 <= k < |rows| ==>
              Covers(deleted + [rs[current]], rows[k]) || Ahead(Adapted(rs, current + 1, size), current + 1, rows[k])
  {
    hide Sorted, Covers, Adapted, Ahead;
    forall k | 0 <= k < |rows|
      ensures Covers(deleted + [rs[current]], rows[k]) || Ahead(Adapted(rs, current + 1, size), current + 1, rows[k])
    {
      RowMoves(rs, current, size, deleted, rows[k]);
    }
  }

  lemma {:induction false} RowMoves(rs: seq<Range>, current: nat, size: int, deleted: seq<Range>, x: int)
    requires Sorted(rs) && size >= 0 && current + 1 < |rs| && (Covers(deleted, x) || Ahead(rs, current, x))
    ensures Covers(deleted + [rs[current]], x) || Ahead(Adapted(rs, current + 1, size), current + 1, x)
  {
    hide Sorted, Covers, Adapted;
    CoversConcat(deleted, [rs[current]], x);
    CoversOne(rs[current], x);
    if !Covers(deleted, x) && x > rs[current].second {
      NextAhead(rs, current, x);
      AdjustedAhead(rs, current + 1, size, x);
    }
  }

  lemma {:induction false} LastCovered(rs: seq<Range>, current: nat, deleted: seq<Range>, rows: seq<int>)
    requires Sorted(rs) && current == |rs| - 1
    requires forall k :: 0 <= k < |rows| ==> Covers(deleted, rows[k]) || Ahead(rs, current, rows[k])
    ensures forall k :: 0 <= k < |rows| ==> Covers(deleted + [rs[current]], rows[k])
  {
    hide Sorted, Covers;
    forall k | 0 <= k < |rows| ensures Covers(deleted + [rs[current]], rows[k]) {
      CoversConcat(deleted, [rs[current]], rows[k]);
      CoversOne(rs[current], rows[k]);
      if !Covers(deleted, rows[k]) {
        CoversWithin(rs, rows[k]);
      }
    }
  }

  class VBucketDeletionCallback {
    var list: VBDeletionChunkRangeList
    var current: nat
    var chunkDelRangeSize: int
    const threshold: nat
    var finished: bool
    ghost const rows: seq<int>
    ghost var deleted: seq<Range>

    /** Every row is deleted or ahead; deleted ranges are increasing and disjoint and lie before what is ahead. */
    ghost predicate Valid()
      reads this, list
    {
      && Sorted(list.ranges) && Sorted(deleted) && chunkDelRangeSize >= 0
      && (list.ranges == [] ==> rows == [] && current == 0) && (list.ranges != [] ==> current < |list.ranges|)
      && (!finished && list.ranges != [] && deleted != [] ==> deleted[|deleted| - 1].second < list.ranges[current].first)
      && (forall k :: 0 <= k < |rows| ==>
            Covers(deleted, rows[k]) || (!finished && Ahead(list.ranges, current, rows[k])))
    }

    /** How much is left: the distance from the current start to the last end. */
    ghost function Left(): (n: nat)
      requires Valid()
      reads this, list
      ensures n == 0 <==> finished
    {
      if finished then 0
      else if list.ranges == [] then 1
      else
        LastByEnd(list.ranges, current);
        list.ranges[|list.ranges| - 1].second - list.ranges[current].first + 1
    }

    constructor (rows: seq<int>, chunkSize: nat, threshold: nat)
      requires Increasing(rows)
      ensures Valid() && !finished && deleted == [] && this.rows == rows && fresh(list)
      ensures Left() == if rows == [] then 1 else rows[|rows| - 1] - rows[0] + 1
      ensures list.ranges == Chunks(rows, chunkSize) && current == 0 && this.threshold == threshold
      ensures chunkDelRangeSize == if rows == [] then 100 else list.ranges[0].second - list.ranges[0].first
    {
      hide Sorted, Covers, Chunks;
      this.rows := rows;
      this.threshold := threshold;
      var ranges := CreateRangeList(rows, chunkSize);
      list := ranges;
      current := 0;
      finished := false;
      chunkDelRangeSize := if |ranges.ranges| > 0 then ranges.ranges[0].second - ranges.ranges[0].first else 100;
      deleted := [];
      assert Sorted([]) by { EmptySorted(); }
      if ranges.ranges != [] {
        LastByEnd(ranges.ranges, 0);
        forall k | 0 <= k < |rows| ensures Ahead(ranges.ranges, 0, rows[k]) {
          assert k > 0 ==> rows[0] < rows[k];
        }
      }
    }

    /** The current range is deleted: go to the next one and bring it near the size that fits the time taken. */
    method Advance(chunkTime: nat)
      requires Valid() && !finished && current + 1 < |list.ranges|
      modifies this`current, this`chunkDelRangeSize, this`deleted, list
      ensures Valid() && Left() < old(Left()) && current == old(current) + 1
      ensures deleted == old(deleted) + [old(list.ranges[current])]
      ensures chunkDelRangeSize == Adjusted(old(chunkDelRangeSize), threshold, chunkTime, old(list.ranges[current]))
      ensures list.ranges == Adapted(old(list.ranges), old(current) + 1, chunkDelRangeSize)
    {
      hide Sorted, Covers, Split, Merged, Adapted, Adjusted;
      ghost var rs := list.ranges;
      var range := list.ranges[current];
      chunkDelRangeSize := Adjusted(chunkDelRangeSize, threshold, chunkTime, range);
      LastByEnd(rs, current);
      assert range.second < rs[current + 1].first by { Front(rs, current + 1); }
      AdaptedShape(rs, current + 1, chunkDelRangeSize);
      StillCovered(rs, current, chunkDelRangeSize, deleted, rows);
      assert Sorted(deleted + [range]) by { EmptySorted(); Glued(deleted, range, []); assert deleted + [range] + [] == deleted + [range]; }
      deleted := deleted + [range];
      current := current + 1;
      AdaptedCases(rs, current, chunkDelRangeSize);
      if list.ranges[current].second - list.ranges[current].first > chunkDelRangeSize {
        list.SplitChunkRange(current, chunkDelRangeSize);
      } else {
        list.MergeChunkRanges(current, chunkDelRangeSize);
      }
    }

    /** The last range is deleted, or there was none. */
    method Finish()
      requires Valid() && !finished && (list.ranges == [] || current == |list.ranges| - 1)
      modifies this`finished, this`deleted
      ensures Valid() && finished
      ensures deleted == if list.ranges == [] then old(deleted) else old(deleted) + [list.ranges[current]]
      ensures forall k :: 0 <= k < |rows| ==> Covers(deleted, rows[k])
    {
      hide Sorted, Covers;
      if list.ranges != [] {
        var range := list.ranges[current];
        LastByEnd(list.ranges, current);
        LastCovered(list.ranges, current, deleted, rows);
        assert Sorted(deleted + [range]) by { EmptySorted(); Glued(deleted, range, []); assert deleted + [range] + [] == deleted + [range]; }
        deleted := deleted + [range];
      }
      finished := true;
    }

    /** One attempt to delete the current range; whether to come back. */
    method Callback(o: Outcome) returns (again: bool, range: Range, isLastChunk: bool)
      requires Valid() && !finished
      modifies this, list
      ensures Valid() && list == old(list)
      ensures range == if old(list.ranges) == [] then Range(-1, -1) else old(list.ranges[current])
      ensures isLastChunk <==> old(list.ranges) == [] || old(current) == |old(list.ranges)| - 1
      ensures o.result != Success ==>
                deleted == old(deleted) && !finished && again == (o.result == Fail)
      ensures o.result != Success || isLastChunk ==>
                list.ranges == old(list.ranges) && current == old(current) && chunkDelRangeSize == old(chunkDelRangeSize)
      ensures o.result == Success ==>
                again == !isLastChunk && finished == isLastChunk && Left() < old(Left())
                && deleted == if old(list.ranges) == [] then old(deleted) else old(deleted) + [range]
      ensures finished ==> forall k :: 0 <= k < |rows| ==> Covers(deleted, rows[k])
      ensures o.result == Success && !isLastChunk ==>
                && chunkDelRangeSize == Adjusted(old(chunkDelRangeSize), threshold, o.chunkTime, range)
                && current == old(current) + 1
                && list.ranges == Adapted(old(list.ranges), old(current) + 1, chunkDelRangeSize)
    {
      hide Sorted, Covers, Adapted, Adjusted, Ahead;
      again, isLastChunk := false, false;
      if current == |list.ranges| {
        range, isLastChunk := Range(-1, -1), true;
      } else {
        LastByEnd(list.ranges, current);
        if list.ranges[current].second == list.ranges[|list.ranges| - 1].second {
          isLastChunk := true;
        }
        range := list.ranges[current];
      }
      match o.result
      case Success =>
        if !isLastChunk {
          Advance(o.chunkTime);
          again := true;
        } else {
          Finish();
        }
      case Fail =>
        again := true;
      case Invalid =>
    }

    /**
     Any number of attempts with any outcomes: the task either is not done yet, or every row was
     deleted; every success deletes one more range; and the number of successes never exceeds the
     distance between the first and the last row.
     */
    method Attempts(outcomes: seq<Outcome>) returns (successes: nat, attempts: nat)
      requires Valid() && !finished
      modifies this, list
      ensures Valid() && Sorted(deleted) && successes + Left() <= old(Left())
      ensures attempts <= |outcomes| && successes == Successes(outcomes[..attempts]) && old(deleted) <= deleted
      ensures |deleted| == |old(deleted)| + if old(list.ranges) == [] then 0 else successes
      ensures attempts < |outcomes| ==> finished || (attempts > 0 && outcomes[attempts - 1].result == Invalid)
      ensures forall i :: 0 <= i < attempts - 1 ==> outcomes[i].result != Invalid
      ensures finished ==> attempts > 0 && outcomes[attempts - 1].result == Success
      ensures finished ==> forall k :: 0 <= k < |rows| ==> Covers(deleted, rows[k])
    {
      hide Sorted, Covers, Adapted, Adjusted, Ahead, Successes;
      successes, attempts := 0, 0;
      assert successes == Successes(outcomes[..attempts]) by { NoSuccesses(outcomes); }
      var again := true;
      while again && attempts < |outcomes|
        invariant attempts <= |outcomes| && Valid() && list == old(list) && (again ==> !finished)
        invariant successes + Left() <= old(Left()) && (list.ranges == [] <==> old(list.ranges) == [])
        invariant successes == Successes(outcomes[..attempts]) && old(deleted) <= deleted
        invariant |deleted| == |old(deleted)| + if old(list.ranges) == [] then 0 else successes
        invariant !again ==> finished || (attempts > 0 && outcomes[attempts - 1].result == Invalid)
        invariant finished ==> attempts > 0 && outcomes[attempts - 1].result == Success
        invariant forall i :: 0 <= i < (if again then attempts else attempts - 1) ==> outcomes[i].result != Invalid
        invariant finished ==> forall k :: 0 <= k < |rows| ==> Covers(deleted, rows[k])
      {
        var range, isLast;
        again, range, isLast := Callback(outcomes[attempts]);
        MoreSuccesses(outcomes, attempts);
        if outcomes[attempts].result == Success {
          successes := successes + 1;
        }
        attempts := attempts + 1;
      }
    }
  }
}
