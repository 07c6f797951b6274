/**
 Sets of byte positions kept as a sorted list of ranges (audio/src/range_set.rs).

 A `RangeSet` stores disjoint, non-touching, non-empty ranges in ascending order.
 Every operation is specified by the finite set of positions that the list denotes.
 */
module RangeSets {

  datatype Range = Range(start: nat, length: nat) {
    function End(): nat { start + length }
  }

  /** The positions lo, lo+1, ..., hi-1. */
  ghost function Interval(lo: nat, hi: nat): set<nat> {
    set v: nat | lo <= v < hi && Between(lo, v, hi)
  }

  ghost predicate Between(lo: nat, v: nat, hi: nat) { lo <= v < hi }

  ghost function Positions(r: Range): set<nat> {
    Interval(r.start, r.End())
  }

  /** Sorted, non-empty and separated by at least one missing position. */
  ghost predicate Canonical(rs: seq<Range>) {
    && (forall i :: 0 <= i < |rs| ==> rs[i].length > 0)
    && (forall i, j :: 0 <= i < j < |rs| ==> rs[i].End() < rs[j].start)
  }

  /** The set that a list of ranges denotes. */
  ghost function Elements(rs: seq<Range>): set<nat> {
    if rs == [] then {} else Elements(rs[..|rs| - 1]) + Positions(rs[|rs| - 1])
  }

  ghost predicate Covers(rs: seq<Range>, v: nat) {
    exists i :: 0 <= i < |rs| && rs[i].start <= v < rs[i].End()
  }

  lemma {:induction false} ElementsMember(rs: seq<Range>)
    ensures forall v :: v in Elements(rs) <==> Covers(rs, v)
  {
    if rs != [] {
      var n := |rs| - 1;
      ElementsMember(rs[..n]);
      forall v: nat
        ensures Covers(rs, v) <==> Covers(rs[..n], v) || v in Positions(rs[n])
      {
        if Covers(rs[..n], v) {
          var i :| 0 <= i < n && rs[..n][i].start <= v < rs[..n][i].End();
          assert rs[i].start <= v < rs[i].End();
        }
        if Covers(rs, v) {
          var i :| 0 <= i < |rs| && rs[i].start <= v < rs[i].End();
          if i < n { assert rs[..n][i] == rs[i]; }
        }
      }
    }
  }

  lemma {:induction false} ElementsConcat(a: seq<Range>, b: seq<Range>)
    ensures Elements(a + b) == Elements(a) + Elements(b)
  {
    if b == [] {
      assert a + b == a;
    } else {
      var n := |b| - 1;
      ElementsConcat(a, b[..n]);
      assert (a + b)[..|a + b| - 1] == a + b[..n];
    }
  }

  lemma ElementsNone()
    ensures Elements([]) == {}
  {
  }

  lemma ElementsSingle(r: Range)
    ensures Elements([r]) == Positions(r)
  {
    assert [r][..0] == [];
  }

  /** Replacing the middle part of a list replaces its part of the set. */
  lemma ElementsSplice(a: seq<Range>, b: seq<Range>, c: seq<Range>)
    ensures Elements(a + b + c) == Elements(a) + Elements(b) + Elements(c)
  {
    ElementsConcat(a + b, c);
    ElementsConcat(a, b);
  }

  lemma ElementsTake(rs: seq<Range>, k: nat)
    requires k < |rs|
    ensures Elements(rs[..k + 1]) == Elements(rs[..k]) + Positions(rs[k])
  {
    assert rs[..k + 1] == rs[..k] + [rs[k]];
    ElementsConcat(rs[..k], [rs[k]]);
    ElementsSingle(rs[k]);
  }

  /** Every element of a canonical list lies at or after the start of its first range. */
  lemma ElementsFromFirst(rs: seq<Range>)
    requires Canonical(rs) && rs != []
    ensures Elements(rs) == Positions(rs[0]) + Elements(rs[1..])
    ensures forall v :: v in Elements(rs[1..]) ==> rs[0].End() < v
    ensures Canonical(rs[1..])
  {
    assert rs == [rs[0]] + rs[1..];
    ElementsConcat([rs[0]], rs[1..]);
    ElementsSingle(rs[0]);
    ElementsMember(rs[1..]);
  }

  lemma IntervalSize(lo: nat, hi: nat)
    requires lo <= hi
    ensures |Interval(lo, hi)| == hi - lo
    decreases hi - lo
  {
    if lo < hi {
      assert Interval(lo, hi) == {lo} + Interval(lo + 1, hi);
      IntervalSize(lo + 1, hi);
    } else {
      assert Interval(lo, hi) == {};
    }
  }

  /** The number that `len` adds up. */
  function TotalLength(rs: seq<Range>): nat {
    if rs == [] then 0 else TotalLength(rs[..|rs| - 1]) + rs[|rs| - 1].length
  }

  /** `len` counts the positions: no position is stored twice. */
  lemma {:induction false} TotalLengthIsCardinality(rs: seq<Range>)
    requires Canonical(rs)
    ensures TotalLength(rs) == |Elements(rs)|
  {
    if rs == [] {
      assert Elements(rs) == {};
    } else {
      var k := |rs| - 1;
      TotalLengthIsCardinality(rs[..k]);
      ElementsTake(rs, k);
      assert rs[..k + 1] == rs;
      ElementsMember(rs[..k]);
      assert Elements(rs[..k]) !! Positions(rs[k]);
      IntervalSize(rs[k].start, rs[k].End());
    }
  }

  /** A set has only one canonical list of ranges. */
  lemma {:induction false} CanonicalIsUnique(a: seq<Range>, b: seq<Range>)
    requires Canonical(a) && Canonical(b)
    requires Elements(a) == Elements(b)
    ensures a == b
  {
    if a == [] || b == [] {
      ElementsMember(a);
      ElementsMember(b);
      assert a != [] ==> Covers(a, a[0].start);
      assert b != [] ==> Covers(b, b[0].start);
    } else {
      ElementsFromFirst(a);
      ElementsFromFirst(b);
      FirstRangeAgrees(a, b);
      forall v
        ensures v in Elements(a[1..]) <==> v in Elements(b[1..])
      {
        assert v in Elements(a) <==> v in Elements(b);
      }
      assert Elements(a[1..]) == Elements(b[1..]);
      CanonicalIsUnique(a[1..], b[1..]);
    }
  }

  /** The first range starts at the least element and runs up to the first gap. */
  lemma FirstRangeAgrees(a: seq<Range>, b: seq<Range>)
    requires Canonical(a) && Canonical(b) && a != [] && b != []
    requires Elements(a) == Elements(b)
    ensures a[0] == b[0]
  {
    ElementsFromFirst(a);
    ElementsFromFirst(b);
    hide Elements, Canonical;
    assert a[0].start in Elements(b) && b[0].start in Elements(a);
    assert a[0].start == b[0].start;
    assert a[0].End() !in Elements(a) && b[0].End() !in Elements(b);
    assert a[0].End() in Positions(b[0]) <==> a[0].End() < b[0].End();
    assert b[0].End() in Positions(a[0]) <==> b[0].End() < a[0].End();
  }

  /** How many consecutive positions starting at `value` belong to the list. */
  ghost predicate RunLength(rs: seq<Range>, value: nat, n: nat) {
    && Interval(value, value + n) <= Elements(rs)
    && value + n !in Elements(rs)
  }

  /** There is only one such number. */
  lemma RunLengthIsUnique(rs: seq<Range>, value: nat, m: nat, n: nat)
    requires RunLength(rs, value, m) && RunLength(rs, value, n)
    ensures m == n
  {
    assert value + m in Interval(value, value + n) <==> m < n;
    assert value + n in Interval(value, value + m) <==> n < m;
  }

  lemma Gap(rs: seq<Range>, i: nat, j: nat)
    requires Canonical(rs) && i < j < |rs|
    ensures rs[i].length > 0 && rs[j].length > 0 && rs[i].End() < rs[j].start
  {
  }

  /** Two canonical lists can be joined when there is a gap between them. */
  lemma CanonicalConcat(a: seq<Range>, b: seq<Range>)
    requires Canonical(a) && Canonical(b)
    requires a != [] && b != [] ==> a[|a| - 1].End() < b[0].start
    ensures Canonical(a + b)
  {
    var c := a + b;
    forall i, j | 0 <= i < j < |c|
      ensures c[i].End() < c[j].start
    {
      if i < |a| <= j {
        assert a[i].End() <= a[|a| - 1].End() by {
          if i < |a| - 1 { assert a[i].End() < a[|a| - 1].start; }
        }
        assert b[0].start <= b[j - |a|].start by {
          if j > |a| { assert b[0].End() < b[j - |a|].start; }
        }
      }
    }
  }

  /** The list with the ranges from `i` up to `k` replaced by `r` stays canonical. */
  lemma CanonicalSplice(rs: seq<Range>, i: nat, r: Range, k: nat)
    requires Canonical(rs) && i <= k <= |rs| && r.length > 0
    requires i > 0 ==> rs[i - 1].End() < r.start
    requires k < |rs| ==> r.End() < rs[k].start
    ensures Canonical(rs[..i] + [r] + rs[k..])
  {
    var a, c := rs[..i], rs[k..];
    CanonicalConcat(a, [r]);
    CanonicalConcat(a + [r], c);
  }

  lemma CanonicalCut(rs: seq<Range>, i: nat, k: nat)
    requires Canonical(rs) && i <= k <= |rs|
    ensures Canonical(rs[..i] + rs[k..])
  {
    CanonicalConcat(rs[..i], rs[k..]);
  }

  class RangeSet {
    var ranges: seq<Range>

    ghost predicate Valid() reads this { Canonical(ranges) }

    ghost function Set(): set<nat> reads this { Elements(ranges) }

    constructor ()
      ensures Valid() && Set() == {}
    {
      ranges := [];
    }

    constructor Clone(other: RangeSet)
      ensures ranges == other.ranges
    {
      ranges := other.ranges;
    }

    method IsEmpty() returns (r: bool)
      requires Valid()
      ensures r <==> Set() == {}
    {
      r := |ranges| == 0;
      ElementsMember(ranges);
      assert !r ==> Covers(ranges, ranges[0].start);
    }

    method Len() returns (n: nat)
      requires Valid()
      ensures n == |Set()|
    {
      n := 0;
      for i := 0 to |ranges|
        invariant n == TotalLength(ranges[..i])
      {
        assert ranges[..i + 1][..i] == ranges[..i];
        n := n + ranges[i].length;
      }
      assert ranges[..|ranges|] == ranges;
      TotalLengthIsCardinality(ranges);
    }

    method Contains(value: nat) returns (r: bool)
      requires Valid()
      ensures r <==> value in Set()
    {
      ElementsMember(ranges);
      for i := 0 to |ranges|
        invariant forall j :: 0 <= j < i ==> ranges[j].End() <= value
      {
        if value < ranges[i].start {
          return false;
        } else if ranges[i].start <= value < ranges[i].End() {
          return true;
        }
      }
      return false;
    }

    method ContainedLengthFromValue(value: nat) returns (n: nat)
      requires Valid()
      ensures RunLength(ranges, value, n)
    {
      ElementsMember(ranges);
      for i := 0 to |ranges|
        invariant forall j :: 0 <= j < i ==> ranges[j].End() <= value
      {
        if value < ranges[i].start {
          return 0;
        } else if ranges[i].start <= value < ranges[i].End() {
          n := ranges[i].End() - value;
          forall v | v in Interval(value, value + n)
            ensures Covers(ranges, v)
          {
            assert ranges[i].start <= v < ranges[i].End();
          }
          assert forall j :: 0 <= j < i ==> ranges[j].End() < ranges[i].start;
          return;
        }
      }
      return 0;
    }

    method ContainsRangeSet(other: RangeSet) returns (r: bool)
      requires Valid() && other.Valid()
      ensures r <==> other.Set() <= Set()
    {
      for i := 0 to |other.ranges|
        invariant Elements(other.ranges[..i]) <= Set()
      {
        var range := other.ranges[i];
        var n := ContainedLengthFromValue(range.start);
        if n < range.length {
          assert range.start <= range.start + n < range.End();
          ElementsMember(other.ranges);
          assert Covers(other.ranges, range.start + n);
          return false;
        }
        ElementsTake(other.ranges, i);
        assert Positions(range) <= Interval(range.start, range.start + n);
      }
      assert other.ranges[..|other.ranges|] == other.ranges;
      return true;
    }

    method AddRange(range: Range)
      requires Valid()
      modifies this
      ensures Valid() && Set() == old(Set()) + Positions(range)
    {
      if range.length == 0 {
        assert Positions(range) == {};
        return;
      }
      hide Elements, Canonical;
      ElementsNone();
      ghost var was := ranges;
      for index := 0 to |ranges|
        invariant ranges == was
        invariant index > 0 ==> was[index - 1].End() < range.start
      {
        if range.End() < ranges[index].start {
          assert was[index..index] == [];
          ranges := ranges[..index] + [range] + ranges[index..];
          Inserted(was, index, range, index, range);
          return;
        } else if range.start <= ranges[index].End() && ranges[index].start <= range.End() {
          MergeAt(index, range);
          return;
        }
      }
      assert was[|was|..|was|] == [];
      ranges := ranges + [range];
      Inserted(was, |was|, range, |was|, range);
      assert ranges == was[..|was|] + [range] + was[|was|..];
    }

    /** The merging branch of `add_range`: swallows every range that the new one reaches. */
    method MergeAt(index: nat, range: Range)
      requires Valid() && index < |ranges| && range.length > 0
      requires index > 0 ==> ranges[index - 1].End() < range.start
      requires range.start <= ranges[index].End() && ranges[index].start <= range.End()
      modifies this
      ensures Valid() && Set() == old(Set()) + Positions(range)
    {
      hide Elements, Canonical, Positions;
      ElementsNone();
      ghost var was, k := ranges, index;
      var newRange := range;
      assert was[index..index] == [];
      while index < |ranges| && ranges[index].start <= newRange.End()
        invariant index <= k <= |was|
        invariant ranges == was[..index] + was[k..]
        invariant Merging(was, index, k, range, newRange)
        decreases |was| - k
      {
        assert ranges[index] == was[k];
        MergeStep(was, index, k, range, newRange);
        RemoveAt(was, index, k);
        var newEnd := if newRange.End() < ranges[index].End() then ranges[index].End() else newRange.End();
        var newStart := if ranges[index].start < newRange.start then ranges[index].start else newRange.start;
        newRange := Range(newStart, newEnd - newStart);
        ranges := ranges[..index] + ranges[index + 1..];
        k := k + 1;
      }
      InsertAt(was, index, k, newRange);
      Inserted(was, index, newRange, k, range);
      ranges := ranges[..index] + [newRange] + ranges[index..];
    }

    method AddRangeSet(other: RangeSet)
      requires Valid() && other.Valid() && other != this
      modifies this
      ensures Valid() && Set() == old(Set()) + other.Set()
    {
      for i := 0 to |other.ranges|
        invariant Valid()
        invariant Set() == old(Set()) + Elements(other.ranges[..i])
      {
        ElementsTake(other.ranges, i);
        AddRange(other.ranges[i]);
      }
      assert other.ranges[..|other.ranges|] == other.ranges;
    }

    method Union(other: RangeSet) returns (result: RangeSet)
      requires Valid() && other.Valid()
      ensures fresh(result) && result.Valid() && result.Set() == Set() + other.Set()
    {
      result := new RangeSet.Clone(this);
      result.AddRangeSet(other);
    }

    method SubtractRange(range: Range)
      requires Valid()
      modifies this
      ensures Valid() && Set() == old(Set()) - Positions(range)
    {
      if range.length == 0 {
        assert Positions(range) == {};
        return;
      }
      hide Elements, Canonical, Positions;
      var count := |ranges|;
      for index := 0 to count
        invariant |ranges| == count && Valid()
        invariant index > 0 ==> ranges[index - 1].End() <= range.start
        invariant Set() - Positions(range) == old(Set()) - Positions(range)
      {
        if range.End() <= ranges[index].start {
          RemovedWhole(ranges, index, index, range);
          assert ranges[..index] + ranges[index..] == ranges;
          return;
        } else if range.start <= ranges[index].start && ranges[index].start < range.End() {
          RemoveAtFront(index, range);
          return;
        } else if range.End() < ranges[index].End() {
          PunchHole(index, range);
          return;
        } else if range.start < ranges[index].End() {
          TruncateAt(index, range);
        }
      }
      AllBefore(ranges, count, range);
      assert ranges[..count] == ranges;
    }

    /** The branch of `subtract_range` that cuts off the end of the current range. */
    method TruncateAt(index: nat, range: Range)
      requires Valid() && index < |ranges|
      requires index > 0 ==> ranges[index - 1].End() <= range.start
      requires ranges[index].start < range.start < ranges[index].End() <= range.End()
      modifies this
      ensures Valid() && |ranges| == |old(ranges)|
      ensures ranges[index] == Range(old(ranges)[index].start, range.start - old(ranges)[index].start)
      ensures forall i :: 0 <= i < |ranges| && i != index ==> ranges[i] == old(ranges)[i]
      ensures Set() - Positions(range) == old(Set()) - Positions(range)
    {
      hide Elements, Canonical, Positions;
      var kept := Range(ranges[index].start, range.start - ranges[index].start);
      UpdateAt(ranges, index, kept);
      Truncated(ranges, index, range, kept);
      ranges := ranges[index := kept];
    }

    /** The branch of `subtract_range` for a range strictly inside the current one. */
    method PunchHole(index: nat, range: Range)
      requires Valid() && index < |ranges| && range.length > 0
      requires index > 0 ==> ranges[index - 1].End() <= range.start
      requires ranges[index].start < range.start && range.End() < ranges[index].End()
      modifies this
      ensures Valid() && Set() == old(Set()) - Positions(range)
    {
      hide Elements, Canonical;
      var first := Range(ranges[index].start, range.start - ranges[index].start);
      var second := Range(range.End(), ranges[index].length - (range.End() - ranges[index].start));
      PunchAt(ranges, index, first, second);
      Punched(ranges, index, range, first, second);
      ranges := ranges[index := second];
      ranges := ranges[..index] + [first] + ranges[index..];
    }

    /** The branch of `subtract_range` for a range that starts at or before the current one. */
    method RemoveAtFront(index: nat, range: Range)
      requires Valid() && index < |ranges| && range.length > 0
      requires index > 0 ==> ranges[index - 1].End() <= range.start
      requires range.start <= ranges[index].start < range.End()
      modifies this
      ensures Valid() && Set() == old(Set()) - Positions(range)
    {
      hide Elements, Canonical;
      ghost var was, k := ranges, index;
      while index < |ranges| && ranges[index].End() <= range.End()
        invariant index <= k <= |was|
        invariant ranges == was[..index] + was[k..]
        invariant forall i :: index <= i < k ==> was[i].End() <= range.End()
        decreases |was| - k
      {
        assert ranges[index] == was[k];
        RemoveAt(was, index, k);
        ranges := ranges[..index] + ranges[index + 1..];
        k := k + 1;
      }
      assert k < |was| ==> ranges[index] == was[k];
      if index < |ranges| && ranges[index].start < range.End() {
        var cut := Range(range.End(), ranges[index].length - (range.End() - ranges[index].start));
        ReplaceAt(was, index, k, cut);
        RemovedFront(was, index, k, range, cut);
        ranges := ranges[index := cut];
      } else {
        RemovedWhole(was, index, k, range);
      }
    }

    method Intersection(other: RangeSet) returns (result: RangeSet)
      requires Valid() && other.Valid()
      ensures fresh(result) && result.Valid() && result.Set() == Set() * other.Set()
    {
      hide Elements, Canonical;
      result := new RangeSet();
      var i, j := 0, 0;
      ElementsNone();
      assert ranges[..0] == other.ranges[..0] == [];
      while i < |ranges| && j < |other.ranges|
        invariant i <= |ranges| && j <= |other.ranges|
        invariant fresh(result) && result.Valid()
        invariant result.Set() == Overlap(ranges, i, other.ranges, j)
        decreases |ranges| - i + |other.ranges| - j
      {
        var a, b := ranges[i], other.ranges[j];
        if a.End() <= b.End() { AdvanceLeft(ranges, i, other.ranges, j); }
        if b.End() <= a.End() { AdvanceRight(ranges, i, other.ranges, j); }
        if a.End() <= b.start {
          assert Positions(a) * Positions(b) == {};
          i := i + 1;
        } else if b.End() <= a.start {
          assert Positions(a) * Positions(b) == {};
          j := j + 1;
        } else {
          var newStart := if a.start < b.start then b.start else a.start;
          var newEnd := if a.End() < b.End() then a.End() else b.End();
          assert Interval(newStart, newEnd) == Positions(a) * Positions(b);
          result.AddRange(Range(newStart, newEnd - newStart));
          if a.End() <= b.End() {
            i := i + 1;
          } else {
            j := j + 1;
          }
        }
      }
      OverlapAtEnd(ranges, i, other.ranges, j);
    }

    method SubtractRangeSet(other: RangeSet)
      requires Valid() && other.Valid() && other != this
      modifies this
      ensures Valid() && Set() == old(Set()) - other.Set()
    {
      for i := 0 to |other.ranges|
        invariant Valid()
        invariant Set() == old(Set()) - Elements(other.ranges[..i])
      {
        ElementsTake(other.ranges, i);
        SubtractRange(other.ranges[i]);
      }
      assert other.ranges[..|other.ranges|] == other.ranges;
    }

    method Minus(other: RangeSet) returns (result: RangeSet)
      requires Valid() && other.Valid()
      ensures fresh(result) && result.Valid() && result.Set() == Set() - other.Set()
    {
      result := new RangeSet.Clone(this);
      result.SubtractRangeSet(other);
    }
  }

  /** `add_range` put `r`, the merge of `range` with the ranges i..k, in their place. */
  lemma Inserted(was: seq<Range>, i: nat, r: Range, k: nat, range: Range)
    requires Canonical(was) && i <= k <= |was| && r.length > 0
    requires i > 0 ==> was[i - 1].End() < r.start
    requires k < |was| ==> r.End() < was[k].start
    requires Positions(r) == Positions(range) + Elements(was[i..k])
    ensures Canonical(was[..i] + [r] + was[k..])
    ensures Elements(was[..i] + [r] + was[k..]) == Elements(was) + Positions(range)
  {
    hide Elements, Canonical;
    CanonicalSplice(was, i, r, k);
    ElementsSplice(was[..i], [r], was[k..]);
    ElementsSingle(r);
    ElementsSplice(was[..i], was[i..k], was[k..]);
    assert was == was[..i] + was[i..k] + was[k..];
  }

  /** `Vec::remove` at `i` when everything from `i` up to `k` is already gone. */
  lemma RemoveAt(rs: seq<Range>, i: nat, k: nat)
    requires i <= k < |rs|
    ensures var cur := rs[..i] + rs[k..]; cur[..i] + cur[i + 1..] == rs[..i] + rs[k + 1..]
  {
  }

  lemma InsertAt(rs: seq<Range>, i: nat, k: nat, r: Range)
    requires i <= k <= |rs|
    ensures var cur := rs[..i] + rs[k..]; cur[..i] + [r] + cur[i..] == rs[..i] + [r] + rs[k..]
  {
  }

  lemma UpdateAt(rs: seq<Range>, i: nat, r: Range)
    requires i < |rs|
    ensures rs[i := r] == rs[..i] + [r] + rs[i + 1..]
  {
  }

  lemma PunchAt(rs: seq<Range>, i: nat, first: Range, second: Range)
    requires i < |rs|
    ensures var cur := rs[i := second]; cur[..i] + [first] + cur[i..] == rs[..i] + [first, second] + rs[i + 1..]
  {
  }

  lemma ReplaceAt(rs: seq<Range>, i: nat, k: nat, r: Range)
    requires i <= k < |rs|
    ensures (rs[..i] + rs[k..])[i := r] == rs[..i] + [r] + rs[k + 1..]
  {
  }

  /** Two ranges that overlap or touch cover together what their hull covers. */
  lemma MergedPositions(a: Range, b: Range, hull: Range)
    requires a.start <= b.End() && b.start <= a.End()
    requires hull.start == if b.start < a.start then b.start else a.start
    requires hull.End() == if a.End() < b.End() then b.End() else a.End()
    ensures Positions(hull) == Positions(a) + Positions(b)
  {
  }

  lemma MiddleGrows(rs: seq<Range>, i: nat, k: nat)
    requires i <= k < |rs|
    ensures Elements(rs[i..k + 1]) == Elements(rs[i..k]) + Positions(rs[k])
  {
    assert rs[i..k + 1] == rs[i..k] + [rs[k]];
    ElementsConcat(rs[i..k], [rs[k]]);
    ElementsSingle(rs[k]);
  }

  /** A list whose last range ends before `range` starts shares nothing with it. */
  lemma AllBefore(rs: seq<Range>, i: nat, range: Range)
    requires Canonical(rs) && i <= |rs|
    requires i > 0 ==> rs[i - 1].End() <= range.start
    ensures Elements(rs[..i]) !! Positions(range)
  {
    ElementsMember(rs[..i]);
    forall j | 0 <= j < i
      ensures rs[..i][j].End() <= range.start
    {
      if j < i - 1 { assert rs[j].End() < rs[i - 1].start; }
    }
  }

  lemma AllAfter(rs: seq<Range>, k: nat, range: Range)
    requires Canonical(rs) && k <= |rs|
    requires k < |rs| ==> range.End() <= rs[k].start
    ensures Elements(rs[k..]) !! Positions(range)
  {
    ElementsMember(rs[k..]);
    forall j | 0 <= j < |rs| - k
      ensures range.End() <= rs[k..][j].start
    {
      if j > 0 { assert rs[k].End() < rs[k + j].start; }
    }
  }

  /** Only the middle part meets `range`, so only it has to change. */
  lemma SpliceMinus(rs: seq<Range>, i: nat, k: nat, range: Range, middle: seq<Range>)
    requires Canonical(rs) && i <= k <= |rs|
    requires i > 0 ==> rs[i - 1].End() <= range.start
    requires k < |rs| ==> range.End() <= rs[k].start
    requires Elements(middle) == Elements(rs[i..k]) - Positions(range)
    ensures Elements(rs[..i] + middle + rs[k..]) == Elements(rs) - Positions(range)
  {
    hide Elements, Canonical;
    AllBefore(rs, i, range);
    AllAfter(rs, k, range);
    ElementsSplice(rs[..i], middle, rs[k..]);
    ElementsSplice(rs[..i], rs[i..k], rs[k..]);
    assert rs == rs[..i] + rs[i..k] + rs[k..];
  }

  lemma InsideRange(rs: seq<Range>, i: nat, k: nat, range: Range)
    requires Canonical(rs) && i <= k <= |rs|
    requires i < |rs| ==> range.start <= rs[i].start || k == i
    requires forall j :: i <= j < k ==> rs[j].End() <= range.End()
    ensures Elements(rs[i..k]) <= Positions(range)
  {
    ElementsMember(rs[i..k]);
    forall j | 0 <= j < k - i
      ensures range.start <= rs[i..k][j].start && rs[i..k][j].End() <= range.End()
    {
      if j > 0 { assert rs[i].End() < rs[i + j].start; }
    }
  }

  lemma RemovedWhole(rs: seq<Range>, i: nat, k: nat, range: Range)
    requires Canonical(rs) && i <= k <= |rs|
    requires i > 0 ==> rs[i - 1].End() <= range.start
    requires i < |rs| ==> range.start <= rs[i].start || k == i
    requires forall j :: i <= j < k ==> rs[j].End() <= range.End()
    requires k < |rs| ==> range.End() <= rs[k].start
    ensures Canonical(rs[..i] + rs[k..])
    ensures Elements(rs[..i] + rs[k..]) == Elements(rs) - Positions(range)
  {
    hide Elements, Canonical;
    CanonicalCut(rs, i, k);
    InsideRange(rs, i, k, range);
    ElementsNone();
    SpliceMinus(rs, i, k, range, []);
    assert rs[..i] + [] + rs[k..] == rs[..i] + rs[k..];
  }

  lemma RemovedFront(rs: seq<Range>, i: nat, k: nat, range: Range, cut: Range)
    requires Canonical(rs) && i <= k < |rs|
    requires i > 0 ==> rs[i - 1].End() <= range.start
    requires range.length > 0 && range.start <= rs[i].start
    requires forall j :: i <= j < k ==> rs[j].End() <= range.End()
    requires rs[k].start < range.End() < rs[k].End()
    requires cut.start == range.End() && cut.End() == rs[k].End()
    ensures Canonical(rs[..i] + [cut] + rs[k + 1..])
    ensures Elements(rs[..i] + [cut] + rs[k + 1..]) == Elements(rs) - Positions(range)
  {
    hide Elements, Canonical, Positions;
    if i < k { Gap(rs, i, k); }
    if k + 1 < |rs| { Gap(rs, k, k + 1); }
    CanonicalSplice(rs, i, cut, k + 1);
    InsideRange(rs, i, k, range);
    MiddleGrows(rs, i, k);
    ElementsSingle(cut);
    CutPositions(rs[k], range, cut);
    SwallowedAndCut(Elements(rs[i..k]), Positions(rs[k]), Positions(range));
    SpliceMinus(rs, i, k + 1, range, [cut]);
  }

  lemma CutPositions(r: Range, range: Range, cut: Range)
    requires range.start <= r.start < range.End() < r.End()
    requires cut.start == range.End() && cut.End() == r.End()
    ensures Positions(cut) == Positions(r) - Positions(range)
  {
  }

  lemma SwallowedAndCut(a: set<nat>, b: set<nat>, p: set<nat>)
    requires a <= p
    ensures (a + b) - p == b - p
  {
  }

  /** `merged` is the range together with all of the list from `i` up to `k`. */
  ghost predicate Merging(rs: seq<Range>, i: nat, k: nat, range: Range, merged: Range)
    requires i <= k <= |rs|
  {
    && merged.start <= range.start && range.End() <= merged.End()
    && (i > 0 ==> rs[i - 1].End() < merged.start)
    && (if k == i then merged == range else merged.start <= rs[i].start)
    && Positions(merged) == Positions(range) + Elements(rs[i..k])
  }

  function Hull(a: Range, b: Range): Range {
    var start := if b.start < a.start then b.start else a.start;
    Range(start, (if a.End() < b.End() then b.End() else a.End()) - start)
  }

  lemma MergeStep(rs: seq<Range>, i: nat, k: nat, range: Range, merged: Range)
    requires Canonical(rs) && i <= k < |rs| && Merging(rs, i, k, range, merged)
    requires rs[k].start <= merged.End() && (k == i ==> merged.start <= rs[k].End())
    ensures Merging(rs, i, k + 1, range, Hull(merged, rs[k]))
  {
    if k > i { Gap(rs, i, k); }
    if i > 0 { Gap(rs, i - 1, k); }
    hide Elements, Canonical;
    MergedPositions(merged, rs[k], Hull(merged, rs[k]));
    MiddleGrows(rs, i, k);
  }

  lemma TruncatedIsCanonical(rs: seq<Range>, i: nat, kept: Range)
    requires Canonical(rs) && i < |rs| && kept.length > 0 && kept.start == rs[i].start && kept.End() <= rs[i].End()
    ensures Canonical(rs[..i] + [kept] + rs[i + 1..])
  {
    if i > 0 { Gap(rs, i - 1, i); }
    if i + 1 < |rs| { Gap(rs, i, i + 1); }
    hide Canonical;
    CanonicalSplice(rs, i, kept, i + 1);
  }

  lemma Truncated(rs: seq<Range>, i: nat, range: Range, kept: Range)
    requires Canonical(rs) && i < |rs|
    requires i > 0 ==> rs[i - 1].End() <= range.start
    requires rs[i].start < range.start < rs[i].End() <= range.End()
    requires kept.start == rs[i].start && kept.End() == range.start
    ensures Canonical(rs[..i] + [kept] + rs[i + 1..])
    ensures Elements(rs[..i] + [kept] + rs[i + 1..]) - Positions(range) == Elements(rs) - Positions(range)
  {
    hide Elements, Canonical;
    TruncatedIsCanonical(rs, i, kept);
    ElementsSplice(rs[..i], [kept], rs[i + 1..]);
    ElementsSingle(kept);
    ElementsSplice(rs[..i], [rs[i]], rs[i + 1..]);
    ElementsSingle(rs[i]);
    assert rs == rs[..i] + [rs[i]] + rs[i + 1..];
  }

  lemma PunchedIsCanonical(rs: seq<Range>, i: nat, first: Range, second: Range)
    requires Canonical(rs) && i < |rs|
    requires rs[i].start == first.start && second.End() == rs[i].End()
    requires first.length > 0 && second.length > 0 && first.End() < second.start
    ensures Canonical(rs[..i] + [first, second] + rs[i + 1..])
  {
    var a, b, c := rs[..i], [first, second], rs[i + 1..];
    CanonicalConcat(a, b);
    CanonicalConcat(a + b, c);
  }

  lemma Punched(rs: seq<Range>, i: nat, range: Range, first: Range, second: Range)
    requires Canonical(rs) && i < |rs| && range.length > 0
    requires i > 0 ==> rs[i - 1].End() <= range.start
    requires rs[i].start < range.start && range.End() < rs[i].End()
    requires first.start == rs[i].start && first.End() == range.start
    requires second.start == range.End() && second.End() == rs[i].End()
    ensures Canonical(rs[..i] + [first, second] + rs[i + 1..])
    ensures Elements(rs[..i] + [first, second] + rs[i + 1..]) == Elements(rs) - Positions(range)
  {
    hide Elements, Canonical;
    PunchedIsCanonical(rs, i, first, second);
    assert [first, second] == [first] + [second];
    ElementsConcat([first], [second]);
    ElementsSingle(first);
    ElementsSingle(second);
    assert rs[i..i + 1] == [rs[i]];
    ElementsSingle(rs[i]);
    if i + 1 < |rs| { Gap(rs, i, i + 1); }
    SpliceMinus(rs, i, i + 1, range, [first, second]);
  }

  /** What two lists share once the first `i` and `j` ranges have been worked off. */
  ghost function Overlap(a: seq<Range>, i: nat, b: seq<Range>, j: nat): set<nat>
    requires i <= |a| && j <= |b|
  {
    Elements(a[..i]) * Elements(b) + Elements(a) * Elements(b[..j])
  }

  /** A range that ends first meets nothing beyond the other current range. */
  lemma MeetsOnlyCurrent(r: Range, b: seq<Range>, j: nat)
    requires Canonical(b) && j < |b| && r.End() <= b[j].End()
    ensures Positions(r) * Elements(b) == Positions(r) * (Elements(b[..j]) + Positions(b[j]))
  {
    hide Elements, Canonical, Positions;
    if j + 1 < |b| { Gap(b, j, j + 1); }
    AllAfter(b, j + 1, r);
    ElementsTake(b, j);
    ElementsConcat(b[..j + 1], b[j + 1..]);
    assert b == b[..j + 1] + b[j + 1..];
    SharedRest(Positions(r), Elements(b[..j + 1]), Elements(b[j + 1..]));
  }

  lemma SharedRest(p: set<nat>, b: set<nat>, rest: set<nat>)
    requires rest !! p
    ensures p * (b + rest) == p * b
  {
  }

  lemma SharedStep(a: set<nat>, done: set<nat>, p: set<nat>, b: set<nat>, bDone: set<nat>, q: set<nat>)
    requires p <= a && p * b == p * (bDone + q)
    ensures (done + p) * b + a * bDone == done * b + a * bDone + p * q
  {
    assert forall v :: v in p && v in b <==> v in p * (bDone + q);
  }

  lemma AdvanceLeft(a: seq<Range>, i: nat, b: seq<Range>, j: nat)
    requires Canonical(a) && Canonical(b) && i < |a| && j < |b|
    requires a[i].End() <= b[j].End()
    ensures Overlap(a, i + 1, b, j) == Overlap(a, i, b, j) + Positions(a[i]) * Positions(b[j])
  {
    hide Elements, Canonical;
    MeetsOnlyCurrent(a[i], b, j);
    ElementsTake(a, i);
    InElements(a, i);
    SharedStep(Elements(a), Elements(a[..i]), Positions(a[i]), Elements(b), Elements(b[..j]), Positions(b[j]));
  }

  lemma AdvanceRight(a: seq<Range>, i: nat, b: seq<Range>, j: nat)
    requires Canonical(a) && Canonical(b) && i < |a| && j < |b|
    requires b[j].End() <= a[i].End()
    ensures Overlap(a, i, b, j + 1) == Overlap(a, i, b, j) + Positions(a[i]) * Positions(b[j])
  {
    hide Elements, Canonical, Positions;
    OverlapSymmetric(a, i, b, j);
    OverlapSymmetric(a, i, b, j + 1);
    AdvanceLeft(b, j, a, i);
    assert Positions(a[i]) * Positions(b[j]) == Positions(b[j]) * Positions(a[i]);
  }

  lemma OverlapSymmetric(a: seq<Range>, i: nat, b: seq<Range>, j: nat)
    requires i <= |a| && j <= |b|
    ensures Overlap(a, i, b, j) == Overlap(b, j, a, i)
  {
    hide Elements;
  }

  lemma OverlapAtEnd(a: seq<Range>, i: nat, b: seq<Range>, j: nat)
    requires i <= |a| && j <= |b| && (i == |a| || j == |b|)
    ensures Overlap(a, i, b, j) == Elements(a) * Elements(b)
  {
    hide Elements;
    ElementsConcat(a[..i], a[i..]);
    ElementsConcat(b[..j], b[j..]);
    assert a[..i] + a[i..] == a && b[..j] + b[j..] == b;
    assert i == |a| ==> a[..i] == a;
    assert j == |b| ==> b[..j] == b;
  }

  lemma InElements(rs: seq<Range>, i: nat)
    requires i < |rs|
    ensures Positions(rs[i]) <= Elements(rs)
  {
    hide Elements;
    ElementsTake(rs, i);
    ElementsConcat(rs[..i + 1], rs[i + 1..]);
    assert rs == rs[..i + 1] + rs[i + 1..];
  }
}
