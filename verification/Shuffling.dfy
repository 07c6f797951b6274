/**
 The reversible shuffle of a context's tracks (connect/src/shuffle_vec.rs).

 The random draws are a parameter: draw `k` picks a position for index `n - 1 - k`.
 */
module Shuffling {
  import opened Prelude

  function Swap<T>(s: seq<T>, i: nat, j: nat): (r: seq<T>)
    requires i < |s| && j < |s|
    ensures |r| == |s|
  {
    s[i := s[j]][j := s[i]]
  }

  /** One draw per index from the last down to 1, each at or below its index. */
  predicate ValidDraws(draws: seq<nat>, n: nat) {
    n >= 1 && |draws| == n - 1 && forall k :: 0 <= k < |draws| ==> draws[k] <= n - 1 - k
  }

  /** The sequence after the first `k` swaps of the shuffle. */
  function Shuffled<T>(s: seq<T>, draws: seq<nat>, k: nat): (r: seq<T>)
    requires ValidDraws(draws, |s|) && k <= |draws|
    ensures |r| == |s|
  {
    if k == 0 then s else Swap(Shuffled(s, draws, k - 1), |s| - k, draws[k - 1])
  }

  /** `iter().position(..)`. */
  function Position<T>(s: seq<T>, p: T -> bool): (r: Option<nat>)
    ensures r.Some? ==> r.value < |s| && p(s[r.value]) && forall i :: 0 <= i < r.value ==> !p(s[i])
    ensures r.None? ==> forall i :: 0 <= i < |s| ==> !p(s[i])
  {
    if s == [] then None
    else if p(s[0]) then Some(0)
    else match Position(s[1..], p)
      case None => None
      case Some(i) => Some(i + 1)
  }

  function ToFront<T>(s: seq<T>, first: Option<nat>): (r: seq<T>)
    requires first.Some? ==> first.value < |s|
    ensures |r| == |s|
  {
    if first.Some? then Swap(s, 0, first.value) else s
  }

  datatype Vec<T> = Vec(items: seq<T>, indices: Option<seq<nat>>, first: Option<nat>)

  /** `v` holds the shuffle of `original` that its indices and first position describe. */
  ghost predicate Represents<T>(v: Vec<T>, original: seq<T>) {
    match v.indices
    case None => v.items == original && v.first.None?
    case Some(draws) =>
      && |original| >= 2 && ValidDraws(draws, |original|)
      && (v.first.Some? ==> v.first.value < |original|)
      && v.items == ToFront(Shuffled(original, draws, |draws|), v.first)
  }

  // ---- The operations as functions

  /** The loop of `unshuffle` from index `i` on; a missing draw ends it. */
  function Undo<T>(s: seq<T>, draws: seq<nat>, i: nat): (r: seq<T>)
    requires 1 <= i && forall k :: 0 <= k < |draws| && k < |s| ==> draws[k] < |s|
    ensures |r| == |s|
    decreases |s| - i
  {
    if i >= |s| || |s| - i - 1 >= |draws| then s else Undo(Swap(s, draws[|s| - i - 1], i), draws, i + 1)
  }

  /** What `Vec::swap` demands of the recorded positions. */
  predicate InBounds<T>(v: Vec<T>) {
    v.indices.Some? ==>
      && (v.first.Some? ==> v.first.value < |v.items|)
      && (forall k :: 0 <= k < |v.indices.value| ==> v.indices.value[k] < |v.items|)
  }

  function Unshuffle<T>(v: Vec<T>): Vec<T>
    requires InBounds(v)
  {
    if v.indices.None? then v
    else Vec(Undo(ToFront(v.items, v.first), v.indices.value, 1), None, None)
  }

  function Shuffle<T>(v: Vec<T>, draws: seq<nat>, isFirst: T -> bool): Vec<T>
    requires InBounds(v) && (|v.items| >= 2 ==> ValidDraws(draws, |v.items|))
  {
    if |v.items| <= 1 then v
    else
      var plain := Shuffled(Unshuffle(v).items, draws, |draws|);
      var first := Position(plain, isFirst);
      Vec(ToFront(plain, first), Some(draws), first)
  }

  // ---- Unshuffling undoes every swap

  lemma SwapTwice<T>(s: seq<T>, i: nat, j: nat)
    requires i < |s| && j < |s|
    ensures Swap(Swap(s, i, j), j, i) == s && Swap(Swap(s, i, j), i, j) == s
  {
  }

  /** After undoing the swaps of indices below `i`, the later ones are left. */
  lemma {:induction false} UndoShuffled<T>(s: seq<T>, draws: seq<nat>, i: nat)
    requires ValidDraws(draws, |s|) && 1 <= i <= |s|
    ensures Undo(Shuffled(s, draws, |s| - i), draws, i) == s
    decreases |s| - i
  {
    if i < |s| {
      var k := |s| - i;
      SwapTwice(Shuffled(s, draws, k - 1), i, draws[k - 1]);
      UndoShuffled(s, draws, i + 1);
    }
  }

  lemma RepresentsInBounds<T>(v: Vec<T>, original: seq<T>)
    requires Represents(v, original)
    ensures InBounds(v) && |v.items| == |original|
  {
  }

  /** Main result: unshuffling restores the original order exactly. */
  lemma UnshuffleRestores<T>(v: Vec<T>, original: seq<T>)
    requires Represents(v, original)
    ensures InBounds(v) && Unshuffle(v) == Vec(original, None, None)
  {
    RepresentsInBounds(v, original);
    if v.indices.Some? {
      var draws := v.indices.value;
      var plain := Shuffled(original, draws, |draws|);
      if v.first.Some? { SwapTwice(plain, 0, v.first.value); }
      assert ToFront(v.items, v.first) == plain;
      UndoShuffled(original, draws, 1);
    }
  }

  lemma ShuffleRepresents<T>(v: Vec<T>, original: seq<T>, draws: seq<nat>, isFirst: T -> bool)
    requires Represents(v, original) && (|original| >= 2 ==> ValidDraws(draws, |original|))
    ensures InBounds(v) && |v.items| == |original| && Represents(Shuffle(v, draws, isFirst), original)
  {
    RepresentsInBounds(v, original);
    UnshuffleRestores(v, original);
  }

  // ---- Every run

  datatype Operation<!T> = DoShuffle(draws: seq<nat>, isFirst: T -> bool) | DoUnshuffle

  predicate Usable<T>(op: Operation<T>, n: nat) {
    op.DoShuffle? && n >= 2 ==> ValidDraws(op.draws, n)
  }

  function Apply<T>(v: Vec<T>, op: Operation<T>): (r: Vec<T>)
    requires InBounds(v) && Usable(op, |v.items|)
  {
    match op
    case DoShuffle(draws, isFirst) => Shuffle(v, draws, isFirst)
    case DoUnshuffle => Unshuffle(v)
  }

  /** The vector after a run; every operation must be usable at its turn. */
  ghost predicate Reaches<T(!new)>(original: seq<T>, ops: seq<Operation<T>>, v: Vec<T>)
    decreases |ops|
  {
    if ops == [] then v == Vec(original, None, None)
    else exists u: Vec<T> ::
      && Reaches(original, ops[..|ops| - 1], u)
      && InBounds(u) && Usable(ops[|ops| - 1], |u.items|) && v == Apply(u, ops[|ops| - 1])
  }

  lemma {:induction false} RunRepresents<T(!new)>(original: seq<T>, ops: seq<Operation<T>>, v: Vec<T>)
    requires Reaches(original, ops, v)
    ensures Represents(v, original)
    decreases |ops|
  {
    hide Represents;
    if ops == [] {
      FreshRepresents(original);
    } else {
      var last := ops[|ops| - 1];
      var u: Vec<T> :| Reaches(original, ops[..|ops| - 1], u) && InBounds(u) && Usable(last, |u.items|) &&
                       v == Apply(u, last);
      RunRepresents(original, ops[..|ops| - 1], u);
      RepresentsInBounds(u, original);
      match last
      case DoShuffle(draws, isFirst) => ShuffleRepresents(u, original, draws, isFirst);
      case DoUnshuffle =>
        UnshuffleRestores(u, original);
        FreshRepresents(original);
    }
  }

  lemma FreshRepresents<T>(original: seq<T>)
    ensures Represents(Vec(original, None, None), original)
  {
  }

  lemma SwapIsPermutation<T>(s: seq<T>, i: nat, j: nat)
    requires i < |s| && j < |s|
    ensures multiset(Swap(s, i, j)) == multiset(s)
  {
  }

  lemma {:induction false} ShuffledIsPermutation<T>(s: seq<T>, draws: seq<nat>, k: nat)
    requires ValidDraws(draws, |s|) && k <= |draws|
    ensures multiset(Shuffled(s, draws, k)) == multiset(s)
  {
    hide Swap;
    if k > 0 {
      ShuffledIsPermutation(s, draws, k - 1);
      SwapIsPermutation(Shuffled(s, draws, k - 1), |s| - k, draws[k - 1]);
    }
  }

  /**
   Main result, for every run of shuffles and unshuffles: the items are a permutation of the
   original, unshuffling now restores it, and shuffling now equals shuffling the original.
   */
  lemma EveryRun<T(!new)>(original: seq<T>, ops: seq<Operation<T>>, v: Vec<T>, draws: seq<nat>, isFirst: T -> bool)
    requires Reaches(original, ops, v) && (|original| >= 2 ==> ValidDraws(draws, |original|))
    ensures multiset(v.items) == multiset(original)
    ensures InBounds(v) && Unshuffle(v).items == original
    ensures |v.items| == |original|
    ensures Shuffle(v, draws, isFirst).items == Shuffle(Vec(original, None, None), draws, isFirst).items
  {
    RunRepresents(original, ops, v);
    UnshuffleRestores(v, original);
    RepresentsInBounds(v, original);
    if v.indices.Some? {
      var used := v.indices.value;
      var plain := Shuffled(original, used, |used|);
      ShuffledIsPermutation(original, used, |used|);
      if v.first.Some? { SwapIsPermutation(plain, 0, v.first.value); }
    }
  }

  /** Main result: a shuffle puts a matching element in front, if there is one. */
  lemma MatchComesFirst<T>(original: seq<T>, draws: seq<nat>, isFirst: T -> bool, t: T)
    requires |original| >= 2 && ValidDraws(draws, |original|) && t in original && isFirst(t)
    ensures isFirst(Shuffle(Vec(original, None, None), draws, isFirst).items[0])
  {
    ShuffledIsPermutation(original, draws, |draws|);
    hide Shuffled;
    var plain := Shuffled(original, draws, |draws|);
    assert t in multiset(plain);
  }

  /** It differs from the shuffle without preference by at most one transposition. */
  lemma OneTransposition<T>(original: seq<T>, draws: seq<nat>, isFirst: T -> bool)
    requires |original| >= 2 && ValidDraws(draws, |original|)
    ensures var with := Shuffle(Vec(original, None, None), draws, isFirst).items;
            var without := Shuffle(Vec(original, None, None), draws, (t: T) => false).items;
            with == without || exists j :: 0 < j < |original| && with == Swap(without, 0, j)
  {
    hide Shuffled;
    var plain := Shuffled(original, draws, |draws|);
    var first := Position(plain, isFirst);
    if first.Some? && first.value == 0 { assert Swap(plain, 0, 0) == plain; }
  }

  // ---- Every order can come up

  lemma {:induction false} SameDraws<T>(s: seq<T>, a: seq<nat>, b: seq<nat>, k: nat)
    requires ValidDraws(a, |s|) && ValidDraws(b, |s|) && k <= |a| && a[..k] == b[..k]
    ensures Shuffled(s, a, k) == Shuffled(s, b, k)
  {
    if k > 0 {
      assert a[..k - 1] == a[..k][..k - 1] && b[..k - 1] == b[..k][..k - 1];
      assert a[k - 1] == a[..k][k - 1] && b[k - 1] == b[..k][k - 1];
      SameDraws(s, a, b, k - 1);
    }
  }

  lemma CancelSuffix<T>(a: seq<T>, b: seq<T>, c: seq<T>)
    requires multiset(a + c) == multiset(b + c)
    ensures multiset(a) == multiset(b)
  {
    var x, y, z := multiset(a), multiset(b), multiset(c);
    assert x + z == multiset(a + c) && y + z == multiset(b + c);
    assert (x + z) - z == x && (y + z) - z == y;
  }

  /** Where the next element of the target still is. */
  lemma StillInFront<T>(cur: seq<T>, target: seq<T>, n: nat) returns (j: nat)
    requires 0 < n <= |cur| == |target| && multiset(cur) == multiset(target) && cur[n..] == target[n..]
    ensures j < n && cur[j] == target[n - 1] && multiset(cur[..n]) == multiset(target[..n])
  {
    assert cur == cur[..n] + cur[n..] && target == target[..n] + target[n..];
    CancelSuffix(cur[..n], target[..n], cur[n..]);
    assert target[..n][n - 1] == target[n - 1];
    assert target[n - 1] in multiset(cur[..n]);
    j :| 0 <= j < n && cur[..n][j] == target[n - 1];
  }

  /** The first `k` draws can put the last `k` elements of any order in place. */
  lemma {:induction false} ChooseDraws<T>(s: seq<T>, target: seq<T>, k: nat) returns (draws: seq<nat>)
    requires |s| == |target| && k < |s| && multiset(s) == multiset(target)
    ensures ValidDraws(draws, |s|) && Shuffled(s, draws, k)[|s| - k..] == target[|s| - k..]
  {
    if k == 0 {
      draws := NoDraws(s, target);
    } else {
      hide Shuffled, ValidDraws;
      var before := ChooseDraws(s, target, k - 1);
      draws := ChooseOne(s, target, before, k - 1);
    }
  }

  lemma NoDraws<T>(s: seq<T>, target: seq<T>) returns (draws: seq<nat>)
    requires |s| == |target| > 0
    ensures ValidDraws(draws, |s|) && Shuffled(s, draws, 0)[|s|..] == target[|s|..]
  {
    draws := seq(|s| - 1, i => 0);
  }

  lemma ChooseOne<T>(s: seq<T>, target: seq<T>, before: seq<nat>, k: nat) returns (draws: seq<nat>)
    requires |s| == |target| && k + 1 < |s| && multiset(s) == multiset(target)
    requires ValidDraws(before, |s|) && Shuffled(s, before, k)[|s| - k..] == target[|s| - k..]
    ensures ValidDraws(draws, |s|) && Shuffled(s, draws, k + 1)[|s| - k - 1..] == target[|s| - k - 1..]
  {
    hide Shuffled, Swap;
    ShuffledIsPermutation(s, before, k);
    var cur := Shuffled(s, before, k);
    var j := StillInFront(cur, target, |s| - k);
    DrawReplaced(s, before, k, j);
    SwapPlaces(cur, target, |s| - k, j);
    draws := before[k := j];
  }

  lemma DrawReplaced<T>(s: seq<T>, draws: seq<nat>, k: nat, j: nat)
    requires ValidDraws(draws, |s|) && k < |draws| && j <= |s| - 1 - k
    ensures ValidDraws(draws[k := j], |s|)
    ensures Shuffled(s, draws[k := j], k + 1) == Swap(Shuffled(s, draws, k), |s| - k - 1, j)
  {
    hide Swap;
    assert draws[k := j][..k] == draws[..k];
    SameDraws(s, draws[k := j], draws, k);
  }

  lemma SwapPlaces<T>(cur: seq<T>, target: seq<T>, n: nat, j: nat)
    requires 0 < n <= |cur| == |target| && j < n && cur[j] == target[n - 1] && cur[n..] == target[n..]
    ensures Swap(cur, n - 1, j)[n - 1..] == target[n - 1..]
  {
    forall i | n - 1 <= i < |cur|
      ensures Swap(cur, n - 1, j)[i] == target[i]
    {
      if i >= n { assert cur[i] == cur[n..][i - n] && target[i] == target[n..][i - n]; }
    }
  }

  /** Main result: for every reordering of the items there are draws that shuffle them into it. */
  lemma EveryOrderIsReachable<T>(s: seq<T>, target: seq<T>) returns (draws: seq<nat>)
    requires |s| >= 2 && multiset(s) == multiset(target)
    ensures ValidDraws(draws, |s|) && Shuffle(Vec(s, None, None), draws, (t: T) => false).items == target
  {
    assert |s| == |multiset(s)| && |target| == |multiset(target)|;
    draws := ChooseDraws(s, target, |s| - 1);
    NoneToFront(s, draws);
    hide Shuffled, Shuffle;
    ShuffledIsPermutation(s, draws, |s| - 1);
    LastFollows(Shuffled(s, draws, |s| - 1), target);
  }

  /** When all items but the first are in place, so is the first. */
  lemma LastFollows<T>(cur: seq<T>, target: seq<T>)
    requires |cur| == |target| > 0 && multiset(cur) == multiset(target) && cur[1..] == target[1..]
    ensures cur == target
  {
    var j := StillInFront(cur, target, 1);
    assert cur == [cur[0]] + cur[1..] && target == [target[0]] + target[1..];
  }

  lemma NoneToFront<T>(s: seq<T>, draws: seq<nat>)
    requires |s| >= 2 && ValidDraws(draws, |s|)
    ensures Shuffle(Vec(s, None, None), draws, (t: T) => false).items == Shuffled(s, draws, |s| - 1)
  {
    hide Shuffled;
    NoneFirst(Shuffled(s, draws, |s| - 1));
  }

  lemma NoneFirst<T>(s: seq<T>)
    ensures Position(s, (t: T) => false) == None
  {
  }

  // ---- Appending breaks the inverse

  /** With tracks appended after the shuffle, the swaps are not undone at all. */
  lemma AppendedIsNotUndone<T>(v: Vec<T>, original: seq<T>, extra: seq<T>)
    requires Represents(v, original) && v.indices.Some? && extra != []
    ensures InBounds(v.(items := v.items + extra))
    ensures Unshuffle(v.(items := v.items + extra)).items ==
            Shuffled(original, v.indices.value, |v.indices.value|) + extra
  {
    hide Shuffled, ToFront, Swap;
    var draws := v.indices.value;
    var plain := Shuffled(original, draws, |draws|);
    FrontOfLonger(plain, v.first, extra);
    UndoStopsEarly(plain + extra, draws);
    hide Undo;
    var longer := v.(items := v.items + extra);
    assert ToFront(longer.items, longer.first) == plain + extra;
    assert Unshuffle(longer).items == Undo(plain + extra, draws, 1);
  }

  lemma UndoStopsEarly<T>(s: seq<T>, draws: seq<nat>)
    requires |s| >= 2 + |draws| && forall k :: 0 <= k < |draws| ==> draws[k] < |s|
    ensures Undo(s, draws, 1) == s
  {
  }

  /** So the original order comes back exactly when nothing was appended or nothing had moved. */
  lemma UnshuffleAfterAppend<T>(v: Vec<T>, original: seq<T>, extra: seq<T>)
    requires Represents(v, original) && v.indices.Some?
    ensures InBounds(v.(items := v.items + extra))
    ensures Unshuffle(v.(items := v.items + extra)).items == original + extra
            <==> extra == [] || Shuffled(original, v.indices.value, |v.indices.value|) == original
  {
    if extra == [] {
      assert v.items + extra == v.items && original + extra == original;
      UnshuffleRestores(v, original);
    } else {
      AppendedIsNotUndone(v, original, extra);
      hide Shuffled, ToFront, Undo;
      SameFront(Shuffled(original, v.indices.value, |v.indices.value|), original, extra);
    }
  }

  /** Two tracks are shuffled, a third is appended: the first two stay swapped. */
  lemma AppendBreaksUnshuffle()
    ensures var v := Shuffle(Vec([1, 2], None, None), [0], (n: int) => false);
            Represents(v, [1, 2]) && InBounds(v.(items := v.items + [3])) &&
            Unshuffle(v.(items := v.items + [3])).items == [2, 1, 3]
  {
    var draws: seq<nat> := [0];
    assert ValidDraws(draws, 2);
    FreshRepresents([1, 2]);
    ShuffleRepresents(Vec([1, 2], None, None), [1, 2], draws, (n: int) => false);
    var v := Shuffle(Vec([1, 2], None, None), draws, (n: int) => false);
    AppendedIsNotUndone(v, [1, 2], [3]);
    assert Shuffled([1, 2], draws, 0) == [1, 2];
    assert Shuffled([1, 2], draws, 1) == Swap([1, 2], 1, 0) == [2, 1];
  }

  lemma FrontOfLonger<T>(plain: seq<T>, first: Option<nat>, extra: seq<T>)
    requires first.Some? ==> first.value < |plain|
    ensures ToFront(ToFront(plain, first) + extra, first) == plain + extra
  {
  }

  lemma SameFront<T>(a: seq<T>, b: seq<T>, extra: seq<T>)
    requires |a| == |b|
    ensures a + extra == b + extra <==> a == b
  {
    assert (a + extra)[..|a|] == a && (b + extra)[..|b|] == b;
  }

  /** The vector as an object: in-place swaps, with the draws remembered. */
  class ShuffleVec<T> {
    var items: seq<T>
    var indices: Option<seq<nat>>
    var first: Option<nat>

    function View(): Vec<T> reads this { Vec(items, indices, first) }

    constructor (all: seq<T>)
      ensures View() == Vec(all, None, None)
    {
      items, indices, first := all, None, None;
    }

    method SwapItems(i: nat, j: nat)
      requires i < |items| && j < |items|
      modifies this`items
      ensures items == Swap(old(items), i, j)
    {
      items := items[i := items[j]][j := items[i]];
    }

    method ShuffleWithDraws(draws: seq<nat>, isFirst: T -> bool)
      requires InBounds(View()) && (|items| >= 2 ==> ValidDraws(draws, |items|))
      modifies this
      ensures View() == Shuffle(old(View()), draws, isFirst)
    {
      hide Swap;
      if |items| <= 1 { return; }
      if indices.Some? { UnshuffleItems(); }
      ghost var start := items;
      for k := 0 to |draws|
        invariant |items| == |start| && items == Shuffled(start, draws, k)
        invariant indices.None?
      {
        SwapItems(|items| - 1 - k, draws[k]);
      }
      indices := Some(draws);
      first := FindFirst(isFirst);
      if first.Some? { SwapItems(0, first.value); }
    }

    method FindFirst(p: T -> bool) returns (r: Option<nat>)
      ensures r == Position(items, p)
      ensures r.Some? ==> r.value < |items| && p(items[r.value]) && forall i :: 0 <= i < r.value ==> !p(items[i])
      ensures r.None? ==> forall i :: 0 <= i < |items| ==> !p(items[i])
    {
      assert items[0..] == items;
      for i := 0 to |items|
        invariant Position(items, p) == match Position(items[i..], p) case None => None case Some(k) => Some(i + k)
      {
        if p(items[i]) { return Some(i); }
        assert items[i..][1..] == items[i + 1..];
      }
      return None;
    }

    method UnshuffleItems()
      requires InBounds(View())
      modifies this
      ensures View() == Unshuffle(old(View()))
    {
      hide Swap;
      if indices.None? { return; }
      var draws := indices.value;
      indices := None;
      if first.Some? {
        SwapItems(0, first.value);
        first := None;
      }
      ghost var start := items;
      var i := 1;
      while i < |items|
        invariant 1 <= i && |items| == |start| && indices.None? && first.None?
        invariant Undo(items, draws, i) == Undo(start, draws, 1)
      {
        if |items| - i - 1 >= |draws| { return; }
        SwapItems(draws[|items| - i - 1], i);
        i := i + 1;
      }
    }
  }
}
