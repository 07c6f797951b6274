/** Joining sequences: shared by the page, packet and chunk models. */
module Sequences {

  function Concat<T>(ss: seq<seq<T>>): seq<T> {
    if ss == [] then [] else Concat(ss[..|ss| - 1]) + ss[|ss| - 1]
  }

  lemma {:induction false} ConcatAppend<T>(a: seq<seq<T>>, b: seq<seq<T>>)
    ensures Concat(a + b) == Concat(a) + Concat(b)
  {
    if b == [] {
      assert a + b == a;
    } else {
      var n := |b| - 1;
      ConcatAppend(a, b[..n]);
      assert (a + b)[..|a + b| - 1] == a + b[..n];
      assert Concat(a + b) == Concat(a + b[..n]) + b[n];
      hide Concat;
      assert (Concat(a) + Concat(b[..n])) + b[n] == Concat(a) + (Concat(b[..n]) + b[n]);
    }
  }

  lemma ConcatOne<T>(s: seq<T>)
    ensures Concat([s]) == s
  {
    assert [s][..0] == [];
  }

  lemma ConcatSnoc<T>(a: seq<seq<T>>, s: seq<T>)
    ensures Concat(a + [s]) == Concat(a) + s
  {
    assert (a + [s])[..|a|] == a;
  }

  lemma ConcatCons<T>(s: seq<T>, b: seq<seq<T>>)
    ensures Concat([s] + b) == s + Concat(b)
  {
    ConcatAppend([s], b);
    ConcatOne(s);
  }
}
