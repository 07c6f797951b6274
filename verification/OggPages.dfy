/**
 Ogg page framing of the bridge's producer thread (native/bridge/bridge.rs, `page`).

 A page is the 27-byte header of section 6 of RFC 3533, its segment table and its body.
 */
module OggPages {
  import opened Prelude
  import opened Sequences

  const MAX_PAGE: nat := 27 + 255 + 255 * 255
  const CAPTURE: seq<byte> := [0x4f, 0x67, 0x67, 0x53]  // "OggS"

  function Sum(s: seq<byte>): nat {
    if s == [] then 0 else Sum(s[..|s| - 1]) + s[|s| - 1]
  }

  lemma {:induction false} SumBound(s: seq<byte>)
    ensures Sum(s) <= 255 * |s|
  {
    if s != [] { SumBound(s[..|s| - 1]); }
  }

  lemma SumTake(s: seq<byte>, k: nat)
    requires k < |s|
    ensures Sum(s[..k + 1]) == Sum(s[..k]) + s[k]
  {
    assert s[..k + 1][..k] == s[..k];
  }

  lemma {:induction false} SumMonotone(s: seq<byte>, k: nat)
    requires k <= |s|
    ensures Sum(s[..k]) <= Sum(s)
  {
    if k == |s| {
      assert s[..k] == s;
    } else {
      SumMonotone(s[..|s| - 1], k);
      assert s[..|s| - 1][..k] == s[..k];
    }
  }

  /** The number of entries in the segment table. */
  function TableSize(p: seq<byte>): nat
    requires |p| >= 27
  {
    p[26]
  }

  predicate IsPage(p: seq<byte>) {
    && |p| >= 27
    && p[..4] == CAPTURE && p[4] == 0
    && |p| >= 27 + TableSize(p)
    && |p| == 27 + TableSize(p) + Sum(p[27..27 + TableSize(p)])
  }

  const EMPTY_PAGE: seq<byte> := CAPTURE + [0, 0, 0, 0, 0, 0, 0, 0, 0, 0, 0, 0, 0, 0, 0, 0, 0, 0, 0, 0, 0, 0, 0]

  type Page = p: seq<byte> | IsPage(p) witness EMPTY_PAGE

  lemma PageSize(p: Page)
    ensures |p| <= MAX_PAGE == 65307
  {
    SumBound(p[27..27 + TableSize(p)]);
  }

  datatype PageResult = EndOfInput | Truncated | BadCapture | Page(page: Page)

  /** What one call of `page` yields on the bytes that are left. */
  function FirstPage(input: seq<byte>): (r: PageResult)
    ensures r.Page? ==> r.page <= input && |r.page| <= MAX_PAGE
  {
    if |input| == 0 then EndOfInput
    else if |input| < 27 then Truncated
    else if input[..4] != CAPTURE || input[4] != 0 then BadCapture
    else if |input| < 27 + TableSize(input) then Truncated
    else
      var size := 27 + TableSize(input) + Sum(input[27..27 + TableSize(input)]);
      if |input| < size then Truncated
      else
        assert input[..size][27..27 + TableSize(input)] == input[27..27 + TableSize(input)];
        PageSize(input[..size]);
        Page(input[..size])
  }

  /** The items the producer thread sends before it stops, and why it stops. */
  datatype Feed = Feed(pages: seq<Page>, end: PageResult, rest: seq<byte>)

  function Split(input: seq<byte>): (f: Feed)
    ensures !f.end.Page? && f.end == FirstPage(f.rest)
    decreases |input|
  {
    var first := FirstPage(input);
    if !first.Page? then Feed([], first, input)
    else
      var f := Split(input[|first.page|..]);
      Feed([first.page] + f.pages, f.end, f.rest)
  }

  lemma SplitNext(input: seq<byte>, p: Page, before: seq<Page>)
    requires FirstPage(input) == PageResult.Page(p)
    ensures var rest := Split(input[|p|..]);
            Split(input).(pages := before + Split(input).pages) == rest.(pages := before + [p] + rest.pages)
  {
    hide FirstPage;
    assert before + ([p] + Split(input[|p|..]).pages) == before + [p] + Split(input[|p|..]).pages;
  }

  lemma Rejoin(input: seq<byte>, p: seq<byte>, later: seq<seq<byte>>, rest: seq<byte>)
    requires p <= input && Concat(later) + rest == input[|p|..]
    ensures Concat([p] + later) + rest == input
  {
    ConcatCons(p, later);
    assert (p + Concat(later)) + rest == p + (Concat(later) + rest);
  }

  /** No byte is lost, added or reordered by the split. */
  lemma {:induction false} SplitIsLossless(input: seq<byte>)
    ensures Concat(Split(input).pages) + Split(input).rest == input
    decreases |input|
  {
    var first := FirstPage(input);
    if first.Page? {
      var later := input[|first.page|..];
      SplitIsLossless(later);
      Rejoin(input, first.page, Split(later).pages, Split(later).rest);
    }
  }

  /** A page is read back whole, whatever bytes follow it. */
  lemma FirstPageIs(p: Page, rest: seq<byte>)
    ensures FirstPage(p + rest) == Page(p)
  {
    var input := p + rest;
    assert input[..4] == p[..4];
    assert input[27..27 + TableSize(p)] == p[27..27 + TableSize(p)];
    assert input[..|p|] == p;
  }

  /** Each outcome, in terms of the bytes: nothing left, a wrong start, a whole page, or too little of one. */
  lemma FirstPageOutcome(input: seq<byte>)
    ensures FirstPage(input).EndOfInput? <==> input == []
    ensures FirstPage(input).BadCapture? <==>
            |input| >= 27 && !(input[0] == 'O' as int && input[1] == 'g' as int && input[2] == 'g' as int &&
                               input[3] == 'S' as int && input[4] == 0)
    ensures FirstPage(input).Page? <==> exists k :: 0 <= k <= |input| && IsPage(input[..k])
  {
    if |input| >= 27 {
      assert input[..4] == CAPTURE <==>
             input[0] == 0x4f && input[1] == 0x67 && input[2] == 0x67 && input[3] == 0x53;
    }
    if FirstPage(input).Page? {
      PrefixIsPage(input, FirstPage(input).page);
    }
    if k :| 0 <= k <= |input| && IsPage(input[..k]) {
      FirstPageIs(input[..k], input[k..]);
      hide IsPage, FirstPage;
      assert input == input[..k] + input[k..];
    }
  }

  lemma PrefixIsPage(input: seq<byte>, p: Page)
    requires p <= input
    ensures |p| <= |input| && IsPage(input[..|p|])
  {
    assert input[..|p|] == p;
  }

  /** Pages written one after the other are split exactly where they were joined. */
  lemma {:induction false} SplitInvertsConcat(ps: seq<Page>, tail: seq<byte>)
    requires !FirstPage(tail).Page?
    ensures Split(Concat(ps) + tail) == Feed(ps, FirstPage(tail), tail)
  {
    hide FirstPage, IsPage, Concat, Split;
    if ps == [] {
      SplitEnd(tail);
    } else {
      var p: seq<byte> := ps[0];
      var later := Concat(ps[1..]) + tail;
      SplitInvertsConcat(ps[1..], tail);
      FirstPageIs(ps[0], later);
      Peel(ps, tail);
      assert (p + later)[|p|..] == later;
      SplitStep(p + later, ps[0]);
    }
  }

  lemma SplitEnd(tail: seq<byte>)
    requires !FirstPage(tail).Page?
    ensures Split(tail) == Feed([], FirstPage(tail), tail) && Concat<byte>([]) + tail == tail
  {
    hide FirstPage;
  }

  lemma SplitStep(input: seq<byte>, p: Page)
    requires FirstPage(input) == Page(p)
    ensures var f := Split(input[|p|..]); Split(input) == Feed([p] + f.pages, f.end, f.rest)
  {
    hide FirstPage, IsPage;
  }

  lemma Peel(ss: seq<seq<byte>>, tail: seq<byte>)
    requires ss != []
    ensures Concat(ss) + tail == ss[0] + (Concat(ss[1..]) + tail)
  {
    assert ss == [ss[0]] + ss[1..];
    ConcatCons(ss[0], ss[1..]);
  }

  /** The producer: standard input, read page by page. */
  class Producer {
    var input: seq<byte>  // what has not been read yet

    constructor (bytes: seq<byte>)
      ensures input == bytes
    {
      input := bytes;
    }

    /** `read_exact`: fails when too few bytes are left. */
    method ReadExact(n: nat) returns (ok: bool, data: seq<byte>)
      modifies this
      ensures ok <==> n <= |old(input)|
      ensures ok ==> data == old(input)[..n] && input == old(input)[n..]
    {
      if |input| < n {
        return false, [];
      }
      ok, data := true, input[..n];
      input := input[n..];
    }

    method NextPage() returns (r: PageResult)
      modifies this
      ensures r == FirstPage(old(input))
      ensures r.Page? ==> input == old(input)[|r.page|..]
      ensures r == EndOfInput ==> input == old(input)
    {
      hide Sum;
      ghost var all := input;
      if |input| == 0 {
        return EndOfInput;
      }
      var ok, h := ReadExact(27);
      if !ok { return Truncated; }
      if h[..4] != CAPTURE || h[4] != 0 {
        assert h[..4] == all[..4];
        return BadCapture;
      }
      assert h[..4] == all[..4];
      var lacing, body;
      ok, lacing := ReadExact(TableSize(h));
      if !ok { return Truncated; }
      assert lacing == all[27..27 + TableSize(h)];
      ok, body := ReadExact(Sum(lacing));
      if !ok { return Truncated; }
      var p := h + lacing + body;
      assert p == all[..|p|];
      r := Page(p);
    }

    /** The thread's loop: sends every page and stops at the first other item. */
    method ReadAll() returns (pages: seq<Page>, end: PageResult)
      modifies this
      ensures pages == Split(old(input)).pages && end == Split(old(input)).end
    {
      pages := [];
      end := NextPage();
      ghost var left := old(input);
      while end.Page?
        invariant end == FirstPage(left)
        invariant end.Page? ==> input == left[|end.page|..]
        invariant Split(old(input)) == Split(left).(pages := pages + Split(left).pages)
        decreases |left|
      {
        SplitNext(left, end.page, pages);
        hide FirstPage;
        pages := pages + [end.page];
        left := input;
        end := NextPage();
      }
    }
  }
}
