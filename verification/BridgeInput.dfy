/**
 From standard input to the clients (native/bridge/bridge.rs:18-34, 138-276): the producer thread
 splits the input into pages, and the loop receives them one at a time, when they are ready.
 */
module BridgeInput {
  import opened Prelude
  import opened Sequences
  import opened OggPages
  import opened VorbisHeaders
  import opened BridgeLoop
  import opened BridgeSafety

  /** What the environment decides in one iteration; what arrives is up to the producer. */
  datatype Move = Move(marker: Option<string>, accepted: Accepted, ready: bool, clock: Clock, written: Written)

  /** The producer's next item, when `count` pages have been received. */
  function NextItem(feed: Feed, count: nat, ready: bool): Arrival {
    if !ready then Timeout
    else if count < |feed.pages| then Arrived(feed.pages[count])
    else if feed.end.EndOfInput? then EndOfStream
    else ReadFailed
  }

  function TickOf(feed: Feed, count: nat, m: Move): Tick {
    Tick(m.marker, m.accepted, NextItem(feed, count, m.ready), m.clock, m.written)
  }

  /** The ticks of a run that is fed by the producer. */
  function Feeding(paced: bool, feed: Feed, moves: seq<Move>): seq<Tick> {
    if moves == [] then []
    else
      var before := Feeding(paced, feed, moves[..|moves| - 1]);
      before + [TickOf(feed, |Run(paced, before).state.taken|, moves[|moves| - 1])]
  }

  /** An iteration takes at most the page that arrived. */
  lemma StepTakes(s: State, paced: bool, t: Tick)
    requires s.Sane()
    ensures var r := Step(s, paced, t).state;
            r.taken == s.taken || (t.arrival.Arrived? && r.taken == s.taken + [t.arrival.page])
  {
    hide Observe, HeaderPages, MayStart, Granule, IsPage;
    var accepted := Accept(ReadMarker(s, t.marker), t.accepted);
    assert accepted.taken == s.taken;
    hide Accept, ReadMarker;
    var received := Receive(accepted, t.arrival).state;
    assert received.taken == accepted.taken
        || (t.arrival.Arrived? && received.taken == accepted.taken + [t.arrival.page]);
    hide Receive, Deliver;
    DeliverTakesNothing(received, paced, t.clock, t.written);
  }

  lemma DeliverTakesNothing(s: State, paced: bool, clock: Clock, w: Written)
    requires s.Sane()
    ensures Deliver(s, paced, clock, w).taken == s.taken
  {
    hide MayStart, Granule, IsPage;
  }

  /** Main result: in every run fed by the producer, the loop has taken the first pages of the input. */
  lemma {:induction false} TakesInput(paced: bool, feed: Feed, moves: seq<Move>)
    ensures Run(paced, Feeding(paced, feed, moves)).state.taken <= feed.pages
  {
    hide Step;
    if moves != [] {
      var before := Feeding(paced, feed, moves[..|moves| - 1]);
      TakesInput(paced, feed, moves[..|moves| - 1]);
      var s := Run(paced, before).state;
      var t := TickOf(feed, |s.taken|, moves[|moves| - 1]);
      assert (before + [t])[..|before|] == before;
      if Run(paced, before).Running? { StepTakes(s, paced, t); }
    }
  }

  /** The bytes stand together somewhere in the whole. */
  ghost predicate PartOfInput(bytes: seq<byte>, whole: seq<byte>) {
    exists k :: 0 <= k <= |whole| && bytes <= whole[k..]
  }

  lemma MiddlePart(a: seq<byte>, b: seq<byte>, c: seq<byte>, bytes: seq<byte>)
    requires bytes <= b
    ensures PartOfInput(bytes, a + b + c)
  {
    var whole := a + b + c;
    assert whole[|a|..] == b + c;
  }

  /** Consecutive pages that were taken stand together in the input. */
  lemma SliceIsPart(input: seq<byte>, taken: seq<Page>, from: nat, count: nat, bytes: seq<byte>)
    requires taken <= Split(input).pages && from + count <= |taken| && bytes <= Concat(Slice(taken, from, count))
    ensures PartOfInput(bytes, input)
  {
    hide Split, Concat, IsPage, PartOfInput;
    var pages: seq<seq<byte>> := Split(input).pages;
    SplitIsLossless(input);
    var front, middle, back := pages[..from], pages[from..from + count], pages[from + count..];
    assert pages == front + middle + back;
    ConcatAppend(front + middle, back);
    ConcatAppend(front, middle);
    assert middle == Slice(taken, from, count);
    var rest := Split(input).rest;
    assert Concat(front) + Concat(middle) + (Concat(back) + rest) == input;
    MiddlePart(Concat(front), Concat(middle), Concat(back) + rest, bytes);
  }

  /** Main result: the headers replayed to a client and what it is streamed are contiguous parts of the input. */
  lemma StreamsInput(paced: bool, input: seq<byte>, moves: seq<Move>, c: Connection)
    requires c in Run(paced, Feeding(paced, Split(input), moves)).state.Connections()
    ensures PartOfInput(c.replay, input) && PartOfInput(c.streamed, input)
  {
    hide Run, Feeding, Split, Concat, IsPage, PartOfInput, IsStream, PacketCount;
    var ticks := Feeding(paced, Split(input), moves);
    TakesInput(paced, Split(input), moves);
    ServesOneStream(paced, ticks);
    var taken := Run(paced, ticks).state.taken;
    SliceIsPart(input, taken, c.origin, c.replayed, c.replay);
    if c.streamed == [] {
      SliceIsPart(input, taken, c.origin, c.replayed, c.streamed);
    } else if c.streamed == Concat(Slice(taken, c.first, c.sent)) {
      SliceIsPart(input, taken, c.first, c.sent, c.streamed);
    } else {
      SliceSnoc(taken, c.first, c.sent);
      SliceIsPart(input, taken, c.first, c.sent + 1, c.streamed);
    }
  }
}
