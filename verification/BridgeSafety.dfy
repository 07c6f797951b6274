/**
 What every run of the bridge's loop keeps (native/bridge/bridge.rs:158-276).

 The main result, `ServesOneStream`, holds for every sequence of environment events. The
 invariant behind it is proved phase by phase: marker, accept, receive, deliver.
 */
module BridgeSafety {
  import opened Prelude
  import opened Sequences
  import opened OggPages
  import opened VorbisHeaders
  import opened BridgeLoop

  // ---- What a client may see

  function Slice(ps: seq<Page>, from: nat, count: nat): seq<Page> {
    if from + count <= |ps| then ps[from..from + count] else []
  }

  ghost predicate NoBos(taken: seq<Page>, from: nat, to: nat) {
    forall k :: from < k < to && k < |taken| ==> !IsBos(taken[k])
  }

  /** The replayed bytes come from the header pages of one stream, which starts at `origin`. */
  ghost predicate ReplaysHeaders(c: Connection, taken: seq<Page>) {
    && c.origin + c.replayed <= |taken|
    && c.replay <= Concat(Slice(taken, c.origin, c.replayed))
    && (c.replayed > 0 ==> IsStream(Slice(taken, c.origin, c.replayed)))
  }

  /** `bytes` is `whole` followed by the beginning of `page`, but not all of it. */
  ghost predicate PartOf(bytes: seq<byte>, whole: seq<byte>, page: seq<byte>) {
    whole <= bytes <= whole + page && |bytes| < |whole| + |page|
  }

  /** All pages from the stream's first to the last one sent, cut short or whole, are one logical stream. */
  ghost predicate StreamsOn(c: Connection, taken: seq<Page>) {
    var whole := Concat(Slice(taken, c.first, c.sent));
    var next := c.first + c.sent;
    && c.replayed > 0
    && c.replay == Concat(Slice(taken, c.origin, c.replayed))
    && c.origin + c.replayed <= c.first && next <= |taken|
    && IsStream(Slice(taken, c.origin, next - c.origin))
    && (c.streamed == whole ||
        (next < |taken| && IsStream(Slice(taken, c.origin, next + 1 - c.origin)) &&
         PartOf(c.streamed, whole, taken[next])))
    && (c.first == c.origin + c.replayed || PacketCount(Slice(taken, c.origin, c.replayed)) >= 3)
  }

  /**
   The body a client received: header pages of a single logical stream (one BOS page, one serial),
   then consecutive later pages of it, none skipped, repeated or reordered, the last one possibly cut.
   Pages between the two parts are only left out when the replayed headers are complete.
   */
  ghost predicate Faithful(c: Connection, taken: seq<Page>) {
    && ReplaysHeaders(c, taken)
    && (c.streamed == [] ==> c.sent == 0)
    && (c.streamed != [] ==> StreamsOn(c, taken))
  }

  // ---- The invariant

  /** The cache holds the headers of the stream being taken, as the reference defines them. */
  ghost predicate StreamInv(s: State) {
    && s.origin + |s.stream| <= |s.taken|
    && s.stream == s.taken[s.origin..s.origin + |s.stream|]
    && (s.stream == [] ==> s.headers == NO_HEADERS && s.origin == 0)
    && (s.stream != [] ==> IsStream(s.stream) && Acceptable(s.stream) && Describes(s.headers, s.stream))
    && NoBos(s.taken, s.origin, |s.taken|)
    && (!s.discard ==> s.origin + |s.stream| == |s.taken|)
  }

  ghost predicate PendingInv(s: State) {
    && (s.pending.None? || s.client.None? ==> s.offset == 0)
    && (s.discard ==> s.pending.None?)
    && (s.pending.Some? ==>
          && s.stream != []
          && s.pending.value == s.stream[|s.stream| - 1]
          && s.offset < |s.pending.value|
          && (s.pendingHeader <==> HeaderPages(s.stream) == |s.stream|)
          && (s.pendingHeader ==> s.client.Some?))
  }

  /** The live client has been sent everything that was taken since it connected. */
  ghost predicate UpToDate(c: Connection, s: State) {
    && c.origin == s.origin && c.replayed > 0
    && c.origin + c.replayed <= c.first
    && c.first + c.sent + (if s.pending.Some? then 1 else 0) == |s.taken|
    && c.streamed == Concat(Slice(s.taken, c.first, c.sent)) +
                     (if s.pending.Some? && s.offset < |s.pending.value| then s.pending.value[..s.offset] else [])
    && (c.first == c.origin + c.replayed || PacketCount(Slice(s.taken, c.origin, c.replayed)) >= 3)
  }

  ghost predicate ClientInv(s: State) {
    s.client.Some? ==>
      var c := s.client.value;
      && ReplaysHeaders(c, s.taken)
      && c.replay == Concat(Slice(s.taken, c.origin, c.replayed))
      && if s.discard || s.stream == [] then c.streamed == [] && c.sent == 0 else UpToDate(c, s)
  }

  ghost predicate ClosedInv(s: State) {
    forall i :: 0 <= i < |s.closed| ==> Faithful(s.closed[i], s.taken)
  }

  ghost predicate Inv(s: State) {
    StreamInv(s) && PendingInv(s) && ClientInv(s) && ClosedInv(s)
  }

  // ---- Slices of the taken pages

  lemma SliceExtends(taken: seq<Page>, p: Page, from: nat, count: nat)
    requires from + count <= |taken|
    ensures Slice(taken + [p], from, count) == Slice(taken, from, count)
  {
  }

  lemma SliceSnoc(taken: seq<Page>, from: nat, count: nat)
    requires from + count < |taken|
    ensures Concat(Slice(taken, from, count + 1)) == Concat(Slice(taken, from, count)) + taken[from + count]
  {
    hide IsPage;
    assert Slice(taken, from, count + 1) == Slice(taken, from, count) + [taken[from + count]];
    ConcatSnoc(Slice(taken, from, count), taken[from + count]);
  }

  lemma SliceNothing(taken: seq<Page>, from: nat)
    requires from <= |taken|
    ensures Slice(taken, from, 0) == [] && Concat(Slice(taken, from, 0)) == []
  {
  }

  lemma ReplayExtends(c: Connection, taken: seq<Page>, p: Page)
    requires ReplaysHeaders(c, taken)
    ensures ReplaysHeaders(c, taken + [p])
  {
    hide IsPage, Concat, IsStream;
    SliceExtends(taken, p, c.origin, c.replayed);
  }

  /** Every beginning of the stream being taken is one logical stream. */
  lemma PartOfStream(s: State, k: nat)
    requires StreamInv(s) && 0 < k <= |s.stream|
    ensures Slice(s.taken, s.origin, k) == s.stream[..k] && IsStream(Slice(s.taken, s.origin, k))
  {
    hide IsPage, Acceptable, Describes, IsBos, Serial;
    SliceOfPart(s.taken, s.origin, s.stream, k);
  }

  lemma FaithfulExtends(c: Connection, taken: seq<Page>, p: Page)
    requires Faithful(c, taken)
    ensures Faithful(c, taken + [p])
  {
    hide IsPage, Concat, PacketCount, IsStream;
    ReplayExtends(c, taken, p);
    if c.streamed != [] {
      var next := c.first + c.sent;
      SliceExtends(taken, p, c.origin, c.replayed);
      SliceExtends(taken, p, c.first, c.sent);
      SliceExtends(taken, p, c.origin, next - c.origin);
      if next < |taken| { SliceExtends(taken, p, c.origin, next + 1 - c.origin); }
    }
  }

  /** Closing the live connection at any point leaves a faithful body behind. */
  lemma LiveIsFaithful(s: State)
    requires Inv(s) && s.client.Some?
    ensures Faithful(s.client.value, s.taken)
  {
    hide IsPage, Concat, PacketCount, HeaderPages, Acceptable, Describes, IsStream;
    var c := s.client.value;
    if c.streamed != [] {
      var whole := Concat(Slice(s.taken, c.first, c.sent));
      if s.pending.Some? {
        var p := s.pending.value;
        assert p == s.taken[|s.taken| - 1];
        assert s.taken[c.first + c.sent] == p;
        if s.offset > 0 { CutIsPartOf(c.streamed, whole, p, s.offset); }
      }
      var next := c.first + c.sent;
      PartOfStream(s, next - c.origin);
      if s.pending.Some? { PartOfStream(s, next + 1 - c.origin); }
    } else if !s.discard && s.stream != [] && c.sent > 0 {
      SentIsNotEmpty(s.taken, c.first, c.sent);
      assert false;
    }
  }

  lemma CutIsPartOf(bytes: seq<byte>, whole: seq<byte>, page: seq<byte>, n: nat)
    requires n < |page| && bytes == whole + page[..n]
    ensures PartOf(bytes, whole, page)
  {
  }

  lemma SentIsNotEmpty(taken: seq<Page>, from: nat, count: nat)
    requires from + count <= |taken| && count > 0
    ensures Concat(Slice(taken, from, count)) != []
  {
    SliceSnoc(taken, from, count - 1);
    PageIsNotEmpty(taken[from + count - 1]);
  }

  // ---- Phase by phase

  lemma DisconnectKeeps(s: State)
    requires Inv(s)
    ensures ClosedInv(s.Disconnected())
  {
    hide Faithful;
    if s.client.Some? { LiveIsFaithful(s); }
  }

  lemma MarkerKeeps(s: State, marker: Option<string>)
    requires s.Sane() && Inv(s)
    ensures Inv(ReadMarker(s, marker))
  {
    hide Faithful, Acceptable, Describes, IsStream;
    DisconnectKeeps(s);
  }

  lemma {:induction false} SomeHeaderPage(ps: seq<Page>)
    requires ps != []
    ensures HeaderPages(ps) >= 1
  {
    hide IsPage, Segments;
    if |ps| > 1 {
      SomeHeaderPage(ps[..|ps| - 1]);
    } else {
      assert ps[..0] == [];
      assert AllSegments([]) == [];
    }
  }

  /** The cached bytes are the header pages of the current stream, found in the taken pages. */
  lemma CacheIsSlice(s: State)
    requires StreamInv(s)
    ensures s.headers.bytes == Concat(Slice(s.taken, s.origin, HeaderPages(s.stream)))
    ensures s.origin + HeaderPages(s.stream) <= |s.taken|
    ensures s.stream != [] ==> HeaderPages(s.stream) > 0 && IsBos(s.taken[s.origin])
    ensures Slice(s.taken, s.origin, HeaderPages(s.stream)) == s.stream[..HeaderPages(s.stream)]
  {
    hide IsPage, PacketCount, Acceptable;
    if s.stream == [] {
      assert HeaderPages([]) == 0;
    } else {
      SomeHeaderPage(s.stream);
      assert s.stream[0] == s.taken[s.origin];
      SliceOfPart(s.taken, s.origin, s.stream, HeaderPages(s.stream));
    }
  }

  lemma SliceOfPart(taken: seq<Page>, from: nat, part: seq<Page>, k: nat)
    requires from + |part| <= |taken| && part == taken[from..from + |part|] && k <= |part|
    ensures Slice(taken, from, k) == part[..k]
  {
    hide IsPage;
  }

  lemma NewConnectionReplays(s: State, replay: seq<byte>)
    requires StreamInv(s) && replay <= s.headers.bytes
    ensures ReplaysHeaders(NewConnection(s, replay), s.taken)
  {
    hide IsPage, PacketCount, Acceptable, HeaderPages, Describes, IsStream, Concat, Slice;
    CacheIsSlice(s);
    if s.stream != [] { PartOfStream(s, HeaderPages(s.stream)); } else { NoHeaderPages(); }
  }

  lemma NoHeaderPages()
    ensures HeaderPages([]) == 0
  {
  }

  /** A client that just connected has missed only audio pages that others were sent. */
  lemma NewConnectionIsUpToDate(s: State)
    requires s.Sane() && Inv(s) && s.client.None? && !s.discard && s.stream != []
    ensures UpToDate(NewConnection(s, s.headers.bytes), s)
  {
    hide IsPage, PacketCount, Acceptable, HeaderPages, Describes, IsStream, Concat;
    CacheIsSlice(s);
    HeaderPagesComplete(s.stream);
    SliceNothing(s.taken, NextIndex(s));
  }

  lemma AcceptKeeps(s: State, a: Accepted)
    requires s.Sane() && Inv(s)
    ensures Inv(Accept(s, a))
  {
    if s.client.None? {
      if a.Connected? {
        ConnectedKeeps(s);
      } else if a.ReplayCut? {
        CutKeeps(s, a.written);
      }
    }
  }

  lemma ConnectedKeeps(s: State)
    requires s.Sane() && Inv(s) && s.client.None?
    ensures Inv(Accept(s, Connected))
  {
    hide IsPage, PacketCount, Acceptable, HeaderPages, Describes, IsStream, Concat, Slice, UpToDate, ReplaysHeaders;
    NewConnectionReplays(s, s.headers.bytes);
    CacheIsSlice(s);
    if !s.discard && s.stream != [] { NewConnectionIsUpToDate(s); }
    UpToDateIgnoresClient(s, Accept(s, Connected));
  }

  lemma CutKeeps(s: State, n: nat)
    requires s.Sane() && Inv(s) && s.client.None?
    ensures Inv(Accept(s, ReplayCut(n)))
  {
    hide IsPage, PacketCount, Acceptable, HeaderPages, Describes, IsStream, Concat, Slice, UpToDate, ReplaysHeaders;
    NewConnectionReplays(s, if n < |s.headers.bytes| then s.headers.bytes[..n] else s.headers.bytes);
  }

  lemma UpToDateIgnoresClient(s: State, t: State)
    requires t.taken == s.taken && t.origin == s.origin && t.pending == s.pending && t.offset == s.offset
    ensures forall c :: UpToDate(c, s) ==> UpToDate(c, t)
  {
    hide IsPage, PacketCount, Concat, Slice;
  }

  lemma ClosedExtends(s: State, p: Page)
    requires ClosedInv(s)
    ensures ClosedInv(s.(taken := s.taken + [p]))
  {
    hide Faithful;
    forall i | 0 <= i < |s.closed|
      ensures Faithful(s.closed[i], s.taken + [p])
    {
      FaithfulExtends(s.closed[i], s.taken, p);
    }
  }

  /** Discarding a page of the old stream changes nothing but the record of taken pages. */
  lemma DiscardKeeps(s: State, p: Page)
    requires s.Sane() && Inv(s) && s.discard && !IsBos(p)
    ensures Inv(s.(taken := s.taken + [p]))
  {
    hide IsPage, PacketCount, Acceptable, HeaderPages, Describes, IsStream, Concat, Faithful;
    ClosedExtends(s, p);
    assert s.stream == (s.taken + [p])[s.origin..s.origin + |s.stream|];
    if s.client.Some? {
      var c := s.client.value;
      ReplayExtends(c, s.taken, p);
      SliceExtends(s.taken, p, c.origin, c.replayed);
    }
  }

  /** A BOS page starts a stream of its own, with no client and nothing pending. */
  lemma BosKeeps(s: State, p: Page)
    requires s.Sane() && Inv(s) && s.pending.None? && IsBos(p)
    ensures Inv(TakePage(s, p).state)
  {
    hide TakePage, StreamInv, ClosedInv, Observe;
    BosState(s, p);
    if Observe(s.headers, p).Ok? {
      BosStream(s, p, TakePage(s, p).state);
      DisconnectKeeps(s);
      ClosedExtends(s.Disconnected(), p);
      SameClosed(s.Disconnected().(taken := s.taken + [p]), TakePage(s, p).state);
    } else {
      assert TakePage(s, p).state == s;
    }
  }

  /** What taking a BOS page does. */
  lemma BosState(s: State, p: Page)
    requires s.Sane() && s.pending.None? && IsBos(p)
    ensures var t := TakePage(s, p).state;
            if Observe(s.headers, p).Err? then t == s
            else
              && t.headers == Observe(s.headers, p).value && t.client.None? && t.pending.None? && !t.discard
              && t.taken == s.taken + [p] && t.origin == |s.taken| && t.stream == [p]
              && t.closed == s.Connections() && t.offset == s.offset
  {
    hide Observe, IsPage;
  }

  lemma BosStream(s: State, p: Page, t: State)
    requires s.Sane() && IsBos(p) && Observe(s.headers, p) == Ok(t.headers)
    requires t.taken == s.taken + [p] && t.origin == |s.taken| && t.stream == [p] && !t.discard
    ensures StreamInv(t)
  {
    hide IsPage, PacketCount, HeaderPages, Concat, Acceptable, Describes, Observe, IsStream, IsBos;
    FirstPageDecides(s.headers, p);
    OnePageStream(p);
    OneObserved(s.headers, p);
    assert t.taken[|s.taken|..|s.taken| + 1] == [p];
  }

  lemma OneObserved(h: Fields, p: Page)
    requires h.Sane()
    ensures ObserveAll(h, [p]) == Observe(h, p)
  {
    hide Observe;
    assert [p][..0] == [];
  }

  lemma SameClosed(s: State, t: State)
    requires ClosedInv(s) && t.closed == s.closed && t.taken == s.taken
    ensures ClosedInv(t)
  {
    hide Faithful;
  }

  lemma OnePageStream(p: Page)
    requires IsBos(p)
    ensures IsStream([p])
  {
  }

  /** A page of the stream being taken, with or without a client. */
  lemma NextPageKeeps(s: State, p: Page)
    requires s.Sane() && Inv(s) && s.pending.None? && !IsBos(p) && !s.discard
    requires Observe(s.headers, p).Ok?
    ensures StreamInv(TakePage(s, p).state) && ClosedInv(TakePage(s, p).state)
    ensures TakePage(s, p).state.stream == s.stream + [p]
    ensures s.stream != [] && (s.headers.packets < 3 <==> HeaderPages(s.stream + [p]) == |s.stream| + 1)
  {
    hide IsPage, PacketCount, HeaderPages, Concat, Faithful, Acceptable, Describes, Observe, IsStream, IsBos, Serial;
    MatchesStream(s, p);
    var ps := s.stream + [p];
    assert ps[..|ps| - 1] == s.stream && ps[|ps| - 1] == p;
    GrownStream(s.stream, p);
    NextPageDecides(s.headers, ps);
    HeaderOrAudio(s.headers, s.stream, p);
    ClosedExtends(s, p);
    var taken := s.taken + [p];
    assert taken[s.origin..s.origin + |ps|] == ps;
  }

  /** A page that is accepted without a BOS flag carries the serial of the current stream. */
  lemma MatchesStream(s: State, p: Page)
    requires s.Sane() && StreamInv(s) && !IsBos(p) && Observe(s.headers, p).Ok?
    ensures s.stream != [] && Serial(p) == Serial(s.stream[0])
  {
    hide IsPage, PacketCount, HeaderPages, Concat, Acceptable, Scan, Segments, IsStream, Serial;
  }

  lemma GrownStream(ps: seq<Page>, p: Page)
    requires IsStream(ps) && !IsBos(p) && Serial(p) == Serial(ps[0])
    ensures IsStream(ps + [p])
  {
    hide IsPage;
  }

  /** The loop calls a page a header page exactly when the reference does. */
  lemma HeaderOrAudio(h: Fields, ps: seq<Page>, p: Page)
    requires ps != [] && Describes(h, ps)
    ensures h.packets < 3 <==> HeaderPages(ps + [p]) == |ps| + 1
  {
    hide IsPage, Reassemble, AllSegments, HeaderPages, Concat, Serial, ValidHeaders, RateOf, Take16;
    HeaderPagesComplete(ps);
    HeaderPagesNext(ps, p);
    assert PacketCount(ps) < 3 ==> ps[..HeaderPages(ps)] == ps;
  }

  lemma HeaderPagesNext(ps: seq<Page>, p: Page)
    ensures HeaderPages(ps + [p]) == if PacketCount(ps) >= 3 then HeaderPages(ps) else |ps| + 1
  {
    hide IsPage, PacketCount;
    assert (ps + [p])[..|ps|] == ps;
  }

  lemma TakePageKeeps(s: State, p: Page)
    requires s.Sane() && Inv(s) && s.pending.None?
    ensures Inv(TakePage(s, p).state)
  {
    hide IsPage, PacketCount, HeaderPages, Concat, Faithful, StreamInv, ClosedInv, Observe;
    if IsBos(p) {
      BosKeeps(s, p);
    } else if s.discard {
      DiscardKeeps(s, p);
    } else if Observe(s.headers, p).Ok? {
      NextPageKeeps(s, p);
      PageIsNotEmpty(p);
      if s.client.Some? {
        SentGrows(s, s.client.value, p);
      }
    }
  }

  lemma SentGrows(s: State, c: Connection, p: Page)
    requires ReplaysHeaders(c, s.taken) && UpToDate(c, s) && s.pending.None?
    requires c.replay == Concat(Slice(s.taken, c.origin, c.replayed))
    ensures ReplaysHeaders(c, s.taken + [p])
    ensures c.replay == Concat(Slice(s.taken + [p], c.origin, c.replayed))
    ensures forall t: State :: t.taken == s.taken + [p] && t.origin == s.origin && t.pending == Some(p) && t.offset == 0
                               ==> UpToDate(c, t)
  {
    hide IsPage, PacketCount, Concat;
    ReplayExtends(c, s.taken, p);
    SliceExtends(s.taken, p, c.origin, c.replayed);
    SliceExtends(s.taken, p, c.first, c.sent);
  }

  lemma ReceiveKeeps(s: State, a: Arrival)
    requires s.Sane() && Inv(s)
    ensures Inv(Receive(s, a).state)
  {
    if s.pending.None? && a.Arrived? { TakePageKeeps(s, a.page); }
  }

  lemma BeginKeeps(s: State, clock: Clock)
    requires s.Sane() && Inv(s) && s.pending.Some? && s.client.Some?
    ensures Inv(Begin(s, clock)) && Begin(s, clock).pending.Some? && Begin(s, clock).client.Some?
  {
    hide IsPage, PacketCount, HeaderPages, Concat, Slice, Faithful, Acceptable, Describes, IsStream, NoBos, Granule;
  }

  lemma BrokenKeeps(s: State)
    requires s.Sane() && Inv(s) && s.pending.Some? && s.client.Some?
    ensures Inv(Write(s, Broken)) && Write(s, Wrote(0)) == Write(s, Broken)
  {
    hide IsPage, PacketCount, HeaderPages, Concat, Faithful, Acceptable, Describes, IsStream;
    DisconnectKeeps(s);
  }

  lemma WroteKeeps(s: State, n: nat)
    requires s.Sane() && Inv(s) && s.pending.Some? && s.client.Some? && n > 0
    ensures Inv(Write(s, Wrote(n)))
  {
    hide IsPage, PacketCount, HeaderPages, Concat, Slice, Faithful, Acceptable, Describes, IsStream, NoBos;
    var p, c := s.pending.value, s.client.value;
    assert p == s.taken[|s.taken| - 1];
    SliceSnoc(s.taken, c.first, c.sent);
    var m := if n < |p| - s.offset then n else |p| - s.offset;
    JoinParts(p, s.offset, m);
    Rebracket(Concat(Slice(s.taken, c.first, c.sent)), p[..s.offset], p[s.offset..s.offset + m]);
  }

  lemma JoinParts(p: seq<byte>, k: nat, m: nat)
    requires k + m <= |p|
    ensures p[..k] + p[k..k + m] == p[..k + m] && p[..|p|] == p
  {
  }

  lemma Rebracket(a: seq<byte>, b: seq<byte>, c: seq<byte>)
    ensures (a + b) + c == a + (b + c)
  {
  }

  lemma WriteKeeps(s: State, w: Written)
    requires s.Sane() && Inv(s) && s.pending.Some? && s.client.Some?
    ensures Inv(Write(s, w))
  {
    hide Inv;
    match w {
      case Wrote(n) => if n > 0 { WroteKeeps(s, n); } else { BrokenKeeps(s); }
      case Blocked =>
      case Broken => BrokenKeeps(s);
    }
  }

  lemma DeliverKeeps(s: State, paced: bool, clock: Clock, w: Written)
    requires s.Sane() && Inv(s)
    ensures Inv(Deliver(s, paced, clock, w))
  {
    hide Inv, Write, Begin, MayStart, IsPaced, Timeline;
    if s.pending.Some? && s.client.Some? {
      BeginKeeps(s, clock);
      WriteKeeps(Begin(s, clock), w);
      WriteKeeps(s, w);
      WaitKeeps(s, clock);
    }
  }

  lemma WaitKeeps(s: State, clock: Clock)
    requires s.Sane() && Inv(s) && s.pending.Some?
    ensures Inv(s.(timeline := Some(Timeline(s, clock))))
  {
    hide IsPage, PacketCount, HeaderPages, Concat, Slice, Faithful, Acceptable, Describes, IsStream, NoBos, Granule;
  }

  lemma StepKeeps(s: State, paced: bool, t: Tick)
    requires s.Sane() && Inv(s)
    ensures Inv(Step(s, paced, t).state)
  {
    hide Inv, ReadMarker, Accept, Receive, Deliver;
    var marked := ReadMarker(s, t.marker);
    MarkerKeeps(s, t.marker);
    var accepted := Accept(marked, t.accepted);
    AcceptKeeps(marked, t.accepted);
    ReceiveKeeps(accepted, t.arrival);
    var received := Receive(accepted, t.arrival);
    DeliverKeeps(received.state, paced, t.clock, t.written);
  }

  lemma {:induction false} RunKeeps(paced: bool, ticks: seq<Tick>)
    ensures Inv(Run(paced, ticks).state)
  {
    if ticks != [] {
      hide Inv;
      RunKeeps(paced, ticks[..|ticks| - 1]);
      var before := Run(paced, ticks[..|ticks| - 1]);
      if before.Running? { StepKeeps(before.state, paced, ticks[|ticks| - 1]); }
    }
  }

  /** Main result: in every run, every client's body is faithful to one logical stream. */
  lemma ServesOneStream(paced: bool, ticks: seq<Tick>)
    ensures var s := Run(paced, ticks).state;
            forall c :: c in s.Connections() ==> Faithful(c, s.taken)
  {
    hide Faithful;
    RunKeeps(paced, ticks);
    var s := Run(paced, ticks).state;
    if s.client.Some? { LiveIsFaithful(s); }
  }
}
