/**
 What a reconnecting client is sent (native/bridge/bridge.rs:172-188, 255-269): no page that an
 earlier client got whole, and an interrupted audio page again from its first byte.
 */
module BridgeResume {
  import opened Prelude
  import opened OggPages
  import opened VorbisHeaders
  import opened BridgeLoop
  import opened BridgeSafety
  import opened BridgeDelivery

  // ---- No page is sent twice

  /** Page `q` of those taken was written whole to client `c`. */
  predicate Whole(c: Connection, q: nat) { c.first <= q < c.first + c.sent }

  /** Later connections start at or behind the page where an earlier one ended. */
  ghost predicate InOrder(cs: seq<Connection>) {
    forall i, j :: 0 <= i < j < |cs| && cs[i].streamed != [] ==> cs[i].first + cs[i].sent <= cs[j].first
  }

  /** Nothing was streamed beyond the page that is to be sent next. */
  ghost predicate Behind(cs: seq<Connection>, next: nat) {
    forall i :: 0 <= i < |cs| && cs[i].streamed != [] ==> cs[i].first + cs[i].sent <= next
  }

  ghost predicate Progress(s: State) { InOrder(s.Connections()) && Behind(s.Connections(), NextIndex(s)) }

  /** The same connections, at the same positions. */
  ghost predicate SamePositions(cs: seq<Connection>, ds: seq<Connection>) {
    && |cs| == |ds|
    && (forall i :: 0 <= i < |cs| ==>
          ds[i].first == cs[i].first && ds[i].sent == cs[i].sent && ds[i].streamed == cs[i].streamed)
  }

  lemma ProgressCarries(s: State, t: State)
    requires Progress(s) && SamePositions(s.Connections(), t.Connections()) && NextIndex(s) <= NextIndex(t)
    ensures Progress(t)
  {
    hide NextIndex, State.Connections;
  }

  lemma NewcomerProgress(s: State, cs: seq<Connection>, c: Connection)
    requires InOrder(cs) && Behind(cs, NextIndex(s)) && c.first == NextIndex(s) && c.streamed == []
    ensures InOrder(cs + [c]) && Behind(cs + [c], NextIndex(s))
  {
    hide NextIndex;
  }

  lemma AcceptProgress(s: State, a: Accepted)
    requires s.Sane() && Progress(s)
    ensures Progress(Accept(s, a))
  {
    hide HeaderPages, InOrder, Behind;
    if s.client.None? {
      if a.Connected? {
        NewcomerProgress(s, s.closed, NewConnection(s, s.headers.bytes));
      } else if a.ReplayCut? {
        var cut := if a.written < |s.headers.bytes| then s.headers.bytes[..a.written] else s.headers.bytes;
        NewcomerProgress(s, s.closed, NewConnection(s, cut));
      }
    }
  }

  lemma MarkerProgress(s: State, marker: Option<string>)
    requires s.Sane() && Progress(s)
    ensures Progress(ReadMarker(s, marker))
  {
    hide Progress;
    ProgressCarries(s, ReadMarker(s, marker));
  }

  lemma ReceiveProgress(s: State, a: Arrival)
    requires s.Sane() && Progress(s)
    ensures Progress(Receive(s, a).state)
  {
    hide Progress, Observe;
    ProgressCarries(s, Receive(s, a).state);
  }

  /** More of the pending page for the live client. */
  lemma WroteProgress(s: State, n: nat)
    requires s.Sane() && Inv(s) && s.pending.Some? && s.client.Some? && n > 0 && Progress(s)
    ensures Progress(Write(s, Wrote(n)))
  {
    hide StreamInv, ClosedInv, ReplaysHeaders, PacketCount, HeaderPages, IsPage, Slice;
    var t := Write(s, Wrote(n));
    var cs, ds := s.Connections(), t.Connections();
    assert |ds| == |cs| && forall i :: 0 <= i < |s.closed| ==> ds[i] == cs[i];
    assert ds[|s.closed|].first == cs[|s.closed|].first;
  }

  lemma WriteProgress(s: State, w: Written)
    requires s.Sane() && Inv(s) && s.pending.Some? && s.client.Some? && Progress(s)
    ensures Progress(Write(s, w))
  {
    if w.Wrote? && w.n > 0 {
      WroteProgress(s, w.n);
    } else {
      hide Progress, Inv;
      ProgressCarries(s, Write(s, w));
    }
  }

  lemma DeliverProgress(s: State, paced: bool, clock: Clock, w: Written)
    requires s.Sane() && Inv(s) && Progress(s)
    ensures Progress(Deliver(s, paced, clock, w))
  {
    hide Inv, Progress, Write, MayStart, IsPaced, Timeline;
    if s.pending.Some? && s.client.Some? {
      BeginKeeps(s, clock);
      ProgressCarries(s, Begin(s, clock));
      WriteProgress(Begin(s, clock), w);
      WriteProgress(s, w);
      ProgressCarries(s, s.(timeline := Some(Timeline(s, clock))));
    }
  }

  lemma StepProgress(s: State, paced: bool, t: Tick)
    requires s.Sane() && Inv(s) && Progress(s)
    ensures Progress(Step(s, paced, t).state)
  {
    hide Inv, Progress, ReadMarker, Accept, Receive, Deliver;
    var marked := ReadMarker(s, t.marker);
    MarkerKeeps(s, t.marker);
    MarkerProgress(s, t.marker);
    var accepted := Accept(marked, t.accepted);
    AcceptKeeps(marked, t.accepted);
    AcceptProgress(marked, t.accepted);
    ReceiveKeeps(accepted, t.arrival);
    ReceiveProgress(accepted, t.arrival);
    DeliverProgress(Receive(accepted, t.arrival).state, paced, t.clock, t.written);
  }

  lemma {:induction false} RunProgress(paced: bool, ticks: seq<Tick>)
    ensures Progress(Run(paced, ticks).state)
  {
    if ticks != [] {
      hide Inv, Progress, Step;
      var before := Run(paced, ticks[..|ticks| - 1]);
      RunProgress(paced, ticks[..|ticks| - 1]);
      RunKeeps(paced, ticks[..|ticks| - 1]);
      if before.Running? { StepProgress(before.state, paced, ticks[|ticks| - 1]); }
    }
  }

  /**
   Main result: in every run, a later client is sent nothing before the page at which an earlier
   one stopped, so no page is written whole to two clients.
   */
  lemma NoPageSentTwice(paced: bool, ticks: seq<Tick>)
    ensures var cs := Run(paced, ticks).state.Connections();
            && InOrder(cs)
            && forall i, j, q :: 0 <= i < |cs| && 0 <= j < |cs| && Whole(cs[i], q) && Whole(cs[j], q) ==> i == j
  {
    hide StreamsOn, ReplaysHeaders;
    RunProgress(paced, ticks);
    ServesOneStream(paced, ticks);
    var s := Run(paced, ticks).state;
    var cs := s.Connections();
    forall i, j, q | 0 <= i < |cs| && 0 <= j < |cs| && Whole(cs[i], q) && Whole(cs[j], q)
      ensures i == j
    {
      assert cs[i] in cs && cs[j] in cs;
      assert Faithful(cs[i], s.taken) && Faithful(cs[j], s.taken);
    }
  }

  /** Page `q` was written whole to one client and to no other. */
  ghost predicate SentToOne(cs: seq<Connection>, q: nat) {
    exists i :: 0 <= i < |cs| && Whole(cs[i], q) && forall j :: 0 <= j < |cs| && Whole(cs[j], q) ==> j == i
  }

  /** Main result: of an undisturbed stream, each audio page was written whole to exactly one client. */
  lemma EachPageSentOnce(paced: bool, ticks: seq<Tick>)
    ensures var s := Run(paced, ticks).state;
            !s.discard && s.stream != [] && s.pending.None? ==>
              forall q :: s.origin + HeaderPages(s.stream) <= q < |s.taken| ==> SentToOne(s.Connections(), q)
  {
    hide HeaderPages, InOrder, Run;
    LosesNoAudio(paced, ticks);
    NoPageSentTwice(paced, ticks);
    var s := Run(paced, ticks).state;
    var cs := s.Connections();
    forall q: nat | SentWhole(cs, q)
      ensures SentToOne(cs, q)
    {
      var i :| 0 <= i < |cs| && cs[i].first <= q < cs[i].first + cs[i].sent;
      assert Whole(cs[i], q);
    }
  }

  // ---- An interrupted page starts over

  /** No new loading marker. */
  predicate Unmarked(t: Tick, lastLoading: Option<string>) { t.marker.None? || t.marker == lastLoading }

  /** Nobody gets as far as the audio: no connection, a rejected one or one cut during the replay. */
  predicate Fruitless(t: Tick, lastLoading: Option<string>) {
    Unmarked(t, lastLoading) && (t.accepted.NoConnection? || t.accepted.Rejected? || t.accepted.ReplayCut?)
  }

  lemma {:induction false} RunAppend(s: State, paced: bool, a: seq<Tick>, b: seq<Tick>)
    requires s.Sane()
    ensures var first := RunFrom(s, paced, a);
            RunFrom(s, paced, a + b) == if first.Stopped? then first else RunFrom(first.state, paced, b)
  {
    hide Step;
    if b == [] {
      assert a + b == a;
    } else {
      RunAppend(s, paced, a, b[..|b| - 1]);
      assert (a + b)[..|a + b| - 1] == a + b[..|b| - 1];
    }
  }

  /** While nobody connects, the pending page stays as it is. */
  lemma {:induction false} PageWaits(s: State, paced: bool, ticks: seq<Tick>)
    requires s.Sane() && s.client.None? && s.pending.Some?
    requires forall i :: 0 <= i < |ticks| ==> Fruitless(ticks[i], s.lastLoading)
    ensures var r := RunFrom(s, paced, ticks); r.Running? && r.state == s.(closed := r.state.closed)
  {
    hide HeaderPages;
    if ticks != [] { PageWaits(s, paced, ticks[..|ticks| - 1]); }
  }

  /** The first client to connect takes the pending page from its first byte. */
  lemma ConnectsToPage(s: State, paced: bool, t: Tick)
    requires s.Sane() && s.client.None? && s.pending.Some? && s.offset == 0 && |s.taken| > 0
    requires Unmarked(t, s.lastLoading) && t.accepted.Connected?
    ensures var r := Step(s, paced, t);
            && r.Running? && |r.state.Connections()| == |s.closed| + 1
            && var c := r.state.Connections()[|s.closed|];
               c.replay == s.headers.bytes && c.first == |s.taken| - 1 && c.streamed <= s.pending.value
  {
    hide HeaderPages, Deliver;
    DeliversPrefix(Accept(s, t.accepted), paced, t.clock, t.written);
  }

  lemma DeliversPrefix(s: State, paced: bool, clock: Clock, w: Written)
    requires s.Sane() && s.client.Some? && s.pending.Some? && s.offset == 0 && s.client.value.streamed == []
    ensures var cs := Deliver(s, paced, clock, w).Connections();
            && |cs| == |s.closed| + 1 && cs[|s.closed|].streamed <= s.pending.value
            && cs[|s.closed|].replay == s.client.value.replay && cs[|s.closed|].first == s.client.value.first
  {
    hide MayStart, Granule, IsPage, Write;
    WritesPrefix(s, w);
    WritesPrefix(Begin(s, clock), w);
  }

  lemma WritesPrefix(s: State, w: Written)
    requires s.Sane() && s.client.Some? && s.pending.Some? && s.offset == 0 && s.client.value.streamed == []
    ensures var cs := Write(s, w).Connections();
            && |cs| == |s.closed| + 1 && cs[|s.closed|].streamed <= s.pending.value
            && cs[|s.closed|].replay == s.client.value.replay && cs[|s.closed|].first == s.client.value.first
  {
  }

  /**
   Main result: whenever an audio page waits without a client (an interrupted one, or one nobody was
   there for), then after any number of rejected or cut connections the next client is sent the cached
   headers and that very page, from its first byte.
   */
  lemma ResumesInterruptedPage(paced: bool, before: seq<Tick>, waiting: seq<Tick>, last: Tick)
    requires Run(paced, before).Running?
    requires var s := Run(paced, before).state;
             && s.client.None? && s.pending.Some?
             && (forall i :: 0 <= i < |waiting| ==> Fruitless(waiting[i], s.lastLoading))
             && Unmarked(last, s.lastLoading) && last.accepted.Connected?
    ensures var s, r := Run(paced, before).state, Run(paced, before + waiting + [last]);
            && r.Running? && s.taken != [] && s.taken[|s.taken| - 1] == s.pending.value && !s.pendingHeader
            && var cs := r.state.Connections();
               && cs != []
               && cs[|cs| - 1].replay == s.headers.bytes && cs[|cs| - 1].first == |s.taken| - 1
               && cs[|cs| - 1].streamed <= s.pending.value
  {
    hide Step, Inv;
    var s := Run(paced, before).state;
    RunKeeps(paced, before);
    PendingIsLast(s);
    RunAppend(INITIAL, paced, before, waiting);
    PageWaits(s, paced, waiting);
    var waited := Run(paced, before + waiting).state;
    ConnectsToPage(waited, paced, last);
    assert (before + waiting + [last])[..|before + waiting|] == before + waiting;
  }

  lemma PendingIsLast(s: State)
    requires Inv(s) && s.pending.Some? && s.client.None?
    ensures s.taken != [] && s.taken[|s.taken| - 1] == s.pending.value && s.offset == 0 && !s.pendingHeader
  {
    hide Acceptable, Describes, IsStream, ClosedInv, ClientInv, HeaderPages;
  }

  /** A tick that costs an audio page its client leaves the page waiting, whole. */
  lemma BrokenTick(s: State, paced: bool, t: Tick)
    requires s.Sane() && s.client.Some? && s.pending.Some? && !s.pendingHeader && Unmarked(t, s.lastLoading)
    requires Step(s, paced, t).Running? && Step(s, paced, t).state.client.None?
    ensures var r := Step(s, paced, t).state;
            r.pending == s.pending && r.taken == s.taken && r.headers == s.headers && r.lastLoading == s.lastLoading
  {
    hide MayStart, Granule;
  }

  /**
   Main result: when a write of an audio page fails, then after any number of rejected or cut
   connections the next client is sent the cached headers and then goes on exactly where the
   interrupted one stopped, with that page from its first byte.
   */
  lemma ResumesAfterBreak(paced: bool, before: seq<Tick>, broken: Tick, waiting: seq<Tick>, last: Tick)
    requires Run(paced, before).Running? && Run(paced, before + [broken]).Running?
    requires var s := Run(paced, before).state;
             && s.client.Some? && s.pending.Some? && !s.pendingHeader && Unmarked(broken, s.lastLoading)
             && Run(paced, before + [broken]).state.client.None?
             && (forall i :: 0 <= i < |waiting| ==> Fruitless(waiting[i], s.lastLoading))
             && Unmarked(last, s.lastLoading) && last.accepted.Connected?
    ensures var s, r := Run(paced, before).state, Run(paced, before + [broken] + waiting + [last]);
            && r.Running? && s.taken != [] && s.taken[|s.taken| - 1] == s.pending.value
            && var cs := r.state.Connections();
               && cs != []
               && cs[|cs| - 1].replay == s.headers.bytes
               && cs[|cs| - 1].first == s.client.value.first + s.client.value.sent == |s.taken| - 1
               && cs[|cs| - 1].streamed <= s.pending.value
  {
    hide Run, Step, Inv;
    var s := Run(paced, before).state;
    RunKeeps(paced, before);
    LiveIsAtPage(s);
    NextStep(paced, before, broken);
    BrokenTick(s, paced, broken);
    ResumesInterruptedPage(paced, before + [broken], waiting, last);
  }

  lemma NextStep(paced: bool, ticks: seq<Tick>, t: Tick)
    requires Run(paced, ticks).Running?
    ensures Run(paced, ticks + [t]) == Step(Run(paced, ticks).state, paced, t)
  {
    hide Step;
    assert (ticks + [t])[..|ticks|] == ticks;
  }

  lemma LiveIsAtPage(s: State)
    requires Inv(s) && s.pending.Some? && s.client.Some?
    ensures s.client.value.first + s.client.value.sent == |s.taken| - 1
  {
    hide StreamInv, ClosedInv, ReplaysHeaders, PacketCount, HeaderPages, IsPage, Slice;
  }

  /** A client that connected before there were any headers received nothing at all. */
  lemma EarlyClientGetsNothing(paced: bool, ticks: seq<Tick>, c: Connection)
    requires c in Run(paced, ticks).state.Connections() && c.replayed == 0
    ensures c.replay == [] && c.streamed == []
  {
    hide Run;
    ServesOneStream(paced, ticks);
    SliceNothing(Run(paced, ticks).state.taken, c.origin);
  }
}
