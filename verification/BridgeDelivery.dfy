/**
 No audio page is lost, and what is pending fits the rest of the state
 (native/bridge/bridge.rs:159-237), for every run of the loop.
 */
module BridgeDelivery {
  import opened Prelude
  import opened OggPages
  import opened VorbisHeaders
  import opened BridgeLoop
  import opened BridgeSafety

  // ---- Every audio page is written whole before the next one is taken

  /** Page `q` of those taken was written completely to one of the clients. */
  ghost predicate SentWhole(cs: seq<Connection>, q: nat) {
    exists i :: 0 <= i < |cs| && cs[i].first <= q < cs[i].first + cs[i].sent
  }

  /** While a stream is taken undisturbed, every audio page before the pending one was sent whole. */
  ghost predicate AudioSent(s: State) {
    !s.discard && s.stream != [] ==>
      forall q :: s.origin + HeaderPages(s.stream) <= q < |s.taken| - (if s.pending.Some? then 1 else 0)
                  ==> SentWhole(s.Connections(), q)
  }

  /** Connections are only added, and only sent more. */
  ghost predicate Grows(cs: seq<Connection>, ds: seq<Connection>) {
    && |cs| <= |ds|
    && (forall i :: 0 <= i < |cs| ==> ds[i].first == cs[i].first && cs[i].sent <= ds[i].sent)
  }

  lemma SentWholeGrows(cs: seq<Connection>, ds: seq<Connection>, q: nat)
    requires Grows(cs, ds) && SentWhole(cs, q)
    ensures SentWhole(ds, q)
  {
    var i :| 0 <= i < |cs| && cs[i].first <= q < cs[i].first + cs[i].sent;
    assert ds[i].first == cs[i].first && cs[i].sent <= ds[i].sent;
  }

  lemma AudioSentGrows(s: State, t: State)
    requires AudioSent(s) && Grows(s.Connections(), t.Connections())
    requires t.discard || t.stream == [] ||
             (!s.discard && t.stream == s.stream && t.taken == s.taken && t.origin == s.origin &&
              t.pending.Some? == s.pending.Some?)
    ensures AudioSent(t)
  {
    hide HeaderPages, State.Connections;
    if !t.discard && t.stream != [] {
      forall q | t.origin + HeaderPages(t.stream) <= q < |t.taken| - (if t.pending.Some? then 1 else 0)
        ensures SentWhole(t.Connections(), q)
      {
        SentWholeGrows(s.Connections(), t.Connections(), q);
      }
    }
  }

  lemma AcceptGrows(s: State, a: Accepted)
    requires s.Sane() && Inv(s) && AudioSent(s)
    ensures AudioSent(Accept(s, a))
  {
    hide Inv, AudioSent, HeaderPages;
    AudioSentGrows(s, Accept(s, a));
  }

  lemma MarkerGrows(s: State, marker: Option<string>)
    requires s.Sane() && AudioSent(s)
    ensures AudioSent(ReadMarker(s, marker))
  {
    AudioSentGrows(s, ReadMarker(s, marker));
  }

  lemma TakePageGrows(s: State, p: Page)
    requires s.Sane() && Inv(s) && s.pending.None? && AudioSent(s)
    ensures AudioSent(TakePage(s, p).state)
  {
    hide IsPage, PacketCount, HeaderPages, StreamInv, ClosedInv, ClientInv, Observe, SentWhole;
    if IsBos(p) {
      FirstHeaderPages(p);
      assert [] + [p] == [p];
    } else if !s.discard && Observe(s.headers, p).Ok? {
      NextPageKeeps(s, p);
      StreamEnds(s);
      HeaderPagesNext(s.stream, p);
      assert TakePage(s, p).state.Connections() == s.Connections();
    }
  }

  lemma StreamEnds(s: State)
    requires StreamInv(s)
    ensures s.origin + |s.stream| <= |s.taken|
    ensures !s.discard ==> s.origin + |s.stream| == |s.taken|
  {
  }

  lemma WriteGrows(s: State, w: Written)
    requires s.Sane() && Inv(s) && s.pending.Some? && s.client.Some? && AudioSent(s)
    ensures AudioSent(Write(s, w))
  {
    hide IsPage, PacketCount, HeaderPages, ClosedInv, Slice;
    var t := Write(s, w);
    if t.pending.Some? {
      AudioSentGrows(s, t);
    } else if t.client.Some? {
      var c := t.client.value;
      assert t.Connections()[|s.closed|] == c;
      assert Grows(s.Connections(), t.Connections());
      forall q | t.origin + HeaderPages(t.stream) <= q < |t.taken|
        ensures SentWhole(t.Connections(), q)
      {
        if q < |t.taken| - 1 {
          SentWholeGrows(s.Connections(), t.Connections(), q);
        } else {
          assert c.first <= q < c.first + c.sent;
        }
      }
    }
  }

  lemma DeliverGrows(s: State, paced: bool, clock: Clock, w: Written)
    requires s.Sane() && Inv(s) && AudioSent(s)
    ensures AudioSent(Deliver(s, paced, clock, w))
  {
    hide Inv, Write, MayStart, IsPaced, Timeline, HeaderPages;
    if s.pending.Some? && s.client.Some? {
      BeginKeeps(s, clock);
      AudioSentGrows(s, Begin(s, clock));
      WriteGrows(Begin(s, clock), w);
      WriteGrows(s, w);
      AudioSentGrows(s, s.(timeline := Some(Timeline(s, clock))));
    }
  }

  lemma StepGrows(s: State, paced: bool, t: Tick)
    requires s.Sane() && Inv(s) && AudioSent(s)
    ensures AudioSent(Step(s, paced, t).state)
  {
    hide Inv, AudioSent, ReadMarker, Accept, Deliver, TakePage;
    var marked := ReadMarker(s, t.marker);
    MarkerKeeps(s, t.marker);
    MarkerGrows(s, t.marker);
    var accepted := Accept(marked, t.accepted);
    AcceptKeeps(marked, t.accepted);
    AcceptGrows(marked, t.accepted);
    ReceiveKeeps(accepted, t.arrival);
    if accepted.pending.None? && t.arrival.Arrived? { TakePageGrows(accepted, t.arrival.page); }
    var received := Receive(accepted, t.arrival);
    DeliverGrows(received.state, paced, t.clock, t.written);
  }

  lemma {:induction false} RunGrows(paced: bool, ticks: seq<Tick>)
    ensures AudioSent(Run(paced, ticks).state)
  {
    if ticks != [] {
      hide Inv, AudioSent;
      var before := Run(paced, ticks[..|ticks| - 1]);
      RunGrows(paced, ticks[..|ticks| - 1]);
      RunKeeps(paced, ticks[..|ticks| - 1]);
      if before.Running? { StepGrows(before.state, paced, ticks[|ticks| - 1]); }
    }
  }

  /**
   Main result: within one stream and without a loading marker, a further page is only taken
   when every audio page so far was written whole to some client.
   */
  lemma LosesNoAudio(paced: bool, ticks: seq<Tick>)
    ensures var s := Run(paced, ticks).state;
            !s.discard && s.stream != [] && s.pending.None? ==>
              forall q :: s.origin + HeaderPages(s.stream) <= q < |s.taken| ==> SentWhole(s.Connections(), q)
  {
    RunGrows(paced, ticks);
  }

  /**
   Main result: in every run, discarding means nothing is pending, no client means nothing of
   a page is written, a pending audio page means complete headers with a usable rate, and a
   pending header page is the last page in the replay cache.
   */
  lemma PendingPage(paced: bool, ticks: seq<Tick>)
    ensures var s := Run(paced, ticks).state;
            && (s.discard ==> s.pending.None?)
            && (s.client.None? ==> s.offset == 0)
            && (s.pending.Some? && !s.pendingHeader ==> s.headers.packets == 3 && 1 <= s.headers.rate <= 192000)
            && (s.pending.Some? && s.pendingHeader ==>
                  s.stream != [] && s.pending.value == s.stream[|s.stream| - 1] &&
                  s.headers.bytes == Sequences.Concat(s.stream))
  {
    hide Acceptable, IsPage, PacketCount, IsStream, ClosedInv, ClientInv;
    RunKeeps(paced, ticks);
    var s := Run(paced, ticks).state;
    assert s.stream[..|s.stream|] == s.stream;
  }
}
