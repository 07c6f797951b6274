/**
 What one turn of the bridge's loop does, case by case in terms of what the environment did
 (native/bridge/bridge.rs:158-270), and what a loading marker means for whole runs.
 */
module BridgeTurn {
  import opened Prelude
  import opened OggPages
  import opened VorbisHeaders
  import opened BridgeLoop
  import opened BridgeSafety
  import opened BridgeResume

  // ---- One turn

  /** A marker was read that is not the last one. */
  predicate NewMarker(s: State, t: Tick) { t.marker.Some? && t.marker != s.lastLoading }

  /** Nothing is pending when the turn looks at the producer. */
  predicate Receives(s: State, t: Tick) { s.pending.None? || NewMarker(s, t) }

  /** The turn would pass over this page: it is looking for the next stream. */
  predicate PassesOver(s: State, t: Tick, p: Page) { (s.discard || NewMarker(s, t)) && !IsBos(p) }

  predicate Refuses(s: State, t: Tick, p: Page)
    requires s.Sane()
  {
    !PassesOver(s, t, p) && Observe(s.headers, p).Err?
  }

  /** The loop ends exactly when the listener fails, the producer ends or fails, or a page is refused. */
  lemma TurnStops(s: State, paced: bool, t: Tick)
    requires s.Sane()
    ensures Step(s, paced, t).Stopped? <==>
            || (t.accepted.ListenerFailed? && (s.client.None? || NewMarker(s, t)))
            || (Receives(s, t) && (t.arrival.EndOfStream? || t.arrival.ReadFailed?))
            || (Receives(s, t) && t.arrival.Arrived? && Refuses(s, t, t.arrival.page))
  {
    hide ReadMarker, Accept, Observe, Deliver, IsBos, TakePage;
    var marked := ReadMarker(s, t.marker);
    MarkerSets(s, t.marker);
    AcceptSets(marked, t.accepted);
    var accepted := Accept(marked, t.accepted);
    if accepted.pending.None? && t.arrival.Arrived? { TakesOrRefuses(accepted, t.arrival.page); }
  }

  /** What reading the marker does to the loop's own variables. */
  lemma MarkerSets(s: State, marker: Option<string>)
    requires s.Sane()
    ensures var r, isNew := ReadMarker(s, marker), marker.Some? && marker != s.lastLoading;
            && r.taken == s.taken && r.headers == s.headers && r.discard == (s.discard || isNew)
            && r.pending == (if isNew then None else s.pending) && (isNew ==> r.client.None?)
            && (!isNew ==> r.client == s.client)
            && r.lastLoading == (if marker.Some? then marker else s.lastLoading)
  {
  }

  lemma AcceptSets(s: State, a: Accepted)
    requires s.Sane()
    ensures var r := Accept(s, a);
            && r.taken == s.taken && r.headers == s.headers && r.discard == s.discard
            && r.pending == s.pending && r.lastLoading == s.lastLoading
  {
    hide HeaderPages, NextIndex;
  }

  /** What the loop makes of a page that arrived. */
  lemma TakesOrRefuses(s: State, p: Page)
    requires s.Sane() && s.pending.None?
    ensures var r, over := TakePage(s, p), s.discard && !IsBos(p);
            && (r.Stopped? <==> !over && Observe(s.headers, p).Err?)
            && (r.Running? ==>
                  && r.state.taken == s.taken + [p] && r.state.lastLoading == s.lastLoading
                  && r.state.discard == (s.discard && !IsBos(p)))
  {
    hide Observe, HeaderPages, IsBos, IsPage;
  }

  /** A turn takes the page that arrived if nothing was pending, and no other. */
  lemma TurnTakes(s: State, paced: bool, t: Tick)
    requires s.Sane() && Step(s, paced, t).Running?
    ensures Step(s, paced, t).state.taken ==
            s.taken + (if Receives(s, t) && t.arrival.Arrived? then [t.arrival.page] else [])
  {
    Arrives(s, paced, t);
  }

  /** A turn that goes on: the page that arrived is taken if nothing is pending, and the rest is writing. */
  lemma Arrives(s: State, paced: bool, t: Tick)
    requires s.Sane() && Step(s, paced, t).Running?
    ensures var r, arrives := Step(s, paced, t).state, Receives(s, t) && t.arrival.Arrived?;
            && r.taken == s.taken + (if arrives then [t.arrival.page] else [])
            && r.lastLoading == (if t.marker.Some? then t.marker else s.lastLoading)
            && r.discard == ((s.discard || NewMarker(s, t)) && !(arrives && IsBos(t.arrival.page)))
  {
    hide ReadMarker, Accept, TakePage, Deliver, IsBos;
    var marked := ReadMarker(s, t.marker);
    MarkerSets(s, t.marker);
    AcceptSets(marked, t.accepted);
    var accepted := Accept(marked, t.accepted);
    if accepted.pending.None? && t.arrival.Arrived? { TakesOrRefuses(accepted, t.arrival.page); }
    DeliverOnly(Receive(accepted, t.arrival).state, paced, t.clock, t.written);
  }

  /** The part of a turn that writes changes none of the rest. */
  lemma DeliverOnly(s: State, paced: bool, clock: Clock, w: Written)
    requires s.Sane()
    ensures var r := Deliver(s, paced, clock, w);
            && r.taken == s.taken && r.discard == s.discard && r.lastLoading == s.lastLoading
            && r.headers == s.headers && r.origin == s.origin && r.stream == s.stream && s.closed <= r.closed
  {
    hide MayStart, Granule, IsPage, Write, IsPaced, Timeline;
    if s.pending.Some? && s.client.Some? {
      WriteOnly(s, w);
      WriteOnly(Begin(s, clock), w);
    }
  }

  lemma WriteOnly(s: State, w: Written)
    requires s.Sane() && s.pending.Some? && s.client.Some?
    ensures var r := Write(s, w);
            && r.taken == s.taken && r.discard == s.discard && r.lastLoading == s.lastLoading
            && r.headers == s.headers && r.origin == s.origin && r.stream == s.stream && s.closed <= r.closed
  {
    hide IsPage;
  }

  /** The loop discards from a new marker on until it takes a BOS page, and remembers the marker. */
  lemma TurnDiscards(s: State, paced: bool, t: Tick)
    requires s.Sane() && Step(s, paced, t).Running?
    ensures var r := Step(s, paced, t).state;
            && r.lastLoading == (if t.marker.Some? then t.marker else s.lastLoading)
            && (r.discard <==> (s.discard || NewMarker(s, t)) &&
                               !(Receives(s, t) && t.arrival.Arrived? && IsBos(t.arrival.page)))
  {
    Arrives(s, paced, t);
  }

  // ---- Writing

  /** When the page is due, in nanoseconds after the epoch, less three seconds. */
  function DueNanos(granule: nat, base: nat, rate: nat): nat
    requires rate > 0
  {
    var ahead := if granule < base then 0 else granule - base;
    var scaled := if ahead * 1000 > 0xFFFF_FFFF_FFFF_FFFF then 0xFFFF_FFFF_FFFF_FFFF else ahead * 1000;
    var millis := scaled / rate;
    if millis < 3000 then 0 else (millis - 3000) * 1_000_000
  }

  /** The pending page has to wait: it is paced, nothing of it is written, and its time has not come. */
  predicate HeldBack(s: State, paced: bool, clock: Clock)
    requires s.Sane() && s.pending.Some?
  {
    var granule := Granule(s.pending.value);
    && paced && !s.pendingHeader && s.offset == 0 && granule != 0xFFFF_FFFF_FFFF_FFFF
    && var (epoch, base) := if s.timeline.Some? then s.timeline.value else (clock.now, granule);
       var elapsed := if clock.now + clock.passed < epoch then 0 else clock.now + clock.passed - epoch;
       elapsed <= DueNanos(granule, base, s.headers.rate)
  }

  lemma HeldBackExactly(s: State, paced: bool, clock: Clock)
    requires s.Sane() && s.pending.Some?
    ensures HeldBack(s, paced, clock) <==>
            IsPaced(s, paced) &&
            !MayStart(Granule(s.pending.value), Timeline(s, clock), clock.Later(), s.headers.rate)
  {
    hide Granule, IsPage;
  }

  /** How many bytes of the pending page a write moves. */
  function SocketTakes(s: State, w: Written): (n: nat)
    requires s.pending.Some? && s.offset < |s.pending.value|
    ensures s.offset + n <= |s.pending.value|
  {
    var left := |s.pending.value| - s.offset;
    if w.Wrote? then (if w.n < left then w.n else left) else 0
  }

  /** `n` bytes more of the pending page went to the client, which is lost if the write failed. */
  ghost predicate Moved(s: State, r: State, n: nat, fails: bool)
    requires s.pending.Some? && s.client.Some? && s.offset + n <= |s.pending.value|
  {
    && |r.Connections()| == |s.closed| + 1
    && r.Connections()[|s.closed|].streamed == s.client.value.streamed + s.pending.value[s.offset..s.offset + n]
    && r.forwarded == s.forwarded + n
    && (r.client.None? <==> fails)
    && (r.pending == if s.offset + n == |s.pending.value| || (fails && s.pendingHeader) then None else s.pending)
    && r.offset == (if fails || s.offset + n == |s.pending.value| then 0 else s.offset + n)
  }

  /**
   Main result: a page that is not held back is written, by exactly the bytes that the socket takes;
   one that is held back is not. The client goes exactly when a write fails, and the page when it is
   complete or was a header page whose client went.
   */
  lemma WritesExactly(s: State, paced: bool, clock: Clock, w: Written)
    requires s.Sane() && s.pending.Some? && s.client.Some?
    ensures var r := Deliver(s, paced, clock, w);
            if HeldBack(s, paced, clock) then Moved(s, r, 0, false)
            else Moved(s, r, SocketTakes(s, w), w.Broken? || w == Wrote(0))
  {
    HeldBackExactly(s, paced, clock);
    hide HeldBack, MayStart, IsPaced, IsPage, Timeline, Write, SocketTakes, Moved;
    if HeldBack(s, paced, clock) {
      Waits(s, Timeline(s, clock));
    } else if IsPaced(s, paced) {
      WriteMoves(Begin(s, clock), w);
      BeginMoves(s, clock, Write(Begin(s, clock), w), SocketTakes(s, w), w.Broken? || w == Wrote(0));
      SameTakes(s, Begin(s, clock), w);
    } else {
      WriteMoves(s, w);
    }
  }

  lemma Waits(s: State, timeline: (nat, nat))
    requires s.Sane() && s.pending.Some? && s.client.Some?
    ensures Moved(s, s.(timeline := Some(timeline)), 0, false)
  {
    hide IsPage;
    assert s.client.value.streamed + s.pending.value[s.offset..s.offset] == s.client.value.streamed;
  }

  lemma SameTakes(s: State, b: State, w: Written)
    requires s.pending.Some? && s.offset < |s.pending.value| && b.pending == s.pending && b.offset == s.offset
    ensures SocketTakes(b, w) == SocketTakes(s, w)
  {
  }

  lemma BeginMoves(s: State, clock: Clock, r: State, n: nat, fails: bool)
    requires s.Sane() && s.pending.Some? && s.client.Some? && s.offset + n <= |s.pending.value|
    ensures Moved(Begin(s, clock), r, n, fails) ==> Moved(s, r, n, fails)
  {
    hide IsPage, Granule;
  }

  /** One write to the socket. */
  lemma WriteMoves(s: State, w: Written)
    requires s.Sane() && s.pending.Some? && s.client.Some?
    ensures Moved(s, Write(s, w), SocketTakes(s, w), w.Broken? || w == Wrote(0))
  {
    hide IsPage;
    assert s.client.value.streamed + s.pending.value[s.offset..s.offset] == s.client.value.streamed;
  }

  /** A turn with a client and a pending page, and no new marker, is that write. */
  lemma TurnWrites(s: State, paced: bool, t: Tick)
    requires s.Sane() && s.client.Some? && s.pending.Some? && !NewMarker(s, t)
    ensures Step(s, paced, t) == Running(Deliver(s, paced, t.clock, t.written))
  {
    hide Deliver;
  }

  /** So is a turn in which a page of the stream arrives for the client. */
  lemma TurnWritesArrival(s: State, paced: bool, t: Tick)
    requires s.Sane() && s.client.Some? && s.pending.None? && !s.discard && !NewMarker(s, t)
    requires t.arrival.Arrived? && !IsBos(t.arrival.page) && Observe(s.headers, t.arrival.page).Ok?
    ensures var p := t.arrival.page;
            exists x: State ::
              && x.Sane() && x.pending == Some(p) && x.offset == 0 && x.client == s.client && x.timeline == s.timeline
              && (x.pendingHeader <==> s.headers.packets < 3) && x.headers == Observe(s.headers, p).value
              && x.closed == s.closed && Step(s, paced, t) == Running(Deliver(x, paced, t.clock, t.written))
  {
    hide Deliver, Observe, IsPage, IsBos;
    var x := Receive(s, t.arrival).state;
    PageIsNotEmpty(t.arrival.page);
    assert Step(s, paced, t) == Running(Deliver(x, paced, t.clock, t.written));
  }

  // ---- Connecting

  /** Who is connected when a turn begins to accept: nobody, and so it may. */
  predicate MayAccept(s: State, t: Tick) { s.client.None? || NewMarker(s, t) }

  /** What a turn adds to the list of connections, and what it sends them first. */
  lemma TurnAccepts(s: State, paced: bool, t: Tick)
    requires s.Sane() && Step(s, paced, t).Running?
    ensures var n, cs := |s.Connections()|, Step(s, paced, t).state.Connections();
            && |cs| == n + (if MayAccept(s, t) && (t.accepted.Connected? || t.accepted.ReplayCut?) then 1 else 0)
            && (MayAccept(s, t) && t.accepted.Connected? ==>
                  cs[n].replay == s.headers.bytes &&
                  cs[n].first == |s.taken| - (if s.pending.Some? && !NewMarker(s, t) && s.taken != [] then 1 else 0))
            && (MayAccept(s, t) && t.accepted.ReplayCut? && t.accepted.written <= |s.headers.bytes| ==>
                  cs[n].replay == s.headers.bytes[..t.accepted.written] && cs[n].streamed == [])
            && s.closed <= Step(s, paced, t).state.closed
  {
    hide ReadMarker, Accept, Receive, Deliver, State.Connections;
    var marked := ReadMarker(s, t.marker);
    MarkerConnections(s, t.marker);
    var accepted := Accept(marked, t.accepted);
    AcceptConnections(marked, t.accepted);
    var received := Receive(accepted, t.arrival).state;
    ReceiveConnections(accepted, t.arrival);
    DeliverConnections(received, paced, t.clock, t.written);
  }

  lemma MarkerConnections(s: State, marker: Option<string>)
    requires s.Sane()
    ensures var r := ReadMarker(s, marker);
            && r.Connections() == s.Connections() && s.closed <= r.closed
            && r.taken == s.taken && r.headers == s.headers
            && (if marker.Some? && marker != s.lastLoading then r.client.None? && r.pending.None? else r == s)
            && r.origin == s.origin && (s.discard ==> r.discard)
  {
  }

  lemma AcceptConnections(s: State, a: Accepted)
    requires s.Sane()
    ensures var r, n := Accept(s, a), |s.Connections()|;
            && s.closed <= r.closed && r.taken == s.taken && r.origin == s.origin && r.discard == s.discard
            && r.pending == s.pending
            && |r.Connections()| == n + (if s.client.None? && (a.Connected? || a.ReplayCut?) then 1 else 0)
            && r.Connections()[..n] == s.Connections()
            && (s.client.None? && (a.Connected? || a.ReplayCut?) ==>
                  r.Connections()[n].streamed == [] && r.Connections()[n].first == NextIndex(s))
            && (s.client.None? && a.Connected? ==>
                  r.Connections()[n].replay == s.headers.bytes && |r.closed| == n)
            && (s.client.None? && a.ReplayCut? && a.written <= |s.headers.bytes| ==>
                  r.Connections()[n].replay == s.headers.bytes[..a.written] && |r.closed| == n + 1)
  {
    hide HeaderPages, NextIndex;
    if a.ReplayCut? && a.written == |s.headers.bytes| {
      assert s.headers.bytes[..a.written] == s.headers.bytes;
    }
  }

  /** Taking a page changes no connection; it may close one, and begin a stream. */
  lemma ReceiveConnections(s: State, a: Arrival)
    requires s.Sane()
    ensures var r := Receive(s, a).state;
            && r.Connections() == s.Connections() && s.closed <= r.closed && s.taken <= r.taken
            && ((r.origin == s.origin && r.discard == s.discard) || (r.origin == |s.taken| && !r.discard))
  {
    hide Observe, HeaderPages, IsBos, IsPage;
  }

  /** Writing adds no connection and does not change what was replayed. */
  lemma DeliverConnections(s: State, paced: bool, clock: Clock, w: Written)
    requires s.Sane()
    ensures var cs, ds := s.Connections(), Deliver(s, paced, clock, w).Connections();
            && |ds| == |cs| && s.closed <= Deliver(s, paced, clock, w).closed
            && (forall i :: 0 <= i < |cs| ==> ds[i].replay == cs[i].replay && ds[i].first == cs[i].first)
            && (forall i :: 0 <= i < |s.closed| ==> ds[i] == cs[i])
  {
    DeliverOrigins(s, paced, clock, w);
    DeliverOnly(s, paced, clock, w);
  }

  /** The live client is lost in a turn exactly by a new marker, a BOS page or a failed write. */
  lemma TurnDrops(s: State, paced: bool, t: Tick)
    requires s.Sane() && Step(s, paced, t).Running? && s.client.Some? && s.pending.Some?
    ensures var r := Step(s, paced, t).state;
            r.client.Some? && r.closed == s.closed <==>
              !NewMarker(s, t) &&
              (HeldBack(s, paced, t.clock) || !(t.written.Broken? || t.written == Wrote(0)))
  {
    if NewMarker(s, t) {
      MarkerCloses(s, paced, t);
    } else {
      TurnWrites(s, paced, t);
      WritesExactly(s, paced, t.clock, t.written);
      DeliverConnections(s, paced, t.clock, t.written);
    }
  }

  lemma MarkerCloses(s: State, paced: bool, t: Tick)
    requires s.Sane() && NewMarker(s, t)
    ensures s.Connections() <= Step(s, paced, t).state.closed
  {
    hide ReadMarker, Accept, Receive, Deliver;
    var marked := ReadMarker(s, t.marker);
    MarkerConnections(s, t.marker);
    AcceptConnections(marked, t.accepted);
    ReceiveConnections(Accept(marked, t.accepted), t.arrival);
    DeliverOnly(Receive(Accept(marked, t.accepted), t.arrival).state, paced, t.clock, t.written);
  }

  /** Without a page to write it stays unless a marker ends it. */
  lemma TurnDropsIdle(s: State, paced: bool, t: Tick)
    requires s.Sane() && Step(s, paced, t).Running? && s.client.Some? && s.pending.None?
    requires !NewMarker(s, t) && (!t.arrival.Arrived? || PassesOver(s, t, t.arrival.page))
    ensures Step(s, paced, t).state.client == s.client && Step(s, paced, t).state.closed == s.closed
  {
    hide Observe;
  }

  lemma BosCloses(s: State, paced: bool, t: Tick)
    requires s.Sane() && Step(s, paced, t).Running? && Receives(s, t)
    requires t.arrival.Arrived? && IsBos(t.arrival.page)
    ensures var r := Step(s, paced, t).state; r.client.None? && r.pending.None? && s.Connections() <= r.closed
  {
    hide ReadMarker, Accept, TakePage, Observe, IsBos, State.Connections;
    var marked := ReadMarker(s, t.marker);
    MarkerConnections(s, t.marker);
    MarkerSets(s, t.marker);
    AcceptConnections(marked, t.accepted);
    var accepted := Accept(marked, t.accepted);
    BosState(accepted, t.arrival.page);
    if Observe(accepted.headers, t.arrival.page).Err? { TakesOrRefuses(accepted, t.arrival.page); }
  }

  // ---- A loading marker cuts off what came before

  /** Every connection from index `k` on streams only from streams that begin at or after page `n`. */
  ghost predicate FreshFrom(s: State, k: nat, n: nat) {
    && k <= |s.closed| && n <= |s.taken| && (s.discard || s.origin >= n)
    && forall j :: k <= j < |s.Connections()| && s.Connections()[j].streamed != [] ==> s.Connections()[j].origin >= n
  }

  /** A step that adds no pages keeps it if no connection gets further without being fresh. */
  lemma FreshCarries(s: State, r: State, k: nat, n: nat)
    requires FreshFrom(s, k, n) && s.closed <= r.closed && |r.Connections()| >= |s.Connections()|
    requires n <= |r.taken| && (r.discard || r.origin >= n)
    requires forall j :: 0 <= j < |s.Connections()| ==>
               r.Connections()[j].origin == s.Connections()[j].origin &&
               (r.Connections()[j].streamed == s.Connections()[j].streamed || s.Connections()[j].origin >= n)
    requires forall j :: |s.Connections()| <= j < |r.Connections()| ==> r.Connections()[j].streamed == []
    ensures FreshFrom(r, k, n)
  {
    hide State.Connections;
  }

  lemma FreshReceived(s: State, t: Tick, k: nat, n: nat)
    requires s.Sane() && Inv(s) && FreshFrom(s, k, n)
    ensures FreshFrom(Receive(Accept(ReadMarker(s, t.marker), t.accepted), t.arrival).state, k, n)
  {
    hide FreshFrom, Inv, ReadMarker, Accept, Receive, State.Connections;
    FreshBounds(s, k, n);
    var marked := ReadMarker(s, t.marker);
    MarkerConnections(s, t.marker);
    AcceptConnections(marked, t.accepted);
    var accepted := Accept(marked, t.accepted);
    ReceiveConnections(accepted, t.arrival);
    var received := Receive(accepted, t.arrival).state;
    assert forall j :: 0 <= j < |s.Connections()| ==> received.Connections()[j] == s.Connections()[j];
    FreshCarries(s, received, k, n);
  }

  lemma FreshBounds(s: State, k: nat, n: nat)
    requires FreshFrom(s, k, n)
    ensures k <= |s.closed| && n <= |s.taken| && (s.discard || s.origin >= n)
  {
  }

  lemma FreshDelivered(s: State, paced: bool, clock: Clock, w: Written, k: nat, n: nat)
    requires s.Sane() && Inv(s) && FreshFrom(s, k, n)
    ensures FreshFrom(Deliver(s, paced, clock, w), k, n)
  {
    hide Inv, FreshFrom, Deliver;
    FreshBounds(s, k, n);
    if s.pending.Some? && s.client.Some? { LiveIsFresh(s); }
    DeliverOrigins(s, paced, clock, w);
    DeliverOnly(s, paced, clock, w);
    FreshCarries(s, Deliver(s, paced, clock, w), k, n);
  }

  lemma LiveIsFresh(s: State)
    requires Inv(s) && s.client.Some? && s.pending.Some?
    ensures s.client.value.origin == s.origin && !s.discard
  {
    hide StreamInv, ClosedInv, ReplaysHeaders, PacketCount, HeaderPages, IsPage, Slice;
  }

  lemma DeliverOrigins(s: State, paced: bool, clock: Clock, w: Written)
    requires s.Sane()
    ensures var cs, ds := s.Connections(), Deliver(s, paced, clock, w).Connections();
            && |ds| == |cs|
            && (forall i :: 0 <= i < |cs| ==>
                  ds[i].origin == cs[i].origin && ds[i].replay == cs[i].replay && ds[i].first == cs[i].first)
            && (forall i :: 0 <= i < |s.closed| ==> ds[i] == cs[i])
            && (s.pending.None? || s.client.None? ==> ds == cs)
  {
    hide MayStart, Granule, IsPage, Write, IsPaced, Timeline;
    if s.pending.Some? && s.client.Some? {
      WriteOrigins(s, w);
      WriteOrigins(Begin(s, clock), w);
    }
  }

  lemma WriteOrigins(s: State, w: Written)
    requires s.Sane() && s.pending.Some? && s.client.Some?
    ensures var ds, c := Write(s, w).Connections(), s.client.value;
            && |ds| == |s.closed| + 1 && ds[..|s.closed|] == s.closed
            && ds[|s.closed|].origin == c.origin && ds[|s.closed|].replay == c.replay && ds[|s.closed|].first == c.first
  {
    hide IsPage;
  }

  lemma FreshStep(s: State, paced: bool, t: Tick, k: nat, n: nat)
    requires s.Sane() && Inv(s) && FreshFrom(s, k, n)
    ensures FreshFrom(Step(s, paced, t).state, k, n)
  {
    hide FreshFrom, Inv, ReadMarker, Accept, Receive, Deliver;
    var marked := ReadMarker(s, t.marker);
    if marked.client.None? && t.accepted.ListenerFailed? {
      FreshMarked(s, t.marker, k, n);
    } else {
      MarkerKeeps(s, t.marker);
      AcceptKeeps(marked, t.accepted);
      ReceiveKeeps(Accept(marked, t.accepted), t.arrival);
      FreshReceived(s, t, k, n);
      FreshDelivered(Receive(Accept(marked, t.accepted), t.arrival).state, paced, t.clock, t.written, k, n);
    }
  }

  lemma FreshMarked(s: State, marker: Option<string>, k: nat, n: nat)
    requires s.Sane() && FreshFrom(s, k, n)
    ensures FreshFrom(ReadMarker(s, marker), k, n)
  {
    hide FreshFrom;
    FreshBounds(s, k, n);
    FreshCarries(s, ReadMarker(s, marker), k, n);
  }

  lemma {:induction false} FreshRun(s: State, paced: bool, ticks: seq<Tick>, k: nat, n: nat)
    requires s.Sane() && Inv(s) && FreshFrom(s, k, n)
    ensures Inv(RunFrom(s, paced, ticks).state) && FreshFrom(RunFrom(s, paced, ticks).state, k, n)
    ensures s.closed <= RunFrom(s, paced, ticks).state.closed
  {
    hide Inv, FreshFrom, Step;
    if ticks != [] {
      FreshRun(s, paced, ticks[..|ticks| - 1], k, n);
      var before := RunFrom(s, paced, ticks[..|ticks| - 1]);
      if before.Running? {
        StepKeeps(before.state, paced, ticks[|ticks| - 1]);
        FreshStep(before.state, paced, ticks[|ticks| - 1], k, n);
        ClosedStay(before.state, paced, ticks[|ticks| - 1]);
      }
    }
  }

  /** What a closed connection received does not change any more. */
  lemma ClosedStay(s: State, paced: bool, t: Tick)
    requires s.Sane()
    ensures s.closed <= Step(s, paced, t).state.closed
  {
    hide ReadMarker, Accept, Receive, Deliver, State.Connections;
    MarkerConnections(s, t.marker);
    AcceptConnections(ReadMarker(s, t.marker), t.accepted);
    ReceiveConnections(Accept(ReadMarker(s, t.marker), t.accepted), t.arrival);
    DeliverOnly(Receive(Accept(ReadMarker(s, t.marker), t.accepted), t.arrival).state, paced, t.clock, t.written);
  }

  /** The turn that reads the marker: all connections so far are closed, and later ones start afresh. */
  lemma MarkedTurn(s: State, paced: bool, t: Tick)
    requires s.Sane() && Inv(s) && NewMarker(s, t)
    ensures var r := Step(s, paced, t).state;
            s.Connections() <= r.closed && FreshFrom(r, |s.Connections()|, |s.taken|)
  {
    var marked := ReadMarker(s, t.marker);
    assert FreshFrom(marked, |s.Connections()|, |s.taken|) && marked.closed == s.Connections();
    assert marked.lastLoading == t.marker;
    MarkerKeeps(s, t.marker);
    hide FreshFrom, Inv;
    var again := t.(marker := None);
    assert Step(s, paced, t) == Step(marked, paced, again);
    FreshStep(marked, paced, again, |s.Connections()|, |s.taken|);
    ClosedStay(marked, paced, again);
  }

  /** `c` streamed nothing, or only from a stream whose BOS page came after the first `n` pages. */
  ghost predicate StreamsAfter(c: Connection, taken: seq<Page>, n: nat) {
    c.streamed == [] || (n <= c.origin < c.first && c.origin < |taken| && IsBos(taken[c.origin]))
  }

  /**
   Main result: from a new loading marker on, no client that was there before receives another byte,
   and no client that comes later receives a page of a stream that began before the marker.
   */
  lemma MarkerCutsOff(paced: bool, before: seq<Tick>, marked: Tick, after: seq<Tick>)
    requires Run(paced, before).Running? && NewMarker(Run(paced, before).state, marked)
    ensures var s, r := Run(paced, before).state, Run(paced, before + [marked] + after).state;
            && s.Connections() <= r.Connections()
            && forall j :: |s.Connections()| <= j < |r.Connections()| ==>
                 StreamsAfter(r.Connections()[j], r.taken, |s.taken|)
  {
    var s := Run(paced, before).state;
    var r := Run(paced, before + [marked] + after).state;
    RunKeeps(paced, before);
    AfterMarker(paced, before, marked, after);
    ServesOneStream(paced, before + [marked] + after);
    hide Run, Inv, Faithful, StreamsAfter;
    forall j | |s.Connections()| <= j < |r.Connections()|
      ensures StreamsAfter(r.Connections()[j], r.taken, |s.taken|)
    {
      var c := r.Connections()[j];
      assert c in r.Connections();
      FaithfulStreamsAfter(c, r.taken, |s.taken|);
    }
  }

  lemma AfterMarker(paced: bool, before: seq<Tick>, marked: Tick, after: seq<Tick>)
    requires Run(paced, before).Running? && NewMarker(Run(paced, before).state, marked)
    ensures var s, r := Run(paced, before).state, Run(paced, before + [marked] + after).state;
            s.Connections() <= r.closed && FreshFrom(r, |s.Connections()|, |s.taken|)
  {
    hide Inv, FreshFrom, Step;
    var s := Run(paced, before).state;
    RunKeeps(paced, before);
    MarkedTurn(s, paced, marked);
    NextStep(paced, before, marked);
    RunKeeps(paced, before + [marked]);
    RunAppend(INITIAL, paced, before + [marked], after);
    var m := Run(paced, before + [marked]);
    if m.Running? { FreshRun(m.state, paced, after, |s.Connections()|, |s.taken|); }
  }

  lemma FaithfulStreamsAfter(c: Connection, taken: seq<Page>, n: nat)
    requires Faithful(c, taken) && (c.streamed != [] ==> c.origin >= n)
    ensures StreamsAfter(c, taken, n)
  {
    hide IsPage, PacketCount, IsBos, Serial;
  }

  /** The marker stays the last one while no other is read, so reading it again changes nothing. */
  lemma {:induction false} MarkerIsRemembered(paced: bool, before: seq<Tick>, marked: Tick, after: seq<Tick>)
    requires marked.marker.Some? && Run(paced, before + [marked] + after).Running?
    requires forall i :: 0 <= i < |after| ==> Unmarked(after[i], marked.marker)
    ensures Run(paced, before + [marked] + after).state.lastLoading == marked.marker
  {
    hide Step;
    var ticks := before + [marked] + after;
    var last := ticks[|ticks| - 1];
    var front := ticks[..|ticks| - 1];
    if after == [] {
      assert front == before && last == marked;
    } else {
      assert front == before + [marked] + after[..|after| - 1] && last == after[|after| - 1];
      MarkerIsRemembered(paced, before, marked, after[..|after| - 1]);
    }
    TurnDiscards(Run(paced, front).state, paced, last);
  }
}
