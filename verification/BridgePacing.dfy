/**
 Pacing and accounting of the bridge (native/bridge/bridge.rs:239-260): every connection keeps
 one timeline, no paced page starts ahead of it by more than the start-up lead, and the
 forwarded counter is the number of bytes streamed to all clients.
 */
module BridgePacing {
  import opened Prelude
  import opened VorbisHeaders
  import opened BridgeLoop

  // ---- Specification

  /** The page was at most three seconds early on its timeline. */
  predicate InTime(x: Start) {
    && 1 <= x.rate <= 192000
    && DueMillis(x.granule, x.base, x.rate) * NANOS_PER_MILLI
       < SaturatingSub(x.now, x.epoch) + 3000 * NANOS_PER_MILLI
  }

  /** All paced pages of the connection were held to the same epoch and base. */
  predicate OneTimeline(starts: seq<Start>) {
    forall i, j :: 0 <= i < j < |starts| ==> starts[i].epoch == starts[j].epoch && starts[i].base == starts[j].base
  }

  predicate WellPaced(c: Connection) {
    OneTimeline(c.starts) && forall i :: 0 <= i < |c.starts| ==> InTime(c.starts[i])
  }

  function StreamedBytes(cs: seq<Connection>): nat {
    if cs == [] then 0 else StreamedBytes(cs[..|cs| - 1]) + |cs[|cs| - 1].streamed|
  }

  ghost predicate Ledger(s: State) {
    && (forall i :: 0 <= i < |s.closed| ==> WellPaced(s.closed[i]))
    && (s.client.Some? ==> WellPaced(s.client.value) && OnTimeline(s.client.value, s.timeline))
    && s.forwarded == StreamedBytes(s.closed) + (if s.client.Some? then |s.client.value.streamed| else 0)
  }

  /** The loop still holds the timeline that the connection's pages were held to. */
  ghost predicate OnTimeline(c: Connection, timeline: Option<(nat, nat)>) {
    c.starts != [] ==> timeline == Some((c.starts[0].epoch, c.starts[0].base))
  }

  // ---- Preservation

  lemma BytesSnoc(cs: seq<Connection>, c: Connection)
    ensures StreamedBytes(cs + [c]) == StreamedBytes(cs) + |c.streamed|
  {
    assert (cs + [c])[..|cs|] == cs;
  }

  lemma DisconnectLedger(s: State)
    requires Ledger(s)
    ensures Ledger(s.Disconnected())
  {
    hide WellPaced;
    if s.client.Some? { BytesSnoc(s.closed, s.client.value); }
  }

  lemma MarkerLedger(s: State, marker: Option<string>)
    requires s.Sane() && Ledger(s)
    ensures Ledger(ReadMarker(s, marker))
  {
    hide WellPaced;
    DisconnectLedger(s);
  }

  lemma AcceptLedger(s: State, a: Accepted)
    requires s.Sane() && Ledger(s)
    ensures Ledger(Accept(s, a))
  {
    hide InTime, HeaderPages, StreamedBytes;
    if s.client.None? && a.ReplayCut? {
      var cut := if a.written < |s.headers.bytes| then s.headers.bytes[..a.written] else s.headers.bytes;
      BytesSnoc(s.closed, NewConnection(s, cut));
    }
  }

  lemma ReceiveLedger(s: State, a: Arrival)
    requires s.Sane() && Ledger(s)
    ensures Ledger(Receive(s, a).state)
  {
    hide WellPaced, Observe, StreamedBytes;
    DisconnectLedger(s);
  }

  /** Passing the guard puts the page within the lead. */
  lemma GuardMeansInTime(granule: nat, timeline: (nat, nat), now: nat, rate: nat)
    requires 1 <= rate <= 192000 && MayStart(granule, timeline, now, rate)
    ensures InTime(Start(granule, now, timeline.0, timeline.1, rate))
  {
    hide DueMillis;
  }

  lemma BeginLedger(s: State, clock: Clock)
    requires s.Sane() && Ledger(s) && s.pending.Some? && s.client.Some? && !s.pendingHeader
    requires MayStart(Granule(s.pending.value), Timeline(s, clock), clock.Later(), s.headers.rate)
    ensures Ledger(Begin(s, clock))
  {
    hide MayStart, InTime, Granule;
    GuardMeansInTime(Granule(s.pending.value), Timeline(s, clock), clock.Later(), s.headers.rate);
    TimelineGoesOn(s.client.value, s.timeline, Begin(s, clock).client.value.starts[|s.client.value.starts|]);
  }

  lemma TimelineGoesOn(c: Connection, timeline: Option<(nat, nat)>, x: Start)
    requires WellPaced(c) && OnTimeline(c, timeline) && InTime(x)
    requires timeline.Some? ==> timeline.value == (x.epoch, x.base)
    ensures WellPaced(c.(starts := c.starts + [x]))
    ensures OnTimeline(c.(starts := c.starts + [x]), Some((x.epoch, x.base)))
  {
    hide InTime;
  }

  lemma WriteLedger(s: State, w: Written)
    requires s.Sane() && Ledger(s) && s.pending.Some? && s.client.Some?
    ensures Ledger(Write(s, w))
  {
    DisconnectLedger(s);
  }

  lemma DeliverLedger(s: State, paced: bool, clock: Clock, w: Written)
    requires s.Sane() && Ledger(s)
    ensures Ledger(Deliver(s, paced, clock, w))
  {
    hide Write, MayStart, Granule, WellPaced;
    if s.pending.Some? && s.client.Some? {
      if IsPaced(s, paced) {
        if MayStart(Granule(s.pending.value), Timeline(s, clock), clock.Later(), s.headers.rate) {
          BeginLedger(s, clock);
          WriteLedger(Begin(s, clock), w);
        }
      } else {
        WriteLedger(s, w);
      }
    }
  }

  lemma StepLedger(s: State, paced: bool, t: Tick)
    requires s.Sane() && Ledger(s)
    ensures Ledger(Step(s, paced, t).state)
  {
    hide Ledger, ReadMarker, Accept, Receive, Deliver;
    var marked := ReadMarker(s, t.marker);
    MarkerLedger(s, t.marker);
    AcceptLedger(marked, t.accepted);
    var accepted := Accept(marked, t.accepted);
    ReceiveLedger(accepted, t.arrival);
    DeliverLedger(Receive(accepted, t.arrival).state, paced, t.clock, t.written);
  }

  lemma {:induction false} RunLedger(paced: bool, ticks: seq<Tick>)
    ensures Ledger(Run(paced, ticks).state)
  {
    if ticks != [] {
      hide Ledger;
      var before := Run(paced, ticks[..|ticks| - 1]);
      RunLedger(paced, ticks[..|ticks| - 1]);
      if before.Running? { StepLedger(before.state, paced, ticks[|ticks| - 1]); }
    }
  }

  // ---- The timeline is the connection's own

  /** The first paced page of a connection is the one that set its timeline. */
  predicate StartsAtBase(c: Connection) { c.starts != [] ==> c.starts[0].base == c.starts[0].granule }

  /** A timeline that no page has started on yet was set by the page that is waiting for it. */
  ghost predicate OwnTimeline(s: State, paced: bool) {
    && (forall i :: 0 <= i < |s.closed| ==> StartsAtBase(s.closed[i]))
    && (s.client.Some? ==> StartsAtBase(s.client.value))
    && (s.client.Some? && s.client.value.starts == [] && s.timeline.Some? ==>
          && s.pending.Some? && IsPaced(s, paced) && s.timeline.value.1 == Granule(s.pending.value))
  }

  lemma MarkerOwn(s: State, paced: bool, marker: Option<string>)
    requires s.Sane() && OwnTimeline(s, paced)
    ensures OwnTimeline(ReadMarker(s, marker), paced)
  {
    hide Granule;
  }

  lemma AcceptOwn(s: State, paced: bool, a: Accepted)
    requires s.Sane() && OwnTimeline(s, paced)
    ensures OwnTimeline(Accept(s, a), paced)
  {
    hide Granule, HeaderPages;
  }

  lemma ReceiveOwn(s: State, paced: bool, a: Arrival)
    requires s.Sane() && OwnTimeline(s, paced)
    ensures OwnTimeline(Receive(s, a).state, paced)
  {
    hide Granule, Observe, IsBos;
  }

  lemma BegunWriteOwn(s: State, paced: bool, w: Written)
    requires s.Sane() && s.pending.Some? && s.client.Some?
    requires OwnTimeline(s, paced) && (s.client.value.starts != [] || s.timeline.None?)
    ensures OwnTimeline(Write(s, w), paced)
  {
    hide Granule;
  }

  lemma BeginOwn(s: State, paced: bool, clock: Clock)
    requires s.Sane() && OwnTimeline(s, paced) && s.pending.Some? && s.client.Some? && IsPaced(s, paced) && Ledger(s)
    ensures OwnTimeline(Begin(s, clock), paced)
  {
    hide Granule, InTime, StreamedBytes;
  }

  lemma DeliverOwn(s: State, paced: bool, clock: Clock, w: Written)
    requires s.Sane() && OwnTimeline(s, paced) && Ledger(s)
    ensures OwnTimeline(Deliver(s, paced, clock, w), paced)
  {
    hide Granule, MayStart, Write, Ledger;
    if s.pending.Some? && s.client.Some? {
      if IsPaced(s, paced) {
        BeginOwn(s, paced, clock);
        BegunWriteOwn(Begin(s, clock), paced, w);
      } else {
        BegunWriteOwn(s, paced, w);
      }
    }
  }

  lemma StepOwn(s: State, paced: bool, t: Tick)
    requires s.Sane() && OwnTimeline(s, paced) && Ledger(s)
    ensures OwnTimeline(Step(s, paced, t).state, paced)
  {
    hide OwnTimeline, Ledger, ReadMarker, Accept, Receive, Deliver;
    var marked := ReadMarker(s, t.marker);
    MarkerOwn(s, paced, t.marker);
    MarkerLedger(s, t.marker);
    AcceptOwn(marked, paced, t.accepted);
    AcceptLedger(marked, t.accepted);
    var accepted := Accept(marked, t.accepted);
    ReceiveOwn(accepted, paced, t.arrival);
    ReceiveLedger(accepted, t.arrival);
    DeliverOwn(Receive(accepted, t.arrival).state, paced, t.clock, t.written);
  }

  lemma {:induction false} RunOwn(paced: bool, ticks: seq<Tick>)
    ensures OwnTimeline(Run(paced, ticks).state, paced)
  {
    if ticks != [] {
      hide OwnTimeline, Step;
      var before := Run(paced, ticks[..|ticks| - 1]);
      RunOwn(paced, ticks[..|ticks| - 1]);
      RunLedger(paced, ticks[..|ticks| - 1]);
      if before.Running? { StepOwn(before.state, paced, ticks[|ticks| - 1]); }
    }
  }

  // ---- Main results

  /** In every run, each connection's timeline starts with its own first paced page. */
  lemma KeepsOwnTimeline(paced: bool, ticks: seq<Tick>)
    ensures forall c :: c in Run(paced, ticks).state.Connections() ==> StartsAtBase(c)
  {
    hide Run;
    RunOwn(paced, ticks);
  }

  /** The page that sets a connection's timeline is due at once: it starts as soon as the clock has moved on. */
  lemma FirstPageStartsAtOnce(s: State, paced: bool, clock: Clock, w: Written)
    requires s.Sane() && s.pending.Some? && s.client.Some? && IsPaced(s, paced) && s.timeline.None?
    ensures Deliver(s, paced, clock, w) ==
            if clock.passed > 0 then Write(Begin(s, clock), w) else s.(timeline := Some(Timeline(s, clock)))
  {
    hide Write, Begin;
    DueAtBase(Granule(s.pending.value), s.headers.rate);
  }

  lemma DueAtBase(granule: nat, rate: nat)
    requires rate > 0
    ensures DueMillis(granule, granule, rate) == 0
  {
  }

  /**
   In every run, every connection has one timeline and starts no page more than 3 s early;
   the due time is the plain quotient as long as its product fits 64 bits.
   */
  lemma KeepsPace(paced: bool, ticks: seq<Tick>)
    ensures forall c :: c in Run(paced, ticks).state.Connections() ==> WellPaced(c)
    ensures forall c, i :: c in Run(paced, ticks).state.Connections() && 0 <= i < |c.starts| ==>
              PlainlyInTime(c.starts[i])
  {
    hide InTime;
    RunLedger(paced, ticks);
    forall c, i | c in Run(paced, ticks).state.Connections() && 0 <= i < |c.starts|
      ensures PlainlyInTime(c.starts[i])
    {
      InTimeIsPlain(c.starts[i]);
    }
  }

  ghost predicate PlainlyInTime(x: Start) {
    x.rate > 0 && x.base <= x.granule && (x.granule - x.base) * 1000 <= MAX_U64 ==>
      (x.granule - x.base) * 1000 / x.rate * 1_000_000
      < SaturatingSub(x.now, x.epoch) + 3_000_000_000
  }

  lemma InTimeIsPlain(x: Start)
    requires InTime(x)
    ensures PlainlyInTime(x)
  {
  }

  /** In every run, the forwarded counter is the total streamed to all clients. */
  lemma CountsForwarded(paced: bool, ticks: seq<Tick>)
    ensures Run(paced, ticks).state.forwarded == StreamedBytes(Run(paced, ticks).state.Connections())
  {
    hide WellPaced, OnTimeline;
    RunLedger(paced, ticks);
    var s := Run(paced, ticks).state;
    if s.client.Some? { BytesSnoc(s.closed, s.client.value); }
  }
}
