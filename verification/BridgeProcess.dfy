/**
 The loop of the bridge as it is written (native/bridge/bridge.rs:147-276): variables updated in
 place, one iteration per turn. The object's invariant is everything the run theorems need, so
 each phase promises that every client so far was served faithfully.
 */
module BridgeProcess {
  import opened Prelude
  import opened OggPages
  import opened VorbisHeaders
  import opened BridgeLoop
  import opened BridgeSafety
  import opened BridgeDelivery
  import opened BridgePacing
  import opened BridgeResume

  /** The state between any two phases of an iteration. */
  ghost predicate Good(s: State) { s.Sane() && Inv(s) && Ledger(s) && AudioSent(s) && Progress(s) }

  /** What a listener may rely on. */
  ghost predicate ServedWell(s: State) {
    && (forall c :: c in s.Connections() ==> Faithful(c, s.taken) && WellPaced(c))
    && InOrder(s.Connections())
    && s.forwarded == StreamedBytes(s.Connections())
  }

  lemma GoodInitially()
    ensures Good(INITIAL)
  {
    RunKeeps(true, []);
    RunLedger(true, []);
    RunGrows(true, []);
    RunProgress(true, []);
  }

  lemma GoodMarker(s: State, marker: Option<string>)
    requires Good(s)
    ensures Good(ReadMarker(s, marker))
  {
    hide Inv, Ledger, AudioSent, Progress, ReadMarker;
    MarkerKeeps(s, marker);
    MarkerLedger(s, marker);
    MarkerGrows(s, marker);
    MarkerProgress(s, marker);
  }

  lemma GoodAccept(s: State, a: Accepted)
    requires Good(s)
    ensures Good(Accept(s, a))
  {
    hide Inv, Ledger, AudioSent, Progress, Accept;
    AcceptKeeps(s, a);
    AcceptLedger(s, a);
    AcceptGrows(s, a);
    AcceptProgress(s, a);
  }

  lemma GoodTakePage(s: State, p: Page)
    requires Good(s) && s.pending.None?
    ensures Good(TakePage(s, p).state)
  {
    hide Inv, Ledger, AudioSent, Progress, TakePage;
    TakePageKeeps(s, p);
    ReceiveLedger(s, Arrived(p));
    TakePageGrows(s, p);
    ReceiveProgress(s, Arrived(p));
  }

  lemma GoodDeliver(s: State, paced: bool, clock: Clock, w: Written)
    requires Good(s)
    ensures Good(Deliver(s, paced, clock, w))
  {
    hide Inv, Ledger, AudioSent, Progress, Deliver;
    DeliverKeeps(s, paced, clock, w);
    DeliverLedger(s, paced, clock, w);
    DeliverGrows(s, paced, clock, w);
    DeliverProgress(s, paced, clock, w);
  }

  lemma GoodServesWell(s: State)
    requires Good(s)
    ensures ServedWell(s)
  {
    hide Faithful, WellPaced, StreamedBytes, InOrder, Behind, AudioSent, StreamInv, PendingInv;
    if s.client.Some? {
      LiveIsFaithful(s);
      BytesSnoc(s.closed, s.client.value);
    }
  }

  class Bridge {
    const paced: bool
    const headers: Headers
    var client: Option<Connection>
    var pending: Option<Page>
    var pendingHeader: bool
    var offset: nat
    var forwarded: nat
    var timeline: Option<(nat, nat)>
    var lastLoading: Option<string>
    var discard: bool

    // A record of the past that the loop itself never reads.
    var taken: seq<Page>
    var origin: nat
    var stream: seq<Page>
    var closed: seq<Connection>

    function View(): State
      reads this, headers
    {
      State(headers.View(), client, pending, pendingHeader, offset, forwarded, timeline, lastLoading, discard,
            taken, origin, stream, closed)
    }

    ghost predicate Valid()
      reads this, headers
    {
      Good(View())
    }

    constructor (paced: bool)
      ensures Valid() && View() == INITIAL && this.paced == paced && fresh(headers)
    {
      this.paced := paced;
      headers := new Headers();
      client, pending, pendingHeader, offset := None, None, false, 0;
      forwarded, timeline, lastLoading, discard := 0, None, None, false;
      taken, origin, stream, closed := [], 0, [], [];
      new;
      GoodInitially();
    }

    /** `client.take()`: the socket is dropped. */
    method DropClient()
      modifies this`client, this`closed
      ensures View() == old(View()).Disconnected()
    {
      if client.Some? { closed := closed + [client.value]; }
      client := None;
    }

    method CheckLoadingMarker(marker: Option<string>)
      requires Valid()
      modifies this
      ensures Valid() && View() == ReadMarker(old(View()), marker)
    {
      hide Good;
      GoodMarker(View(), marker);
      if marker.Some? && lastLoading != marker {
        lastLoading := marker;
        discard := true;
        pending := None;
        offset := 0;
        timeline := None;
        DropClient();
      }
    }

    method AcceptClient(accepted: Accepted)
      requires Valid()
      modifies this
      ensures Valid() && View() == Accept(old(View()), accepted)
    {
      hide Good;
      GoodAccept(View(), accepted);
      if client.None? {
        match accepted {
          case Connected =>
            client := Some(NewConnection(View(), headers.bytes));
            timeline := None;
          case ReplayCut(n) =>
            var cut := if n < |headers.bytes| then headers.bytes[..n] else headers.bytes;
            closed := closed + [NewConnection(View(), cut)];
          case _ =>
        }
      }
    }

    /** A page from the producer. Returns whether the loop goes on. */
    method HandlePage(p: Page) returns (running: bool)
      requires Valid() && pending.None?
      modifies this, headers
      ensures running <==> TakePage(old(View()), p).Running?
      ensures running ==> Valid() && View() == TakePage(old(View()), p).state
    {
      hide Good, Observe, IsPage;
      GoodIsSane(View());
      GoodTakePage(View(), p);
      if discard && !IsBos(p) {
        taken := taken + [p];
        return true;
      }
      var isHeader := IsBos(p) || headers.packets < 3;
      if IsBos(p) { StartStream(p); }
      var observed := headers.ObservePage(p);
      if observed.Err? { return false; }
      taken := taken + [p];
      stream := stream + [p];
      if client.Some? || !isHeader {
        pending := Some(p);
        pendingHeader := isHeader;
        offset := 0;
      }
      running := true;
    }

    /** The previous connection ends with the previous stream. */
    method StartStream(p: Page)
      requires IsBos(p)
      modifies this
      ensures View() == BeginStream(old(View()), p)
    {
      discard := false;
      timeline := None;
      DropClient();
      pending := None;
      origin, stream := |taken|, [];
    }

    /** The socket write and what follows from its outcome. */
    method WriteOut(w: Written)
      requires View().Sane() && pending.Some? && client.Some?
      modifies this
      ensures View() == Write(old(View()), w)
    {
      var p, c := pending.value, client.value;
      if w.Wrote? && w.n > 0 {
        var n := if w.n < |p| - offset then w.n else |p| - offset;
        client := Some(c.(streamed := c.streamed + p[offset..offset + n]));
        offset := offset + n;
        forwarded := forwarded + n;
        if offset == |p| {
          client := Some(client.value.(sent := c.sent + 1));
          pending := None;
          offset := 0;
        }
      } else if !w.Blocked? {
        DropClient();
        offset := 0;
        if pendingHeader { pending := None; }
      }
    }

    /** Pacing, then the write. */
    method Forward(clock: Clock, w: Written)
      requires Valid()
      modifies this
      ensures Valid() && View() == Deliver(old(View()), paced, clock, w)
    {
      hide Write, Good;
      GoodIsSane(View());
      GoodDeliver(View(), paced, clock, w);
      if pending.Some? && client.Some? {
        var p := pending.value;
        if paced && !pendingHeader && offset == 0 {
          var granule := Granule(p);
          if granule != MAX_U64 {
            if timeline.None? { timeline := Some((clock.now, granule)); }
            var millis := SaturatingSub(DueMillis(granule, timeline.value.1, headers.rate), STARTUP_LEAD_MS);
            if millis * NANOS_PER_MILLI >= SaturatingSub(clock.Later(), timeline.value.0) { return; }
            var start := Start(granule, clock.Later(), timeline.value.0, timeline.value.1, headers.rate);
            client := Some(client.value.(starts := client.value.starts + [start]));
          }
        }
        WriteOut(w);
      }
    }

    /** One turn of the loop. Returns whether it goes on; if so, every client so far was served well. */
    method Iterate(t: Tick) returns (running: bool)
      requires Valid()
      modifies this, headers
      ensures old(View()).Sane()
      ensures running <==> Step(old(View()), paced, t).Running?
      ensures running ==> Valid() && View() == Step(old(View()), paced, t).state && ServedWell(View())
    {
      hide Good, ServedWell, ReadMarker, Accept, TakePage, Deliver;
      GoodIsSane(View());
      CheckLoadingMarker(t.marker);
      if client.None? && t.accepted.ListenerFailed? { return false; }
      AcceptClient(t.accepted);
      if pending.None? {
        match t.arrival {
          case Arrived(p) =>
            running := HandlePage(p);
            if !running { return; }
          case Timeout =>
          case EndOfStream => return false;
          case ReadFailed => return false;
        }
      }
      Forward(t.clock, t.written);
      GoodServesWell(View());
      running := true;
    }

    /** `main` from its loop on: for whatever the environment does, the run that the theorems are about. */
    method Serve(ticks: seq<Tick>) returns (running: bool)
      requires View() == INITIAL
      modifies this, headers
      ensures running <==> Run(paced, ticks).Running?
      ensures running ==> View() == Run(paced, ticks).state && ServedWell(View())
    {
      hide Good, Step, ServedWell;
      GoodInitially();
      GoodServesWell(View());
      for i := 0 to |ticks|
        invariant Valid() && Run(paced, ticks[..i]) == Running(View()) && ServedWell(View())
      {
        assert ticks[..i + 1][..i] == ticks[..i];
        running := Iterate(ticks[i]);
        if !running {
          StaysStopped(INITIAL, paced, ticks, i + 1);
          return;
        }
      }
      assert ticks[..|ticks|] == ticks;
      running := true;
    }
  }

  lemma GoodIsSane(s: State)
    requires Good(s)
    ensures s.Sane()
  {
  }

  lemma StaysStopped(s: State, paced: bool, ticks: seq<Tick>, k: nat)
    requires s.Sane() && k <= |ticks| && RunFrom(s, paced, ticks[..k]).Stopped?
    ensures RunFrom(s, paced, ticks).Stopped?
  {
    hide Step, RunFrom;
    RunAppend(s, paced, ticks[..k], ticks[k..]);
    assert ticks[..k] + ticks[k..] == ticks;
  }
}
