/**
 The main loop of the Ogg HTTP bridge (native/bridge/bridge.rs, `main`) as a state machine.

 One `Tick` is what the environment does during one iteration: the loading marker that is
 read, the outcome of `accept`, the item received from the producer thread, the clock and
 the outcome of the socket write. Everything else is computed by `Step`.
 */
module BridgeLoop {
  import opened Prelude
  import opened OggPages
  import opened VorbisHeaders

  const STARTUP_LEAD_MS: nat := 3000
  const MAX_U64: nat := 0xFFFF_FFFF_FFFF_FFFF
  const NANOS_PER_MILLI: nat := 1_000_000

  // ---- Environment

  datatype Accepted =
    | NoConnection               // WouldBlock
    | Rejected                   // the HTTP request was refused
    | ReplayCut(written: nat)    // `write_all` of the cached headers failed part way
    | Connected
    | ListenerFailed

  datatype Arrival = Arrived(page: Page) | Timeout | EndOfStream | ReadFailed

  datatype Written = Wrote(n: nat) | Blocked | Broken

  /** The two readings of one iteration: `Instant::now()`, and `passed` nanoseconds later `epoch.elapsed()`. */
  datatype Clock = Clock(now: nat, passed: nat) {
    function Later(): nat { now + passed }
  }

  datatype Tick =
    Tick(marker: Option<string>, accepted: Accepted, arrival: Arrival, clock: Clock, written: Written)

  // ---- State

  /** A paced page whose first write was attempted at `now`, and the timeline it was held to. */
  datatype Start = Start(granule: nat, now: nat, epoch: nat, base: nat, rate: nat)

  /**
   One HTTP client. `replay` and `streamed` are the bytes written to its socket after the
   response head; the other fields record where they come from in the sequence of taken pages:
   `replayed` pages from index `origin`, then pages from index `first`, `sent` of them whole.
   */
  datatype Connection = Connection(replay: seq<byte>, streamed: seq<byte>,
                                   origin: nat, replayed: nat, first: nat, sent: nat,
                                   starts: seq<Start>)

  /** The first nine fields are the loop's variables, the last four record its past. */
  datatype State = State(
    headers: Fields, client: Option<Connection>, pending: Option<Page>, pendingHeader: bool, offset: nat,
    forwarded: nat, timeline: Option<(nat, nat)>, lastLoading: Option<string>, discard: bool,
    taken: seq<Page>, origin: nat, stream: seq<Page>, closed: seq<Connection>)
  {
    /** What keeps every index and division of one iteration defined. */
    predicate Sane() {
      && headers.Sane()
      && (pending.Some? ==> offset < |pending.value|)
      && (pending.Some? && !pendingHeader ==> headers.packets == 3)
    }

    function Connections(): seq<Connection> {
      if client.Some? then closed + [client.value] else closed
    }

    /** Dropping the socket. */
    function Disconnected(): State { this.(client := None, closed := Connections()) }
  }

  const INITIAL: State :=
    State(NO_HEADERS, None, None, false, 0, 0, None, None, false, [], 0, [], [])

  /** The loop either goes round again or leaves `main`; leaving closes every socket. */
  datatype Outcome = Running(state: State) | Stopped(state: State)

  // ---- One iteration

  function ReadMarker(s: State, marker: Option<string>): (r: State)
    requires s.Sane()
    ensures r.Sane()
  {
    if marker.Some? && s.lastLoading != marker then
      s.Disconnected().(lastLoading := marker, discard := true, pending := None, offset := 0, timeline := None)
    else s
  }

  /** The next page this client would be sent after the replayed headers. */
  function NextIndex(s: State): nat {
    if s.pending.Some? && |s.taken| > 0 then |s.taken| - 1 else |s.taken|
  }

  function NewConnection(s: State, replay: seq<byte>): Connection {
    Connection(replay, [], s.origin, HeaderPages(s.stream), NextIndex(s), 0, [])
  }

  function Accept(s: State, a: Accepted): (r: State)
    requires s.Sane()
    ensures r.Sane()
  {
    if s.client.Some? then s
    else match a
      case Connected => s.(client := Some(NewConnection(s, s.headers.bytes)), timeline := None)
      case ReplayCut(n) =>
        var cut := if n < |s.headers.bytes| then s.headers.bytes[..n] else s.headers.bytes;
        s.(closed := s.closed + [NewConnection(s, cut)])
      case _ => s
  }

  /** A page with the BOS flag ends the previous connection and opens a new stream. */
  function BeginStream(s: State, p: Page): State {
    if IsBos(p) then
      s.Disconnected().(discard := false, timeline := None, pending := None, origin := |s.taken|, stream := [])
    else s
  }

  function TakePage(s: State, p: Page): (r: Outcome)
    requires s.Sane() && s.pending.None?
    ensures r.state.Sane()
  {
    if s.discard && !IsBos(p) then Running(s.(taken := s.taken + [p]))
    else
      var isHeader := IsBos(p) || s.headers.packets < 3;
      var observed := Observe(s.headers, p);
      if observed.Err? then Stopped(s)
      else
        var begun := BeginStream(s, p).(headers := observed.value);
        var next := begun.(taken := s.taken + [p], stream := begun.stream + [p]);
        if next.client.Some? || !isHeader then
          PageIsNotEmpty(p);
          StaysComplete(s.headers, p);
          Running(next.(pending := Some(p), pendingHeader := isHeader, offset := 0))
        else Running(next)
  }

  function Receive(s: State, a: Arrival): (r: Outcome)
    requires s.Sane()
    ensures r.state.Sane()
  {
    if s.pending.Some? then Running(s)
    else match a
      case Arrived(p) => TakePage(s, p)
      case Timeout => Running(s)
      case EndOfStream => Stopped(s)
      case ReadFailed => Stopped(s)
  }

  function Granule(p: Page): nat {
    LittleEndian32(p[6..10]) + 0x1_0000_0000 * LittleEndian32(p[10..14])
  }

  /** The granule position, bytes 6 to 13 of a page. */
  lemma GranuleBytes(p: Page)
    ensures Granule(p) ==
            (p[6] as int + 0x100 * (p[7] as int) + 0x1_0000 * (p[8] as int) + 0x100_0000 * (p[9] as int)) +
            0x1_0000_0000 *
            (p[10] as int + 0x100 * (p[11] as int) + 0x1_0000 * (p[12] as int) + 0x100_0000 * (p[13] as int))
  {
    var low, high := p[6..10], p[10..14];
    hide IsPage;
    assert low[0] == p[6] && low[1] == p[7] && low[2] == p[8] && low[3] == p[9];
    assert high[0] == p[10] && high[1] == p[11] && high[2] == p[12] && high[3] == p[13];
  }

  function SaturatingSub(a: nat, b: nat): nat { if a < b then 0 else a - b }

  function SaturatingMul(a: nat, b: nat): nat { if a * b > MAX_U64 then MAX_U64 else a * b }

  /** When the page is due, in milliseconds after the timeline's epoch. */
  function DueMillis(granule: nat, base: nat, rate: nat): nat
    requires rate > 0
  {
    SaturatingMul(SaturatingSub(granule, base), 1000) / rate
  }

  /** The write may start: the page is due, less the start-up lead, strictly before now. */
  predicate MayStart(granule: nat, timeline: (nat, nat), now: nat, rate: nat)
    requires rate > 0
  {
    SaturatingSub(DueMillis(granule, timeline.1, rate), STARTUP_LEAD_MS) * NANOS_PER_MILLI
    < SaturatingSub(now, timeline.0)
  }

  predicate IsPaced(s: State, paced: bool)
    requires s.pending.Some?
  {
    paced && !s.pendingHeader && s.offset == 0 && Granule(s.pending.value) != MAX_U64
  }

  function Timeline(s: State, clock: Clock): (nat, nat)
    requires s.pending.Some?
  {
    if s.timeline.Some? then s.timeline.value else (clock.now, Granule(s.pending.value))
  }

  /** The first attempt to write a paced page, noted on the connection. */
  function Begin(s: State, clock: Clock): (r: State)
    requires s.Sane() && s.pending.Some? && s.client.Some?
    ensures r.Sane()
  {
    var t := Timeline(s, clock);
    var start := Start(Granule(s.pending.value), clock.Later(), t.0, t.1, s.headers.rate);
    s.(timeline := Some(t), client := Some(s.client.value.(starts := s.client.value.starts + [start])))
  }

  function Write(s: State, w: Written): (r: State)
    requires s.Sane() && s.pending.Some? && s.client.Some?
    ensures r.Sane()
  {
    var p, c := s.pending.value, s.client.value;
    if w.Wrote? && w.n > 0 then
      var n := if w.n < |p| - s.offset then w.n else |p| - s.offset;
      var more := c.(streamed := c.streamed + p[s.offset..s.offset + n]);
      if s.offset + n == |p| then
        s.(client := Some(more.(sent := c.sent + 1)), forwarded := s.forwarded + n, pending := None, offset := 0)
      else
        s.(client := Some(more), forwarded := s.forwarded + n, offset := s.offset + n)
    else if w.Blocked? then s
    else s.Disconnected().(offset := 0, pending := if s.pendingHeader then None else s.pending)
  }

  function Deliver(s: State, paced: bool, clock: Clock, w: Written): (r: State)
    requires s.Sane()
    ensures r.Sane()
  {
    if s.pending.None? || s.client.None? then s
    else if IsPaced(s, paced) then
      if MayStart(Granule(s.pending.value), Timeline(s, clock), clock.Later(), s.headers.rate)
      then Write(Begin(s, clock), w)
      else s.(timeline := Some(Timeline(s, clock)))
    else Write(s, w)
  }

  function Step(s: State, paced: bool, t: Tick): (r: Outcome)
    requires s.Sane()
    ensures r.state.Sane()
  {
    var marked := ReadMarker(s, t.marker);
    if marked.client.None? && t.accepted.ListenerFailed? then Stopped(marked)
    else
      var received := Receive(Accept(marked, t.accepted), t.arrival);
      if received.Stopped? then received
      else Running(Deliver(received.state, paced, t.clock, t.written))
  }

  /** A run from any state; it ends when the loop is left. */
  function RunFrom(s: State, paced: bool, ticks: seq<Tick>): (r: Outcome)
    requires s.Sane()
    ensures r.state.Sane()
  {
    if ticks == [] then Running(s)
    else
      var before := RunFrom(s, paced, ticks[..|ticks| - 1]);
      if before.Stopped? then before else Step(before.state, paced, ticks[|ticks| - 1])
  }

  function Run(paced: bool, ticks: seq<Tick>): (r: Outcome)
    ensures r.state.Sane()
  {
    RunFrom(INITIAL, paced, ticks)
  }

  lemma PageIsNotEmpty(p: Page)
    ensures |p| >= 27
  {
  }

  /** Completed headers survive every page of the same stream. */
  lemma StaysComplete(h: Fields, p: Page)
    requires h.Sane() && Observe(h, p).Ok?
    ensures h.packets == 3 && !IsBos(p) ==> Observe(h, p).value == h
  {
  }
}
