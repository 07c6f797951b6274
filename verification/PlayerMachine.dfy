/**
 The player's state machine (playback/src/player.rs): the state, the preloaded track, the sink
 and the request ids. One `Tick` is one turn of `poll`: at most one command, then the loaders,
 then one packet. Decoders, sinks and loaders answer as the environment says.
 */
module PlayerMachine {
  import opened Prelude

  datatype SinkStatus = Running | Closed | TemporarilyClosed

  /** What the machine needs to know of a loaded track: its decoder's position. */
  datatype State =
    | Stopped
    | Loading(track: string, id: nat, play: bool, failed: bool)
    | Paused(track: string, id: nat, position: nat, suggested: bool)
    | Playing(track: string, id: nat, position: nat, suggested: bool)
    | EndOfTrack(track: string, id: nat, position: nat)
    | Invalid
  {
    /** A track is loaded and not at its end. */
    predicate HasTrack() { Playing? || Paused? }

    function MovedTo(at: nat): State
      requires HasTrack()
    {
      match this
      case Playing(track, id, _, suggested) => Playing(track, id, at, suggested)
      case Paused(track, id, _, suggested) => Paused(track, id, at, suggested)
    }

    function AlreadySuggested(): State
      requires HasTrack()
    {
      match this
      case Playing(track, id, at, _) => Playing(track, id, at, true)
      case Paused(track, id, at, _) => Paused(track, id, at, true)
    }
  }

  datatype Preload = NoPreload | Preloading(track: string) | Preloaded(track: string, position: nat)

  /** Events sent to listeners; `Started` is the `TrackChanged` that every start of playback sends. */
  datatype Event =
    | IdChanged(id: nat) | Started(id: nat) | NowPlaying(id: nat) | NowPaused(id: nat) | NowStopped(id: nat)
    | NowLoading(id: nat) | Seeked(id: nat) | TimeToPreload(id: nat) | Ended(id: nat) | NotAvailable(id: nat)
    | PreloadDone(track: string)

  datatype Player = Player(state: State, preload: Preload, sink: SinkStatus, nextId: nat, gapless: bool,
                           events: seq<Event>, exited: bool)
  {
    function Send(e: Event): Player { this.(events := events + [e]) }
  }

  datatype Command =
    | Load(track: string, play: bool, position: nat) | PreloadTrack(track: string)
    | Play | Pause | Stop | Seek(position: nat) | Other

  datatype LoaderPoll = Pending | Ready(position: nat) | Failed

  datatype PacketPoll = Packet(position: nat, written: bool) | NoMorePackets | DecoderFailed

  /** How the sink and the decoder answer during one turn; a failing `stop` ends the process. */
  datatype Answers =
    Answers(sinkStops: bool, commandStarts: bool, loadStarts: bool, playStarts: bool, seek: Option<nat>)

  datatype Tick = Tick(command: Option<Command>, loader: LoaderPoll, preloader: LoaderPoll, packet: PacketPoll,
                       nearEnd: bool, answers: Answers)

  const INITIAL_SINK: SinkStatus := Closed

  function Initial(gapless: bool): Player { Player(Stopped, NoPreload, INITIAL_SINK, 0, gapless, [], false) }

  // ---- The sink

  function EnsureStopped(p: Player, temporarily: bool, stops: bool): Player {
    match p.sink
    case Running =>
      if stops then p.(sink := if temporarily then TemporarilyClosed else Closed) else p.(exited := true)
    case TemporarilyClosed => if temporarily then p else p.(sink := Closed)
    case Closed => p
  }

  function DoPause(p: Player, stops: bool): Player {
    match p.state
    case Paused(_, _, _, _) => EnsureStopped(p, false, stops)
    case Playing(track, id, position, suggested) =>
      EnsureStopped(p.(state := Paused(track, id, position, suggested)), false, stops).Send(NowPaused(id))
    case Loading(track, id, _, failed) => p.(state := Loading(track, id, false, failed))
    case _ => p
  }

  function EnsureRunning(p: Player, starts: bool, stops: bool): Player {
    if p.sink == Running then p else if starts then p.(sink := Running) else DoPause(p, stops)
  }

  // ---- Commands

  function DoPlay(p: Player, starts: bool, stops: bool): Player {
    match p.state
    case Paused(track, id, position, suggested) =>
      EnsureRunning(p.(state := Playing(track, id, position, suggested)).Send(NowPlaying(id)), starts, stops)
    case Loading(track, id, _, failed) => p.(state := Loading(track, id, true, failed))
    case _ => p
  }

  function HeldId(s: State): Option<nat> {
    match s
    case Stopped => None
    case Invalid => None
    case _ => Some(s.id)
  }

  function DoStop(p: Player, stops: bool): Player {
    match p.state
    case Stopped => p
    case Invalid => p.(exited := true)
    case _ => EnsureStopped(p, false, stops).Send(NowStopped(p.state.id)).(state := Stopped)
  }

  function StartPlayback(
    p: Player, track: string, id: nat, position: nat, play: bool, starts: bool, stops: bool): Player
  {
    var announced := p.Send(Started(id));
    if play then
      EnsureRunning(announced, starts, stops).Send(NowPlaying(id)).(state := Playing(track, id, position, false))
    else EnsureStopped(announced, false, stops).(state := Paused(track, id, position, false)).Send(NowPaused(id))
  }

  /** The decoder's position after an optional seek; `None` when the seek fails. */
  function SeekTo(at: nat, wanted: nat, seek: Option<nat>): Option<nat> {
    if wanted == at then Some(at) else seek
  }

  /** The id announced, and the sink handled, before a load. */
  function Announced(p: Player, id: nat, play: bool, stops: bool): Player {
    var q := p.(nextId := p.nextId + 1).Send(IdChanged(id));
    if p.gapless then q else EnsureStopped(q, play, stops)
  }

  /** `handle_command_load` after the id is announced: reuses a loaded track where there is one. */
  function LoadAs(q: Player, track: string, id: nat, play: bool, position: nat, a: Answers): Player {
    if q.state.Invalid? then q
    else if q.state.EndOfTrack? && q.state.track == track then
      var at := SeekTo(q.state.position, position, a.seek);
      if at.None? then q.(state := Invalid)
      else
        var taken := q.(state := Invalid, preload := NoPreload);
        StartPlayback(taken, track, id, at.value, play, a.commandStarts, a.sinkStops)
    else if q.state.HasTrack() && q.state.track == track then
      var at := SeekTo(q.state.position, position, a.seek);
      if at.None? then q
      else
        var taken := q.(state := Invalid, preload := NoPreload);
        StartPlayback(taken, track, id, at.value, play, a.commandStarts, a.sinkStops)
    else if q.preload.Preloaded? && q.preload.track == track then
      var at := SeekTo(q.preload.position, position, a.seek);
      if at.None? then q.(preload := NoPreload)
      else StartPlayback(q.(preload := NoPreload), track, id, at.value, play, a.commandStarts, a.sinkStops)
    else q.Send(NowLoading(id)).(preload := NoPreload, state := Loading(track, id, play, false))
  }

  /** Whether a load succeeds: a loaded track is where it should be, or can be moved there. */
  predicate CanLoad(q: Player, track: string, position: nat, a: Answers) {
    if q.state.Invalid? then false
    else if (q.state.EndOfTrack? || q.state.HasTrack()) && q.state.track == track then
      q.state.position == position || a.seek.Some?
    else if q.preload.Preloaded? && q.preload.track == track then q.preload.position == position || a.seek.Some?
    else true
  }

  /** The generator is asked for an id even when the caller brings its own. */
  function DoLoad(p: Player, track: string, known: Option<nat>, play: bool, position: nat, a: Answers): Player {
    var id := if known.Some? then known.value else p.nextId;
    LoadAs(Announced(p, id, play, a.sinkStops), track, id, play, position, a)
  }

  function DoSeek(p: Player, position: nat, a: Answers): Player {
    match p.state
    case Loading(track, id, play, _) => DoLoad(p, track, Some(id), play, position, a)
    case Playing(track, id, _, suggested) =>
      if a.seek.None? then p else p.(state := Playing(track, id, a.seek.value, suggested)).Send(Seeked(id))
    case Paused(track, id, _, suggested) =>
      if a.seek.None? then p else p.(state := Paused(track, id, a.seek.value, suggested)).Send(Seeked(id))
    case Invalid => p.(exited := true)
    case _ => p
  }

  function DoPreload(p: Player, track: string): Player {
    var same := !p.preload.NoPreload? && p.preload.track == track;
    var loaded := (p.state.HasTrack() || p.state.EndOfTrack?) && p.state.track == track;
    var kept := if same then p.preload else NoPreload;
    p.(preload := if same || loaded then kept else Preloading(track))
  }

  function DoCommand(p: Player, c: Command, a: Answers): Player {
    match c
    case Load(track, play, position) => DoLoad(p, track, None, play, position, a)
    case PreloadTrack(track) => DoPreload(p, track)
    case Play => DoPlay(p, a.commandStarts, a.sinkStops)
    case Pause => DoPause(p, a.sinkStops)
    case Stop => DoStop(p, a.sinkStops)
    case Seek(position) => DoSeek(p, position, a)
    case Other => p
  }

  // ---- The rest of a turn of `poll`

  function PollLoader(p: Player, r: LoaderPoll, a: Answers): Player {
    if p.state.Loading? && !p.state.failed then
      match r
      case Ready(position) =>
        StartPlayback(p, p.state.track, p.state.id, position, p.state.play, a.loadStarts, a.sinkStops)
      case Failed => p.Send(NotAvailable(p.state.id)).(state := p.state.(failed := true))
      case Pending => p
    else p
  }

  function PollPreloader(p: Player, r: LoaderPoll): Player {
    if p.preload.Preloading? then
      match r
      case Ready(position) => p.Send(PreloadDone(p.preload.track)).(preload := Preloaded(p.preload.track, position))
      case Failed =>
        var q := p.(preload := NoPreload);
        if p.state.HasTrack() then q.Send(NotAvailable(p.state.id)) else q
      case Pending => p
    else p
  }

  function PlayPacket(p: Player, packet: PacketPoll, a: Answers): Player {
    if p.state.Invalid? then p.(exited := true)
    else if !p.state.Playing? then p
    else
      var q := EnsureRunning(p, a.playStarts, a.sinkStops);
      if !q.state.Playing? then q.(exited := true)
      else match packet
        case Packet(position, written) =>
          var moved := q.(state := q.state.MovedTo(position));
          if written then moved else DoPause(moved, a.sinkStops)
        case NoMorePackets =>
          q.(state := EndOfTrack(q.state.track, q.state.id, q.state.position)).Send(Ended(q.state.id))
        case DecoderFailed => q.Send(Ended(q.state.id))
  }

  function Suggest(p: Player, nearEnd: bool): Player {
    if p.state.HasTrack() && !p.state.suggested && nearEnd
    then p.(state := p.state.AlreadySuggested()).Send(TimeToPreload(p.state.id))
    else p
  }

  function Turn(p: Player, t: Tick): Player {
    if p.exited then p
    else
      var commanded := if t.command.Some? then DoCommand(p, t.command.value, t.answers) else p;
      if commanded.exited then commanded
      else
        var loaded := PollPreloader(PollLoader(commanded, t.loader, t.answers), t.preloader);
        if loaded.exited then loaded
        else
          var played := PlayPacket(loaded, t.packet, t.answers);
          if played.exited then played else Suggest(played, t.nearEnd)
  }

  function Run(gapless: bool, ticks: seq<Tick>): Player {
    if ticks == [] then Initial(gapless) else Turn(Run(gapless, ticks[..|ticks| - 1]), ticks[|ticks| - 1])
  }

  // ---- Invariants

  /** A stopped or paused player does not hold the sink open. */
  predicate SinkReleased(p: Player) {
    !p.exited && (p.state.Stopped? || p.state.Paused?) ==> p.sink == Closed
  }

  /** How often an event was sent. */
  function Tally(events: seq<Event>, e: Event): nat {
    if events == [] then 0
    else Tally(events[..|events| - 1], e) + (if events[|events| - 1] == e then 1 else 0)
  }

  /** Neither a start nor a suggestion has been sent for this id. */
  predicate Unused(events: seq<Event>, id: nat) {
    Tally(events, Started(id)) == 0 && Tally(events, TimeToPreload(id)) == 0
  }

  /** Each id starts playback at most once and suggests a preload at most once. */
  ghost predicate AtMostOnce(events: seq<Event>) {
    forall id: nat :: Tally(events, Started(id)) <= 1 && Tally(events, TimeToPreload(id)) <= 1
  }

  ghost predicate EventsInOrder(events: seq<Event>, nextId: nat) {
    && AtMostOnce(events)
    && (forall id: nat :: id >= nextId ==> Tally(events, Started(id)) == 0 && Tally(events, TimeToPreload(id)) == 0)
  }

  ghost predicate IdsInOrder(p: Player) {
    && EventsInOrder(p.events, p.nextId)
    && (HeldId(p.state).Some? ==> HeldId(p.state).value < p.nextId)
    && (p.state.Loading? ==> Unused(p.events, p.state.id))
    && (p.state.HasTrack() && !p.state.suggested ==> Tally(p.events, TimeToPreload(p.state.id)) == 0)
  }

  /** The last id announced to listeners. */
  function LastId(events: seq<Event>): Option<nat> {
    if events == [] then None
    else if events[|events| - 1].IdChanged? then Some(events[|events| - 1].id)
    else LastId(events[..|events| - 1])
  }

  predicate HoldsLastId(p: Player) {
    !p.state.Invalid? && (HeldId(p.state).Some? ==> HeldId(p.state) == LastId(p.events))
  }

  // ---- The sink

  lemma SinkStart(p: Player, track: string, id: nat, position: nat, play: bool, starts: bool, stops: bool)
    ensures SinkReleased(StartPlayback(p, track, id, position, play, starts, stops))
  {
  }

  lemma SinkLoad(p: Player, track: string, known: Option<nat>, play: bool, position: nat, a: Answers)
    requires SinkReleased(p)
    ensures SinkReleased(DoLoad(p, track, known, play, position, a))
  {
    hide StartPlayback;
    forall q: Player, id, at
      ensures SinkReleased(StartPlayback(q, track, id, at, play, a.commandStarts, a.sinkStops))
    {
      SinkStart(q, track, id, at, play, a.commandStarts, a.sinkStops);
    }
  }

  lemma SinkCommand(p: Player, c: Command, a: Answers)
    requires SinkReleased(p)
    ensures SinkReleased(DoCommand(p, c, a))
  {
    hide DoLoad;
    match c
    case Load(track, play, position) => SinkLoad(p, track, None, play, position, a);
    case Seek(position) =>
      if p.state.Loading? { SinkLoad(p, p.state.track, Some(p.state.id), p.state.play, position, a); }
    case _ =>
  }

  lemma SinkLoader(p: Player, r: LoaderPoll, a: Answers)
    requires SinkReleased(p)
    ensures SinkReleased(PollLoader(p, r, a))
  {
    hide StartPlayback;
    if p.state.Loading? && r.Ready? {
      SinkStart(p, p.state.track, p.state.id, r.position, p.state.play, a.loadStarts, a.sinkStops);
    }
  }

  lemma SinkPacket(p: Player, packet: PacketPoll, a: Answers)
    requires SinkReleased(p)
    ensures SinkReleased(PlayPacket(p, packet, a))
  {
  }

  lemma SinkTurn(p: Player, t: Tick)
    requires SinkReleased(p)
    ensures SinkReleased(Turn(p, t))
  {
    hide DoCommand, PollLoader, PlayPacket;
    var a := t.answers;
    var commanded := if t.command.Some? then DoCommand(p, t.command.value, a) else p;
    if t.command.Some? { SinkCommand(p, t.command.value, a); }
    SinkLoader(commanded, t.loader, a);
    SinkPacket(PollPreloader(PollLoader(commanded, t.loader, a), t.preloader), t.packet, a);
  }

  /** Main result: in every run, Stopped or Paused means the sink is closed. */
  lemma {:induction false} SinkAlwaysReleased(gapless: bool, ticks: seq<Tick>)
    ensures SinkReleased(Run(gapless, ticks))
  {
    hide Turn;
    if ticks != [] {
      SinkAlwaysReleased(gapless, ticks[..|ticks| - 1]);
      SinkTurn(Run(gapless, ticks[..|ticks| - 1]), ticks[|ticks| - 1]);
    }
  }

  // ---- Request ids

  lemma TallySend(events: seq<Event>, e: Event)
    ensures forall f :: Tally(events + [e], f) == Tally(events, f) + (if e == f then 1 else 0)
  {
    assert (events + [e])[..|events|] == events;
  }

  /** The same starts and suggestions have been sent. */
  ghost predicate SameStarts(a: seq<Event>, b: seq<Event>) {
    forall id: nat ::
      && Tally(a, Started(id)) == Tally(b, Started(id))
      && Tally(a, TimeToPreload(id)) == Tally(b, TimeToPreload(id))
  }

  /** Changes that touch neither the ids nor what was sent for them. */
  ghost predicate Harmless(p: Player, q: Player) {
    SameStarts(p.events, q.events) && q.nextId == p.nextId && HeldId(q.state) == HeldId(p.state)
  }

  lemma SendIsHarmless(p: Player, e: Event)
    requires !e.Started? && !e.TimeToPreload?
    ensures Harmless(p, p.Send(e))
  {
    hide Tally;
    TallySend(p.events, e);
  }

  lemma StoppingIsHarmless(p: Player, flag: bool, stops: bool)
    ensures Harmless(p, EnsureStopped(p, flag, stops)) && EnsureStopped(p, flag, stops).state == p.state
  {
    hide Tally;
  }

  lemma PausingIsHarmless(p: Player, stops: bool)
    ensures Harmless(p, DoPause(p, stops))
    ensures DoPause(p, stops).state.Loading? <==> p.state.Loading?
    ensures DoPause(p, stops).state.HasTrack() <==> p.state.HasTrack()
    ensures p.state.HasTrack() ==> DoPause(p, stops).state.suggested == p.state.suggested
  {
    hide Tally, EnsureStopped;
    match p.state
    case Playing(track, id, position, suggested) =>
      var q := p.(state := Paused(track, id, position, suggested));
      StoppingIsHarmless(q, false, stops);
      SendIsHarmless(EnsureStopped(q, false, stops), NowPaused(id));
    case _ => StoppingIsHarmless(p, false, stops);
  }

  /** A harmless change that keeps the kind of state keeps the order. */
  lemma HarmlessInOrder(p: Player, q: Player)
    requires IdsInOrder(p) && Harmless(p, q)
    requires q.state.Loading? ==> p.state.Loading?
    requires q.state.HasTrack() ==> p.state.HasTrack() && (p.state.suggested ==> q.state.suggested)
    ensures IdsInOrder(q)
  {
    hide Tally;
  }

  lemma PauseInOrder(p: Player, stops: bool)
    requires IdsInOrder(p)
    ensures IdsInOrder(DoPause(p, stops))
  {
    hide IdsInOrder, DoPause;
    PausingIsHarmless(p, stops);
    HarmlessInOrder(p, DoPause(p, stops));
  }

  lemma SendInOrder(p: Player, e: Event)
    requires IdsInOrder(p) && !e.Started? && !e.TimeToPreload?
    ensures IdsInOrder(p.Send(e))
  {
    hide IdsInOrder, Harmless;
    SendIsHarmless(p, e);
    HarmlessInOrder(p, p.Send(e));
  }

  lemma RunningInOrder(p: Player, starts: bool, stops: bool)
    requires IdsInOrder(p)
    ensures IdsInOrder(EnsureRunning(p, starts, stops))
  {
    hide Tally, DoPause;
    PauseInOrder(p, stops);
  }

  lemma StoppedInOrder(p: Player, flag: bool, stops: bool)
    requires IdsInOrder(p)
    ensures IdsInOrder(EnsureStopped(p, flag, stops))
  {
    hide Tally;
  }

  lemma RunningIsHarmless(p: Player, starts: bool, stops: bool)
    ensures Harmless(p, EnsureRunning(p, starts, stops))
  {
    hide Tally, DoPause;
    PausingIsHarmless(p, stops);
  }

  /** A start of playback for an unused id. */
  lemma StartInOrder(p: Player, track: string, id: nat, position: nat, play: bool, starts: bool, stops: bool)
    requires EventsInOrder(p.events, p.nextId) && Unused(p.events, id) && id < p.nextId
    ensures IdsInOrder(StartPlayback(p, track, id, position, play, starts, stops))
  {
    hide Tally, EnsureRunning, EnsureStopped;
    var announced := p.Send(Started(id));
    TallySend(p.events, Started(id));
    if play {
      RunningIsHarmless(announced, starts, stops);
      TallySend(EnsureRunning(announced, starts, stops).events, NowPlaying(id));
    } else {
      StoppingIsHarmless(announced, false, stops);
      TallySend(EnsureStopped(announced, false, stops).events, NowPaused(id));
    }
  }

  lemma AnnounceInOrder(p: Player, id: nat, play: bool, stops: bool)
    requires IdsInOrder(p) && Unused(p.events, id) && id <= p.nextId
    ensures var q := Announced(p, id, play, stops);
            IdsInOrder(q) && Unused(q.events, id) && id < q.nextId && q.state == p.state
  {
    hide IdsInOrder, Unused;
    var q := p.(nextId := p.nextId + 1).Send(IdChanged(id));
    SentInOrder(p, id);
    StoppedInOrder(q, play, stops);
  }

  lemma SentInOrder(p: Player, id: nat)
    requires IdsInOrder(p) && Unused(p.events, id) && id <= p.nextId
    ensures var q := p.(nextId := p.nextId + 1).Send(IdChanged(id)); IdsInOrder(q) && Unused(q.events, id)
  {
    hide Tally;
    TallySend(p.events, IdChanged(id));
  }

  lemma LoadAsInOrder(q: Player, track: string, id: nat, play: bool, position: nat, a: Answers)
    requires IdsInOrder(q) && Unused(q.events, id) && id < q.nextId
    ensures IdsInOrder(LoadAs(q, track, id, play, position, a))
  {
    OtherSlotsInOrder(q, track, id, play);
    hide Tally, StartPlayback, IdsInOrder, EventsInOrder;
    var r := q.(state := Invalid, preload := NoPreload);
    if (q.state.EndOfTrack? || q.state.HasTrack()) && q.state.track == track {
      var at := SeekTo(q.state.position, position, a.seek);
      if at.Some? { StartInOrder(r, track, id, at.value, play, a.commandStarts, a.sinkStops); }
    } else if q.preload.Preloaded? && q.preload.track == track {
      var at := SeekTo(q.preload.position, position, a.seek);
      if at.Some? { StartInOrder(q.(preload := NoPreload), track, id, at.value, play, a.commandStarts, a.sinkStops); }
    }
  }

  /** The branches of a load that do not start playback. */
  lemma OtherSlotsInOrder(q: Player, track: string, id: nat, play: bool)
    requires IdsInOrder(q) && Unused(q.events, id) && id < q.nextId
    ensures IdsInOrder(q.(state := Invalid)) && IdsInOrder(q.(preload := NoPreload))
    ensures EventsInOrder(q.events, q.nextId)
    ensures IdsInOrder(q.Send(NowLoading(id)).(preload := NoPreload, state := Loading(track, id, play, false)))
  {
    hide Tally;
    TallySend(q.events, NowLoading(id));
  }

  lemma LoadInOrder(p: Player, track: string, known: Option<nat>, play: bool, position: nat, a: Answers)
    requires IdsInOrder(p)
    requires known.Some? ==> known.value < p.nextId && Unused(p.events, known.value)
    ensures IdsInOrder(DoLoad(p, track, known, play, position, a))
  {
    var id := if known.Some? then known.value else p.nextId;
    assert Unused(p.events, id);
    hide Tally, Announced, LoadAs, IdsInOrder;
    AnnounceInOrder(p, id, play, a.sinkStops);
    LoadAsInOrder(Announced(p, id, play, a.sinkStops), track, id, play, position, a);
  }

  lemma SeekInOrder(p: Player, position: nat, a: Answers)
    requires IdsInOrder(p)
    ensures IdsInOrder(DoSeek(p, position, a))
  {
    hide Tally, DoLoad;
    match p.state
    case Loading(track, id, play, _) => LoadInOrder(p, track, Some(id), play, position, a);
    case Playing(track, id, _, suggested) =>
      if a.seek.Some? { SendInOrder(p.(state := Playing(track, id, a.seek.value, suggested)), Seeked(id)); }
    case Paused(track, id, _, suggested) =>
      if a.seek.Some? { SendInOrder(p.(state := Paused(track, id, a.seek.value, suggested)), Seeked(id)); }
    case _ =>
  }

  lemma PlayInOrder(p: Player, starts: bool, stops: bool)
    requires IdsInOrder(p)
    ensures IdsInOrder(DoPlay(p, starts, stops))
  {
    hide Tally, EnsureRunning;
    if p.state.Paused? {
      var q := p.(state := Playing(p.state.track, p.state.id, p.state.position, p.state.suggested));
      SendInOrder(q, NowPlaying(p.state.id));
      RunningInOrder(q.Send(NowPlaying(p.state.id)), starts, stops);
    }
  }

  lemma StopInOrder(p: Player, stops: bool)
    requires IdsInOrder(p)
    ensures IdsInOrder(DoStop(p, stops))
  {
    hide Tally, EnsureStopped;
    if HeldId(p.state).Some? {
      StoppedInOrder(p, false, stops);
      SendInOrder(EnsureStopped(p, false, stops), NowStopped(p.state.id));
    }
  }

  lemma CommandInOrder(p: Player, c: Command, a: Answers)
    requires IdsInOrder(p)
    ensures IdsInOrder(DoCommand(p, c, a))
  {
    hide Tally, DoLoad, DoSeek, DoPlay, DoPause, DoStop;
    match c
    case Load(track, play, position) => LoadInOrder(p, track, None, play, position, a);
    case Seek(position) => SeekInOrder(p, position, a);
    case Play => PlayInOrder(p, a.commandStarts, a.sinkStops);
    case Pause => PauseInOrder(p, a.sinkStops);
    case Stop => StopInOrder(p, a.sinkStops);
    case _ =>
  }

  lemma LoaderInOrder(p: Player, r: LoaderPoll, a: Answers)
    requires IdsInOrder(p)
    ensures IdsInOrder(PollLoader(p, r, a))
  {
    hide Tally, StartPlayback;
    if p.state.Loading? {
      SendInOrder(p, NotAvailable(p.state.id));
      if r.Ready? { StartInOrder(p, p.state.track, p.state.id, r.position, p.state.play, a.loadStarts, a.sinkStops); }
    }
  }

  lemma PreloaderInOrder(p: Player, r: LoaderPoll)
    requires IdsInOrder(p)
    ensures IdsInOrder(PollPreloader(p, r))
  {
    hide Tally;
    if p.preload.Preloading? {
      SendInOrder(p, PreloadDone(p.preload.track));
      if p.state.HasTrack() { SendInOrder(p.(preload := NoPreload), NotAvailable(p.state.id)); }
    }
  }

  lemma PacketInOrder(p: Player, packet: PacketPoll, a: Answers)
    requires IdsInOrder(p)
    ensures IdsInOrder(PlayPacket(p, packet, a))
  {
    hide Tally, DoPause, EnsureRunning;
    if p.state.Playing? {
      RunningInOrder(p, a.playStarts, a.sinkStops);
      var q := EnsureRunning(p, a.playStarts, a.sinkStops);
      if q.state.Playing? {
        SendInOrder(q, Ended(q.state.id));
        SendInOrder(q.(state := EndOfTrack(q.state.track, q.state.id, q.state.position)), Ended(q.state.id));
        if packet.Packet? { PauseInOrder(q.(state := q.state.MovedTo(packet.position)), a.sinkStops); }
      }
    }
  }

  lemma SuggestInOrder(p: Player, nearEnd: bool)
    requires IdsInOrder(p)
    ensures IdsInOrder(Suggest(p, nearEnd))
  {
    hide Tally;
    if p.state.HasTrack() { TallySend(p.events, TimeToPreload(p.state.id)); }
  }

  lemma TurnInOrder(p: Player, t: Tick)
    requires IdsInOrder(p)
    ensures IdsInOrder(Turn(p, t))
  {
    hide IdsInOrder, DoCommand, PollLoader, PollPreloader, PlayPacket, Suggest;
    var a := t.answers;
    var commanded := if t.command.Some? then DoCommand(p, t.command.value, a) else p;
    if t.command.Some? { CommandInOrder(p, t.command.value, a); }
    LoaderInOrder(commanded, t.loader, a);
    PreloaderInOrder(PollLoader(commanded, t.loader, a), t.preloader);
    var loaded := PollPreloader(PollLoader(commanded, t.loader, a), t.preloader);
    PacketInOrder(loaded, t.packet, a);
    SuggestInOrder(PlayPacket(loaded, t.packet, a), t.nearEnd);
  }

  lemma {:induction false} RunInOrder(gapless: bool, ticks: seq<Tick>)
    ensures IdsInOrder(Run(gapless, ticks))
  {
    if ticks != [] {
      hide IdsInOrder, Turn;
      RunInOrder(gapless, ticks[..|ticks| - 1]);
      TurnInOrder(Run(gapless, ticks[..|ticks| - 1]), ticks[|ticks| - 1]);
    }
  }

  /** Main result: in every run, each request id starts playback and suggests a preload at most once. */
  lemma StartsAtMostOnce(gapless: bool, ticks: seq<Tick>)
    ensures AtMostOnce(Run(gapless, ticks).events)
  {
    RunInOrder(gapless, ticks);
  }

  // ---- The id held is the id announced

  lemma LastIdSend(events: seq<Event>, e: Event)
    ensures LastId(events + [e]) == if e.IdChanged? then Some(e.id) else LastId(events)
  {
    assert (events + [e])[..|events|] == events;
  }

  /** Nothing was announced and the state holds the same id. */
  predicate Quiet(p: Player, q: Player) {
    && LastId(q.events) == LastId(p.events) && HeldId(q.state) == HeldId(p.state)
    && (q.state.Invalid? <==> p.state.Invalid?)
  }

  lemma SinkIsQuiet(p: Player, flag: bool, starts: bool, stops: bool)
    ensures Quiet(p, EnsureStopped(p, flag, stops)) && Quiet(p, DoPause(p, stops))
    ensures Quiet(p, EnsureRunning(p, starts, stops))
  {
    hide LastId;
    LastIdSend(EnsureStopped(p, false, stops).events, NowPaused(if p.state.Playing? then p.state.id else 0));
    if p.state.Playing? {
      var q := p.(state := Paused(p.state.track, p.state.id, p.state.position, p.state.suggested));
      LastIdSend(EnsureStopped(q, false, stops).events, NowPaused(p.state.id));
    }
  }

  lemma StartHolds(p: Player, track: string, id: nat, position: nat, play: bool, starts: bool, stops: bool)
    requires LastId(p.events) == Some(id)
    ensures HoldsLastId(StartPlayback(p, track, id, position, play, starts, stops))
  {
    hide LastId, EnsureRunning, EnsureStopped;
    var announced := p.Send(Started(id));
    LastIdSend(p.events, Started(id));
    SinkIsQuiet(announced, false, starts, stops);
    LastIdSend(EnsureRunning(announced, starts, stops).events, NowPlaying(id));
    LastIdSend(EnsureStopped(announced, false, stops).events, NowPaused(id));
  }

  lemma AnnouncedHolds(p: Player, id: nat, play: bool, stops: bool)
    ensures LastId(Announced(p, id, play, stops).events) == Some(id) && Announced(p, id, play, stops).state == p.state
    ensures Announced(p, id, play, stops).preload == p.preload
  {
    hide LastId;
    LastIdSend(p.events, IdChanged(id));
  }

  /** A load that would reuse a loaded track, but only after a seek. */
  predicate NeedsSeek(p: Player, track: string, position: nat) {
    if (p.state.EndOfTrack? || p.state.HasTrack()) && p.state.track == track then p.state.position != position
    else p.preload.Preloaded? && p.preload.track == track && p.preload.position != position && HeldId(p.state).Some?
  }

  /** The turn's command is a load whose seek fails. */
  predicate LosesId(p: Player, t: Tick) {
    && !p.exited && t.command.Some? && t.command.value.Load? && t.answers.seek.None?
    && NeedsSeek(p, t.command.value.track, t.command.value.position)
  }

  /** A held id is older than the next one, so a load that keeps it does not hold the announced one. */
  lemma LoadLosesId(p: Player, track: string, play: bool, position: nat, a: Answers)
    requires HoldsLastId(p) && IdsInOrder(p)
    ensures HoldsLastId(DoLoad(p, track, None, play, position, a)) <==>
            !(a.seek.None? && NeedsSeek(p, track, position))
  {
    hide LastId, StartPlayback, Announced, EventsInOrder, Unused;
    var id := p.nextId;
    AnnouncedHolds(p, id, play, a.sinkStops);
    var q := Announced(p, id, play, a.sinkStops);
    LastIdSend(q.events, NowLoading(id));
    forall r: Player, at | r.events == q.events
      ensures HoldsLastId(StartPlayback(r, track, id, at, play, a.commandStarts, a.sinkStops))
    {
      StartHolds(r, track, id, at, play, a.commandStarts, a.sinkStops);
    }
  }

  /** A seek while loading loads again under the id that is held already. */
  lemma ReloadHolds(p: Player, position: nat, a: Answers)
    requires HoldsLastId(p) && p.state.Loading?
    ensures HoldsLastId(DoLoad(p, p.state.track, Some(p.state.id), p.state.play, position, a))
  {
    hide LastId, StartPlayback, Announced;
    var id := p.state.id;
    AnnouncedHolds(p, id, p.state.play, a.sinkStops);
    var q := Announced(p, id, p.state.play, a.sinkStops);
    LastIdSend(q.events, NowLoading(id));
    forall r: Player, at | r.events == q.events
      ensures HoldsLastId(StartPlayback(r, p.state.track, id, at, p.state.play, a.commandStarts, a.sinkStops))
    {
      StartHolds(r, p.state.track, id, at, p.state.play, a.commandStarts, a.sinkStops);
    }
  }

  /** Every other command keeps the id. */
  lemma OtherCommandHolds(p: Player, c: Command, a: Answers)
    requires HoldsLastId(p) && !c.Load?
    ensures HoldsLastId(DoCommand(p, c, a))
  {
    hide LastId, DoLoad, EnsureRunning, EnsureStopped, DoPause;
    SinkIsQuiet(p, false, a.commandStarts, a.sinkStops);
    match c
    case Seek(position) =>
      if p.state.Loading? { ReloadHolds(p, position, a); }
      if HeldId(p.state).Some? { LastIdSend(p.events, Seeked(p.state.id)); }
    case Play =>
      if p.state.Paused? {
        var q := p.(state := Playing(p.state.track, p.state.id, p.state.position, p.state.suggested));
        LastIdSend(q.events, NowPlaying(p.state.id));
        SinkIsQuiet(q.Send(NowPlaying(p.state.id)), false, a.commandStarts, a.sinkStops);
      }
    case Stop =>
      if HeldId(p.state).Some? {
        LastIdSend(EnsureStopped(p, false, a.sinkStops).events, NowStopped(p.state.id));
      }
    case _ =>
  }

  // After the command, a turn neither announces an id nor changes the one that is held.

  lemma LoaderIsQuiet(p: Player, r: LoaderPoll, a: Answers)
    ensures Quiet(p, PollLoader(p, r, a))
  {
    hide LastId, EnsureRunning, EnsureStopped;
    if p.state.Loading? {
      var id := p.state.id;
      LastIdSend(p.events, NotAvailable(id));
      LastIdSend(p.events, Started(id));
      var announced := p.Send(Started(id));
      SinkIsQuiet(announced, false, a.loadStarts, a.sinkStops);
      LastIdSend(EnsureRunning(announced, a.loadStarts, a.sinkStops).events, NowPlaying(id));
      LastIdSend(EnsureStopped(announced, false, a.sinkStops).events, NowPaused(id));
    }
  }

  lemma PreloaderIsQuiet(p: Player, r: LoaderPoll)
    ensures Quiet(p, PollPreloader(p, r))
  {
    hide LastId;
    if p.preload.Preloading? { LastIdSend(p.events, PreloadDone(p.preload.track)); }
    if p.state.HasTrack() { LastIdSend(p.events, NotAvailable(p.state.id)); }
  }

  lemma PacketIsQuiet(p: Player, packet: PacketPoll, a: Answers)
    ensures Quiet(p, PlayPacket(p, packet, a))
  {
    hide LastId, DoPause, EnsureRunning;
    if p.state.Playing? {
      SinkIsQuiet(p, false, a.playStarts, a.sinkStops);
      var q := EnsureRunning(p, a.playStarts, a.sinkStops);
      if q.state.Playing? {
        LastIdSend(q.events, Ended(q.state.id));
        if packet.Packet? { SinkIsQuiet(q.(state := q.state.MovedTo(packet.position)), false, false, a.sinkStops); }
      }
    }
  }

  lemma SuggestIsQuiet(p: Player, nearEnd: bool)
    ensures Quiet(p, Suggest(p, nearEnd))
  {
    hide LastId;
    if p.state.HasTrack() { LastIdSend(p.events, TimeToPreload(p.state.id)); }
  }

  lemma QuietHolds(p: Player, q: Player)
    requires Quiet(p, q)
    ensures HoldsLastId(p) <==> HoldsLastId(q)
  {
    hide LastId;
  }

  /** One turn loses the held id exactly when its command is a load whose seek fails. */
  lemma TurnHolds(p: Player, t: Tick)
    requires HoldsLastId(p) && IdsInOrder(p)
    ensures HoldsLastId(Turn(p, t)) <==> !LosesId(p, t)
  {
    hide IdsInOrder, HoldsLastId, NeedsSeek, DoCommand, PollLoader, PollPreloader, PlayPacket, Suggest, LastId, HeldId;
    var a := t.answers;
    var commanded := if t.command.Some? then DoCommand(p, t.command.value, a) else p;
    if t.command.Some? { CommandHolds(p, t.command.value, a); }
    var loading := PollLoader(commanded, t.loader, a);
    LoaderIsQuiet(commanded, t.loader, a);
    QuietHolds(commanded, loading);
    var loaded := PollPreloader(loading, t.preloader);
    PreloaderIsQuiet(loading, t.preloader);
    QuietHolds(loading, loaded);
    var played := PlayPacket(loaded, t.packet, a);
    PacketIsQuiet(loaded, t.packet, a);
    QuietHolds(loaded, played);
    SuggestIsQuiet(played, t.nearEnd);
    QuietHolds(played, Suggest(played, t.nearEnd));
  }

  lemma CommandHolds(p: Player, c: Command, a: Answers)
    requires HoldsLastId(p) && IdsInOrder(p)
    ensures HoldsLastId(DoCommand(p, c, a)) <==>
            !(c.Load? && a.seek.None? && NeedsSeek(p, c.track, c.position))
  {
    hide IdsInOrder, HoldsLastId, NeedsSeek, DoLoad, LastId;
    if c.Load? { LoadLosesId(p, c.track, c.play, c.position, a); } else { OtherCommandHolds(p, c, a); }
  }

  /**
   Main result: along a whole run, the state is never left invalid and any request id it holds is the
   last one announced, if and only if no load fails in a seek that it needs to reuse a loaded track.
   */
  lemma {:induction false} HoldsExactly(gapless: bool, ticks: seq<Tick>)
    ensures (forall k :: 0 <= k <= |ticks| ==> HoldsLastId(Run(gapless, ticks[..k]))) <==>
            (forall k :: 0 <= k < |ticks| ==> !LosesId(Run(gapless, ticks[..k]), ticks[k]))
  {
    hide HoldsLastId, LosesId, Turn, IdsInOrder;
    if forall k :: 0 <= k < |ticks| ==> !LosesId(Run(gapless, ticks[..k]), ticks[k]) {
      HoldsThroughout(gapless, ticks, |ticks|);
    } else {
      var k :| 0 <= k < |ticks| && LosesId(Run(gapless, ticks[..k]), ticks[k]);
      if HoldsLastId(Run(gapless, ticks[..k])) {
        NextTurn(gapless, ticks, k);
        assert !HoldsLastId(Run(gapless, ticks[..k + 1]));
      }
    }
  }

  lemma NextTurn(gapless: bool, ticks: seq<Tick>, k: nat)
    requires k < |ticks| && HoldsLastId(Run(gapless, ticks[..k]))
    ensures HoldsLastId(Run(gapless, ticks[..k + 1])) <==> !LosesId(Run(gapless, ticks[..k]), ticks[k])
  {
    hide HoldsLastId, LosesId, Turn, IdsInOrder;
    RunInOrder(gapless, ticks[..k]);
    TurnHolds(Run(gapless, ticks[..k]), ticks[k]);
    assert ticks[..k + 1][..k] == ticks[..k];
  }

  lemma {:induction false} HoldsThroughout(gapless: bool, ticks: seq<Tick>, n: nat)
    requires n <= |ticks| && forall k :: 0 <= k < n ==> !LosesId(Run(gapless, ticks[..k]), ticks[k])
    ensures forall k :: 0 <= k <= n ==> HoldsLastId(Run(gapless, ticks[..k]))
  {
    hide LosesId, Turn;
    if n > 0 {
      hide HoldsLastId;
      HoldsThroughout(gapless, ticks, n - 1);
      NextTurn(gapless, ticks, n - 1);
    }
  }

  /** In particular, in every run whose decoder seeks succeed. */
  lemma HoldsAnnouncedId(gapless: bool, ticks: seq<Tick>)
    requires forall i :: 0 <= i < |ticks| ==> ticks[i].answers.seek.Some?
    ensures HoldsLastId(Run(gapless, ticks))
  {
    hide HoldsLastId, Run;
    HoldsExactly(gapless, ticks);
    assert ticks[..|ticks|] == ticks;
  }

  // ---- Exactly when the state is left invalid

  lemma LoadInvalidates(p: Player, track: string, known: Option<nat>, play: bool, position: nat, a: Answers)
    requires !p.state.Invalid?
    ensures DoLoad(p, track, known, play, position, a).state.Invalid? <==>
            p.state.EndOfTrack? && p.state.track == track && p.state.position != position && a.seek.None?
  {
    hide LastId;
    AnnouncedHolds(p, if known.Some? then known.value else p.nextId, play, a.sinkStops);
  }

  lemma CommandInvalidates(p: Player, c: Command, a: Answers)
    requires !p.state.Invalid?
    ensures DoCommand(p, c, a).state.Invalid? <==>
            && c.Load? && p.state.EndOfTrack? && p.state.track == c.track
            && p.state.position != c.position && a.seek.None?
  {
    hide DoLoad, LastId, EnsureRunning, EnsureStopped, DoPause;
    SinkIsQuiet(p, false, a.commandStarts, a.sinkStops);
    match c
    case Load(track, play, position) => LoadInvalidates(p, track, None, play, position, a);
    case Seek(position) =>
      if p.state.Loading? { LoadInvalidates(p, p.state.track, Some(p.state.id), p.state.play, position, a); }
    case Play =>
      if p.state.Paused? {
        var q := p.(state := Playing(p.state.track, p.state.id, p.state.position, p.state.suggested));
        SinkIsQuiet(q.Send(NowPlaying(p.state.id)), false, a.commandStarts, a.sinkStops);
      }
    case _ =>
  }

  /** The turn repeats an ended track at another position, and the seek fails. */
  predicate RepeatFails(p: Player, t: Tick) {
    && t.command.Some? && t.command.value.Load? && t.answers.seek.None?
    && p.state.EndOfTrack? && p.state.track == t.command.value.track && p.state.position != t.command.value.position
  }

  /** Main result: a turn leaves the state invalid exactly then, and the process ends within that turn. */
  lemma TurnInvalidates(p: Player, t: Tick)
    requires !p.state.Invalid? && !p.exited
    ensures Turn(p, t).state.Invalid? <==> RepeatFails(p, t)
    ensures RepeatFails(p, t) ==> Turn(p, t).exited
  {
    hide DoCommand, PollLoader, PollPreloader, PlayPacket, Suggest, LastId, HeldId;
    var a := t.answers;
    var commanded := if t.command.Some? then DoCommand(p, t.command.value, a) else p;
    if t.command.Some? { CommandInvalidates(p, t.command.value, a); }
    var loading := PollLoader(commanded, t.loader, a);
    LoaderIsQuiet(commanded, t.loader, a);
    var loaded := PollPreloader(loading, t.preloader);
    PreloaderIsQuiet(loading, t.preloader);
    PacketIsQuiet(loaded, t.packet, a);
    PlayedIsValid(loaded, t.packet, a);
    SuggestIsQuiet(PlayPacket(loaded, t.packet, a), t.nearEnd);
  }

  /** An invalid state never survives a turn: the process ends within it. */
  lemma {:induction false} InvalidEndsProcess(gapless: bool, ticks: seq<Tick>)
    ensures Run(gapless, ticks).state.Invalid? ==> Run(gapless, ticks).exited
  {
    if ticks != [] {
      var before, t := Run(gapless, ticks[..|ticks| - 1]), ticks[|ticks| - 1];
      InvalidEndsProcess(gapless, ticks[..|ticks| - 1]);
      hide DoCommand, PollLoader, PollPreloader;
      if !before.exited {
        var commanded := if t.command.Some? then DoCommand(before, t.command.value, t.answers) else before;
        var loaded := PollPreloader(PollLoader(commanded, t.loader, t.answers), t.preloader);
        PlayedIsValid(loaded, t.packet, t.answers);
      }
    }
  }

  lemma PlayedIsValid(p: Player, packet: PacketPoll, a: Answers)
    ensures PlayPacket(p, packet, a).state.Invalid? ==> PlayPacket(p, packet, a).exited
  {
    hide LastId;
    SinkIsQuiet(p, false, a.playStarts, a.sinkStops);
  }

  // ---- Runs that fail

  const NO_SEEK: Answers := Answers(true, true, true, true, None)

  /** A track is loaded and starts to play. */
  const STARTS: Tick := Tick(Some(Load("t", true, 0)), Ready(0), Pending, Packet(1, true), false, NO_SEEK)

  /** It is loaded again at another position, and the decoder cannot seek. */
  const AGAIN: Tick := Tick(Some(Load("t", true, 5)), Pending, Pending, Packet(1, true), false, NO_SEEK)

  /** It ends. */
  const ENDS: Tick := Tick(None, Pending, Pending, NoMorePackets, false, NO_SEEK)

  lemma RunSnoc(gapless: bool, ticks: seq<Tick>, t: Tick)
    ensures Run(gapless, ticks + [t]) == Turn(Run(gapless, ticks), t)
  {
    assert (ticks + [t])[..|ticks|] == ticks;
  }

  lemma AfterStart()
    ensures Run(true, [STARTS]) ==
            Player(Playing("t", 0, 1, false), NoPreload, Running, 1, true,
                   [IdChanged(0), NowLoading(0), Started(0), NowPlaying(0)], false)
  {
    RunSnoc(true, [], STARTS);
    assert [] + [STARTS] == [STARTS];
    hide Run;
    assert Run(true, []) == Initial(true) by { RunNothing(true); }
  }

  lemma RunNothing(gapless: bool)
    ensures Run(gapless, []) == Initial(gapless)
  {
  }

  lemma AfterEnd()
    ensures Run(true, [STARTS, ENDS]) ==
            Player(EndOfTrack("t", 0, 1), NoPreload, Running, 1, true,
                   [IdChanged(0), NowLoading(0), Started(0), NowPlaying(0), Ended(0)], false)
  {
    AfterStart();
    RunSnoc(true, [STARTS], ENDS);
    assert [STARTS] + [ENDS] == [STARTS, ENDS];
    hide Run;
  }

  /** A run after which the player holds an id that is not the last one announced. */
  lemma OldIdStaysHeld()
    ensures var p := Run(true, [STARTS, AGAIN]);
            && !p.state.Invalid? && HeldId(p.state) == Some(0) && LastId(p.events) == Some(1) && !HoldsLastId(p)
  {
    AfterStart();
    RunSnoc(true, [STARTS], AGAIN);
    assert [STARTS] + [AGAIN] == [STARTS, AGAIN];
    hide Run, LastId;
    LastIdSend(Run(true, [STARTS]).events, IdChanged(1));
  }

  /** A run that leaves the state invalid and ends the process. */
  lemma RepeatInvalidates()
    ensures Run(true, [STARTS, ENDS, AGAIN]).state.Invalid? && Run(true, [STARTS, ENDS, AGAIN]).exited
  {
    AfterEnd();
    RunSnoc(true, [STARTS, ENDS], AGAIN);
    assert [STARTS, ENDS] + [AGAIN] == [STARTS, ENDS, AGAIN];
    hide Run, Turn;
    TurnInvalidates(Run(true, [STARTS, ENDS]), AGAIN);
  }
}
